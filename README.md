# Credit management system: a verified model of its business rules

The system manages consumer credit. Clients register and apply for a credit product. Officers
evaluate and decide the applications. The applicant uploads the documents each product
requires, and each document's validity window is checked. An approved application gets a
French-method repayment plan. A React frontend talks to the Django REST backend through an HTTP
client that adds the bearer token and refreshes it when a request answers 401.

This project models the rules behind those steps in Dafny and proves what they promise:

- `PlanPago`: the amortisation schedule.
  - Money is integer cents, the monthly rate is a real, and due dates are month indices.
  - It covers the `q2` rounding, the schedule loop as a method proved against a definition
    of the French schedule, and the input-validation ladder of `generar_plan`.
- `Validadores`: the document validity window. Dates are day numbers and "today" is a
  parameter.
- `Views`: the REST workflow rules.
  - The officer/admin permission and the client address.
  - The life cycle of a credit request: create, evaluate, decide. It is a class whose
    methods update its fields.
  - The document checklist, a join of requirements with attachments.
  - The worker-type checks of the two requirement endpoints.
  - Adding a permission to a role, and the validity stamp on uploaded documents.
- `Serializers`: the validation ladders.
  - Registration with its default filling, and the partial user update.
  - The password-pair checks and the credit-request validator.
  - The requirement uniqueness check, which excludes the row being edited.
  - The client panel's display-name fallback.
- `Navegador`: what the frontend's HTTP clients work on.
  - `localStorage` as a class over a map.
  - The request configuration that the interceptors edit in place.
  - The bearer header of section 2.1 of RFC 6750.
- `RefrescoUnico`: the single-flight token refresh as a state machine over a slot.
- `AxiosGateway` and `HttpGateway`: the two HTTP clients.
  - Their URL routing and bearer injection.
  - Their refresh coordinators, as classes whose methods step the slot.
  - Their token storage.
- `UrlUtil`: joining a media path to the base URL.
- `SolicitudChecklist`: the checklist page.
  - Missing items, badges and the completion message.
  - The document-type fallback.
  - The upload, replace and delete handlers of a row, with their busy flags.
- `SolicitudesList`, `ListaUsuarios`, `ClientManagement`, `EmployeeManagement`: the in-memory
  filters of the list pages.
- `Text`, `Seqs`, `Wrappers`: string, sequence and option/result helpers.

## Model

| member | source | states |
|---|---|---|
| `PlanPago.Q2` | backend/api/services/plan_pago.py:16-18 | the result is within half a cent of the value, and on a tie it lies away from zero: half-up rounding to two decimals |
| `PlanPago.Q2Unique` | backend/api/services/plan_pago.py:16-18 | exactly one whole number of cents meets that rounding rule, so `Q2` is the rounding and not just one candidate |
| `PlanPago.Q2Dec` | backend/api/services/plan_pago.py:16-18 | rounding an amount that already has two decimals returns it unchanged |
| `PlanPago.Q2Exact` | backend/api/services/plan_pago.py:65-69 | `q2` of a sum or difference of two-decimal amounts is their exact sum or difference in cents |
| `PlanPago.CalcularCronogramaFrances` | backend/api/services/plan_pago.py:21-95 | fails exactly when the term is zero (the source divides by zero). Otherwise there are `n` rows, numbered 1..n, due in consecutive months from the first due date. Each row's interest is `q2(saldo·r)` (none at a zero rate) and its balance is the previous balance less its capital. Every row but the last pays the level payment: `pmt` and `q2(pmt − interes)` of capital at a non-zero rate, `q2(P/n)` of capital plus interest at a zero rate; its adjustment is 0. The last row repays the whole balance and pays `capital + interes`. The summary holds the totals of the rows, `metodo == "frances"` and the first due date |
| `PlanPago.ArmarPlan` | backend/api/services/plan_pago.py:85-94 | the summary: method "frances", the currency, the first row's due date (the base date when there are no rows), total capital and interest as the rows' sums, total paid as their sum, the last row's adjustment and the level payment |
| `PlanPago.CalcularCuota` | backend/api/services/plan_pago.py:57-79 | one pass of the loop yields exactly the row the French schedule defines after the earlier rows, the closing adjustment of the last row included |
| `PlanPago.AjusteExacto` | backend/api/services/plan_pago.py:67 | the closing adjustment, computed and rounded on two-decimal amounts, is the exact difference in cents |
| `PlanPago.AppendRow` | backend/api/services/plan_pago.py:71-83 | appending a valid row keeps every earlier row valid and extends the capital and interest totals and the running balance by that row |
| `PlanPago.Acumulados` | backend/api/services/plan_pago.py:58-69 | for every prefix of a schedule, the payments add up to capital plus interest, and the balance is the principal less the capital repaid so far |
| `PlanPago.CuotasNiveladas` | backend/api/services/plan_pago.py:58-60 | the rows before the last pay `pmt` each, so the first `j` of them add up to `pmt·j` |
| `PlanPago.CuotaNivelada` | backend/api/services/plan_pago.py:58-60 | any row before the last pays exactly the level payment, at a zero or a non-zero rate |
| `PlanPago.PlanCierra` | backend/api/services/plan_pago.py:62-94 | for a term of at least one month: the last balance is 0.00, total capital equals the rounded principal, total paid equals the sum of the rows' payments, and the reported rounding adjustment is always 0.00 |
| `PlanPago.ResolverEntrada` | backend/api/services/plan_pago.py:128-160 | the error ladder, each case as an if-and-only-if: not APROBADA; an existing plan without overwrite when persisting; no user when persisting; direct mode missing capital, term or rate. The existing plan is deleted exactly when the request is approved, persisting and overwriting, and that deletion precedes (and survives) the missing-user error. Otherwise it gives the resolved inputs: the currency defaults to "BOB", and the first due date is the one given, else the month after approval or after now |
| `PlanPago.SimularIgnoraPersistencia` | backend/api/services/plan_pago.py:134-140 | without persisting nothing is deleted, and the user, an existing plan and `overwrite` do not affect the outcome |
| `PlanPago.GenerarPlan` | backend/api/services/plan_pago.py:98-169 | forwards the ladder's error or deletion; otherwise it returns the French schedule and summary of the resolved inputs, or the zero-term error, marked for storage exactly when persisting |
| `Validadores.ValidarVigencia` | backend/api/services/validadores.py:3-9 | valid exactly when the issue date is missing, the period is missing or zero, or today is on or before issue date + period (inclusive). The reason is absent exactly when valid, and when expired it names the period and the issue date |
| `Validadores.VigenteAntes` | backend/api/services/validadores.py:6-8 | a document valid on some day is valid on every earlier day |
| `Validadores.VigenciaMayor` | backend/api/services/validadores.py:6-8 | lengthening a positive validity period never turns a valid document into an expired one |
| `Views.TienePermiso` | backend/api/views.py:63-71 | granted exactly when the user is authenticated and is a superuser or has a role whose upper-cased name is OFICIAL or ADMIN |
| `Views.SinRolSoloSuperusuario` | backend/api/views.py:66-71 | without a role only an authenticated superuser passes |
| `Views.RolSinMayusculas` | backend/api/views.py:67 | the verdict does not depend on the letter case of the role name |
| `Views.ClientIp` | backend/api/views.py:169-171 | with a non-empty X-Forwarded-For header, the address is its prefix up to the first comma, with no comma in it; otherwise REMOTE_ADDR |
| `Views.IpUnica` | backend/api/views.py:169-171 | a forwarded header without a comma yields the whole header |
| `Views.SolicitudCredito.constructor` | backend/api/views.py:297-298 | a saved request carries the given estado and no evaluation, approval or officer |
| `Views.SolicitudCredito.PerformCreate` | backend/api/views.py:297-301 | an empty estado becomes ENVIADA, a non-empty one is kept, and no other field changes |
| `Views.SolicitudCredito.Evaluar` | backend/api/views.py:304-320 | without a score the answer is 400 and nothing changes. Otherwise it records the score, the remark (default '') and the time. ENVIADA and DRAFT become EVALUADA and every other estado is kept. The officer is replaced only when the caller has an employee record, and the approval date is untouched. Accepted on any stored state; a request that held an approval date only when approved still does |
| `Views.SolicitudCredito.Decidir` | backend/api/views.py:322-338 | the upper-cased decision must be APROBAR or RECHAZAR, otherwise the answer is 400 and nothing changes. APROBAR sets APROBADA with an approval time; RECHAZAR sets RECHAZADA and clears it, whatever the prior estado. The evaluation fields are untouched. Accepted on any stored state, including one a plain update left with an approval date and another estado; after a successful decision an approval date is held only by an approved request |
| `Views.DecisionSinMayusculas` | backend/api/views.py:325 | the letter case of a decision does not matter: upper-casing or lower-casing it first gives the same upper-cased text |
| `Views.UltimoAdjunto` | backend/api/views.py:350 | an attachment is found exactly when one of that document type exists, and it is one of the request's attachments of that type |
| `Views.UltimoGana` | backend/api/views.py:350 | the attachment the type index keeps is the last one of that type |
| `Views.Item` | backend/api/views.py:353-366 | a line copies the requirement's code, name, obligation and type id. `recibido` holds exactly when there is an attachment. Without one, `valido`, `motivo`, `adjunto_id`, `archivo_url` and `fecha_emision` are all None. With one they are the attachment's values, an empty remark becomes None, and `archivo_url` is the file's URL when it has a non-empty one, None otherwise |
| `Views.RequisitosDe` | backend/api/views.py:346-348 | the requirements of that product and worker type, in stored order, each kept as many times as it occurs in the input |
| `Views.IndicePorTipo` | backend/api/views.py:350 | the dictionary built in the loop maps each document type present to the last attachment of that type, and holds no other key |
| `Views.Checklist` | backend/api/views.py:341-367 | 400 exactly when product or worker type is missing; otherwise one line per requirement of that product and worker type, in order, each joined with the last attachment of its type |
| `Views.Lineas` | backend/api/views.py:351-366 | one line per requirement, in order, each joined with the attachment the index holds for its document type, which is the last one of that type |
| `Views.RecibidoSiHayAdjunto` | backend/api/views.py:354-358 | a line is marked received exactly when some attachment of its document type exists |
| `Views.RequisitosProducto` | backend/api/views.py:504-521 | 400 exactly when the worker type is missing or not PUBLICO/PRIVADO/INDEPENDIENTE; otherwise the public view of each matching requirement, in order |
| `Views.ListarRequisitos` | backend/api/views.py:537-545 | an order-preserving sublist. It filters by product when one is given, and by worker type only when the type is a known one, each kept as many times as it occurs in the input |
| `Views.TipoInvalidoIgnorado` | backend/api/views.py:541-545 | an unknown worker type is ignored by the list, while the `requisitos` action answers 400 for it |
| `Views.AmbosListadosCoinciden` | backend/api/views.py:541-545 | for a known worker type the list endpoint and the `requisitos` selection give the same requirements in the same order |
| `Views.AddPermiso` | backend/api/views.py:200-211 | 404 exactly when the permission does not exist, 201 exactly when the pair is new (and it is added), 400 exactly when it is already assigned; the pair is assigned afterwards in every case but 404 |
| `Views.AddPermisoDosVeces` | backend/api/views.py:204-210 | adding an existing permission twice: the second call answers 400 and changes nothing |
| `Views.DocumentoAdjunto.constructor` | backend/api/views.py:566-567 | the saved attachment carries its document type and issue date and has no verdict yet |
| `Views.DocumentoAdjunto.Sellar` | backend/api/views.py:569-572 | `valido` is the `validar_vigencia` verdict, `observacion` is '' when valid and the reason otherwise, and the remark is empty exactly when valid |
| `Views.DocumentoAdjunto.Actualizar` | backend/api/views.py:579-591 | 400 with nothing changed when the serializer rejects the data. Otherwise the document type and issue date present in the data replace the stored ones, absent ones are kept, and the document is re-stamped with the verdict on the resulting date under its type's period |
| `Views.CrearAdjunto` | backend/api/views.py:560-577 | 400 exactly when the request or the document type is missing or the serializer rejects the data; otherwise a new attachment stamped with the verdict |
| `Serializers.ValidarPar` | backend/api/serializers.py:159-162 | rejected exactly when the two entries differ, with the "no coinciden" message on the given field |
| `Serializers.ValidarCambioClave` | backend/api/serializers.py:159-162 | rejected exactly when `new_password` and `new_password2` differ, on field `new_password` |
| `Serializers.ValidarRestablecerClave` | backend/api/serializers.py:173-176 | rejected exactly when the two new passwords differ, on field `new_password` |
| `Serializers.ValidarRegistroPublico` | backend/api/serializers.py:430-433 | rejected exactly when `password` and `password2` differ, on field `password` |
| `Serializers.ValidarAltaUsuario` | backend/api/serializers.py:80-86 | rejected exactly when the passwords differ, or a non-empty document number is already used. A password mismatch is reported first; otherwise the error is on `numero_documento` |
| `Serializers.RolPorId` | backend/api/serializers.py:106-110 | the role found has the requested id |
| `Serializers.PrimerRolCliente` | backend/api/serializers.py:112 | the role found is the first one, in primary-key order, named 'cliente' in some letter case; none is found only when no role is |
| `Serializers.ResolverRol` | backend/api/serializers.py:105-114 | an existing non-zero `rol_id` wins. Otherwise the first existing 'Cliente' role (any case, lowest key) is used. A new 'Cliente' role is created exactly when neither exists |
| `Serializers.NumeroAutomaticoUnico` | backend/api/serializers.py:121-122 | the automatic numbers `AUTO-<id>` of different users differ |
| `Serializers.CrearUsuario` | backend/api/serializers.py:88-134 | exactly one profile ties the user to the resolved role. The client gets 'CI' when the type is missing or empty and `AUTO-<user id>` when the number is missing or empty, the given phone, address and occupation or '' when absent, and the given birth date and income |
| `Serializers.SegundoAltaReusaRol` | backend/api/serializers.py:111-114 | the first registration without roles creates 'Cliente', and a later one reuses it instead of creating another |
| `Serializers.AltaComoEscrita` | backend/api/serializers.py:78-134 | as written, whatever client fields a request carries, validation fails only on a password mismatch and the client gets 'CI', `AUTO-<id>`, blank contacts and no birth date or income |
| `Serializers.PrimerRolClienteAlFinal` | backend/api/serializers.py:112 | a 'Cliente' role appended after roles of other names is the one found |
| `Serializers.Aplicar` | backend/api/serializers.py:144-149 | each of username, email, first and last name and is_active is replaced when given and kept when absent |
| `Serializers.AplicarNeutroEIdempotente` | backend/api/serializers.py:144-149 | an update with no fields changes nothing, and repeating an update changes nothing more |
| `Serializers.Usuario.Update` | backend/api/serializers.py:144-151 | the stored user afterwards is the partial update applied to the user before |
| `Serializers.ValidarSolicitud` | backend/api/serializers.py:313-322 | accepted exactly when amount > 0, term >= 1, and product and worker type are present; the attributes are returned unchanged. Each failure is reported on its own field, in the order amount, term, product, worker type |
| `Serializers.ResolverClave` | backend/api/serializers.py:524-526 | each part of the key comes from the input when given and from the edited row otherwise. With an edited row all parts are known |
| `Serializers.ValidarRequisito` | backend/api/serializers.py:523-538 | rejected exactly when all three key parts are known and another row than the edited one has that key, with the error on `non_field_errors` |
| `Serializers.ResguardarSinCambios` | backend/api/serializers.py:532-533 | re-saving a stored row without touching its key is never rejected as a duplicate of itself |
| `Serializers.ClientePanel` | backend/api/serializers.py:361-375 | the name is never empty: the "first last" stripped of Python white space, else the username, else "Cliente #id". The document is "tipo numero", absent exactly when there is no number. The other fields are copied |
| `Serializers.NombreEnBlanco` | backend/api/serializers.py:364 | names made only of Python white space fall through to the username |
| `Text.Upper` | backend/api/views.py:67 | same length; letters upper-cased one by one |
| `Text.Lower` | frontend/src/components/ClientManagement/ClientManagement.js:38 | same length; letters lower-cased one by one |
| `Text.TrimBy` | frontend/src/pages/solicitudes/SolicitudesList.jsx:33 | for any set of characters: a slice of the input that neither starts nor ends with one of them, empty exactly when the input holds nothing else |
| `Text.Trim` | frontend/src/pages/solicitudes/SolicitudesList.jsx:33 | a slice of the input that neither starts nor ends with JavaScript white space or a line terminator, empty exactly when the input is all such characters |
| `Text.Strip` | backend/api/serializers.py:364 | a slice of the input that neither starts nor ends with a character Python's `isspace()` accepts, empty exactly when the input is all such characters |
| `Text.BeforeFirst` | backend/api/views.py:171 | the prefix before the first occurrence of the separator, with no separator in it; the whole text when there is none |
| `Seqs.Filter` | frontend/src/pages/solicitudes/SolicitudesList.jsx:34 | `Array.prototype.filter`: an order-preserving subsequence holding exactly the elements that satisfy the predicate, each kept as many times as it occurs in the input |
| `Navegador.Almacen.Get` | frontend/src/config/axios.js:33-35 | `getItem`: the stored value when the key is present, null otherwise |
| `Navegador.Almacen.SetItem` | frontend/src/config/axios.js:10-11 | the store afterwards maps the key to the value, other keys untouched |
| `Navegador.Almacen.RemoveItem` | frontend/src/config/axios.js:14-15 | the store afterwards lacks the key, other keys untouched |
| `Navegador.O` | frontend/src/config/axios.js:33-35 | JavaScript `a \|\| b` on stored values: the first when truthy, else the second; truthy exactly when either is |
| `Navegador.Bearer` | frontend/src/config/axios.js:39 | the header value is "Bearer " followed by the token, and nothing else |
| `Navegador.BearerInjective` | frontend/src/config/axios.js:39 | two bearer headers are equal exactly when their tokens are |
| `RefrescoUnico.Decidir` | frontend/src/config/axios.js:52-66 | a request that does not qualify is rethrown. A qualifying one starts a refresh exactly when the slot is empty and joins exactly when one is in flight |
| `RefrescoUnico.Paso` | frontend/src/config/axios.js:57-66 | settling empties the slot. A failure leaves a refresh in flight when one was or when it qualifies, and counts one more refresh request exactly when it starts one |
| `RefrescoUnico.CotaDeLlamadas` | frontend/src/config/axios.js:45-66 | over any trace, refresh requests sent ≤ settlements, plus one when the slot starts empty: at most one refresh in flight at a time |
| `RefrescoUnico.RafagaSinAsentar` | frontend/src/config/axios.js:57-68 | any burst of 401s with no settlement in between sends exactly one refresh request if some of them qualifies and none otherwise |
| `RefrescoUnico.EnVueloSeMantiene` | frontend/src/config/axios.js:57 | while a refresh is in flight, failures only join it |
| `AxiosGateway.SetTokenPair` | frontend/src/config/axios.js:9-12 | each truthy token is stored under its key, and every other key (a falsy token's too) is untouched |
| `AxiosGateway.ClearTokenPair` | frontend/src/config/axios.js:13-16 | removes `access_token` and `refresh_token` and keeps every other key, the legacy `access` and `refresh` included |
| `AxiosGateway.RaizNoEsAbsoluta` | frontend/src/config/axios.js:22 | a URL starting with '/' never passes the absolute-URL test |
| `AxiosGateway.Normalizar` | frontend/src/config/axios.js:27-31 | the result starts with '/api/'. A URL already starting with '/api/' is kept; any other becomes '/api/' plus the path with its one leading slash, if any, removed |
| `AxiosGateway.RutaPedida` | frontend/src/config/axios.js:18-31 | an http(s) URL, in any letter case, is kept; any other is normalised |
| `AxiosGateway.RutaPedidaIdempotente` | frontend/src/config/axios.js:18-31 | routing twice equals routing once |
| `AxiosGateway.Token` | frontend/src/config/axios.js:33-35 | `access_token` when truthy, else the legacy `access`; truthy exactly when either is |
| `AxiosGateway.CabecerasPedidas` | frontend/src/config/axios.js:33-40 | only Authorization can change. It is set to the bearer of the token exactly when the URL is relative and a token is found; otherwise the headers are unchanged |
| `AxiosGateway.AlPedir` | frontend/src/config/axios.js:18-42 | the config's URL and headers afterwards are the routed URL and the headers above; the retry flag is untouched |
| `AxiosGateway.TokenRefresco` | frontend/src/config/axios.js:54 | a refresh token is available exactly when `refresh_token` or the legacy `refresh` is truthy |
| `AxiosGateway.RefrescoNoSeRefresca` | frontend/src/config/axios.js:51-52 | the routed refresh call never qualifies for a refresh of its own |
| `AxiosGateway.ReintentoNoRefresca` | frontend/src/config/axios.js:52 | a request already marked `_retry` never qualifies for a refresh |
| `AxiosGateway.Asentamiento` | frontend/src/config/axios.js:58-64 | the refresh resolves exactly when the answer carries a truthy `access`, and then with that token |
| `AxiosGateway.Api.constructor` | frontend/src/config/axios.js:45 | the slot starts empty, with no refresh sent |
| `AxiosGateway.Api.AlFallar` | frontend/src/config/axios.js:46-66 | the decision is `Decidir` on the request's eligibility (401, not a retry, not the refresh call, a refresh token stored), and the slot steps by that failure |
| `AxiosGateway.Api.Asentar` | frontend/src/config/axios.js:58-65 | a resolved refresh stores the new token under `access_token` and a rejected one stores nothing; the slot is emptied either way |
| `AxiosGateway.Api.Reanudar` | frontend/src/config/axios.js:68-72 | a rejected refresh re-sends nothing and changes nothing. A resolved one marks the request `_retry`, sets the new bearer and routes it again through the request interceptor; the re-sent header carries the new token when it is the stored one |
| `HttpGateway.RutaPedida` | frontend/src/api/http.js:13-16 | the result starts with '/api'; a URL starting with '/api' is kept, any other becomes '/api/' plus the path with its one leading slash, if any, removed |
| `HttpGateway.RutaPedidaIdempotente` | frontend/src/api/http.js:13-16 | routing twice equals routing once |
| `HttpGateway.AbsolutaPrefijada` | frontend/src/api/http.js:14-15 | absolute URLs are not exempt: `http://…` becomes `/api/http://…` |
| `HttpGateway.PrefijoSinBarra` | frontend/src/api/http.js:14 | '/apix' is left unchanged, because the test is on the '/api' prefix |
| `HttpGateway.CabecerasPedidas` | frontend/src/api/http.js:10-11 | only Authorization can change. It is set to the bearer of `access_token` exactly when that is truthy, whatever the URL |
| `HttpGateway.AlPedir` | frontend/src/api/http.js:9-18 | the config's headers and URL afterwards are those above; the retry flag is untouched |
| `HttpGateway.RefrescoNoSeRefresca` | frontend/src/api/http.js:27-29 | the routed refresh call never qualifies for a refresh of its own |
| `HttpGateway.Asentamiento` | frontend/src/api/http.js:36-40 | the refresh rejects only when the call fails; otherwise it resolves with `data.access`, even when that is missing |
| `HttpGateway.BearerDe` | frontend/src/api/http.js:47 | the bearer of the token, or of the text 'undefined' when there is none |
| `HttpGateway.Api.constructor` | frontend/src/api/http.js:21 | the slot starts empty, with no refresh sent |
| `HttpGateway.Api.AlFallar` | frontend/src/api/http.js:24-42 | the decision is `Decidir` on the request's eligibility (401, not a retry, not the refresh call, `refresh_token` stored), and the slot steps by that failure |
| `HttpGateway.Api.Asentar` | frontend/src/api/http.js:34-41 | a truthy `access` is stored under `access_token` and anything else stores nothing; the slot is emptied either way |
| `HttpGateway.Api.Reanudar` | frontend/src/api/http.js:44-48 | a resolved refresh marks the request `_retry` and routes it again. The header is the stored access token's bearer when one is stored, otherwise `Bearer <access>`, which is 'Bearer undefined' when the answer lacked `access` |
| `UrlUtil.RaizSinEsquema` | frontend/src/utils/url.js:8-9 | a text starting with '/' is never taken for an http(s) URL |
| `UrlUtil.SinBarrasFinales` | frontend/src/utils/url.js:15 | a prefix of the base that does not end with '/', with only slashes cut |
| `UrlUtil.SinBarrasIniciales` | frontend/src/utils/url.js:16 | a suffix of the path that does not start with '/', with only slashes cut |
| `UrlUtil.Unir` | frontend/src/utils/url.js:15-17 | the base up to its trailing slashes, exactly one '/', and the path after its leading slashes |
| `UrlUtil.ToAbsoluteUrl` | frontend/src/utils/url.js:4-18 | '' for a missing or empty input; an http(s) URL unchanged. Anything else (a `mailto:` URL included) is the base up to its trailing slashes, exactly one '/', and the path after its leading slashes; a missing base counts as '' |
| `UrlUtil.BarraInicialIndiferente` | frontend/src/utils/url.js:16-17 | '/media/x' and 'media/x' give the same URL |
| `UrlUtil.SinBarrasInicialesBarra` | frontend/src/utils/url.js:16 | one more leading '/' is stripped like the others |
| `UrlUtil.UnidaEsHttp` | frontend/src/utils/url.js:15-17 | joining anything after an http(s) base gives an http(s) URL |
| `UrlUtil.UnidaSinBase` | frontend/src/utils/url.js:15-17 | without a base, '/' plus a path without leading slash comes back unchanged |
| `UrlUtil.UnidaConBaseIdempotente` | frontend/src/utils/url.js:6-17 | under an http(s) base a joined URL is itself http(s), so converting it again returns it unchanged |
| `UrlUtil.Idempotente` | frontend/src/utils/url.js:4-18 | when the base is empty or an http(s) URL, converting a converted URL changes nothing |
| `SolicitudChecklist.Faltantes` | frontend/src/pages/solicitudes/SolicitudChecklist.jsx:38-41 | an order-preserving sublist holding exactly the items not received or with `valido === false`, each kept as many times as it occurs in the input |
| `SolicitudChecklist.MensajeFinal` | frontend/src/pages/solicitudes/SolicitudChecklist.jsx:63-71 | "complete" exactly when every item is received and none is marked invalid |
| `SolicitudChecklist.PendienteDeRevisionNoFalta` | frontend/src/pages/solicitudes/SolicitudChecklist.jsx:39 | received items whose validity is still null do not block completion |
| `SolicitudChecklist.BadgeDe` | frontend/src/pages/solicitudes/SolicitudChecklist.jsx:190-192 | 'Falta' exactly when not received; 'Observado' exactly when received with `valido === false`; 'OK' exactly for every other received item |
| `SolicitudChecklist.BadgeCoincideConFaltantes` | frontend/src/pages/solicitudes/SolicitudChecklist.jsx:104-105 | an item is among the missing exactly when its badge is not OK |
| `SolicitudChecklist.DocTipoId` | frontend/src/pages/solicitudes/SolicitudChecklist.jsx:109 | a truthy `documento_tipo_id` wins; otherwise the code's entry in the document map, and none when the code is unmapped |
| `SolicitudChecklist.DocMapInyectivo` | frontend/src/pages/solicitudes/SolicitudChecklist.jsx:12-15 | every mapped id is truthy (1..12) and no two codes share one |
| `SolicitudChecklist.FechaEnviada` | frontend/src/pages/solicitudes/SolicitudChecklist.jsx:127 | the issue date is sent exactly when it is not empty, and then unchanged |
| `SolicitudChecklist.Pagina.constructor` | frontend/src/pages/solicitudes/SolicitudChecklist.jsx:22 | the page starts not busy |
| `SolicitudChecklist.RowItem.constructor` | frontend/src/pages/solicitudes/SolicitudChecklist.jsx:101-112 | a row starts with no file, the item's issue date or '', not busy and file key 0 |
| `SolicitudChecklist.RowItem.Subir` | frontend/src/pages/solicitudes/SolicitudChecklist.jsx:115-137 | nothing without a file. Without a document type id, an alert naming the code and no request. Otherwise the upload of the file under that id with the date when non-empty, both busy flags raised. Flags are untouched whenever nothing is sent |
| `SolicitudChecklist.RowItem.Reemplazar` | frontend/src/pages/solicitudes/SolicitudChecklist.jsx:139-158 | nothing without a file or a truthy `adjunto_id`; otherwise the replacement request with both busy flags raised |
| `SolicitudChecklist.RowItem.Eliminar` | frontend/src/pages/solicitudes/SolicitudChecklist.jsx:160-173 | nothing without a truthy `adjunto_id` or without confirmation; otherwise the delete request with both busy flags raised |
| `SolicitudChecklist.RowItem.Concluir` | frontend/src/pages/solicitudes/SolicitudChecklist.jsx:129-136 | both busy flags are lowered on success and failure alike. A successful upload or replacement clears the file input and bumps its key; otherwise the file is kept |
| `SolicitudesList.OTexto` | frontend/src/pages/solicitudes/SolicitudesList.jsx:35 | JavaScript `a \|\| b`: the optional text when truthy, else the fallback |
| `SolicitudesList.Nombre` | frontend/src/pages/solicitudes/SolicitudesList.jsx:37-41 | never empty: the panel name, else the trimmed "first last", else `cliente_nombre`, else "Cliente #<cliente>" |
| `SolicitudesList.Documento` | frontend/src/pages/solicitudes/SolicitudesList.jsx:43-46 | the panel document, else the client's number, else '' |
| `SolicitudesList.Consulta` | frontend/src/pages/solicitudes/SolicitudesList.jsx:33 | the normalised query is empty exactly when the query is all white space |
| `SolicitudesList.Filtrar` | frontend/src/pages/solicitudes/SolicitudesList.jsx:32-56 | an order-preserving sublist. It holds exactly the rows that pass the estado selector ('TODOS', or the upper-cased estado equal to it) and the search (a blank query, or the query inside the lower-cased name, document or id), each kept as many times as it occurs in the input |
| `SolicitudesList.FiltrosEnCadena` | frontend/src/pages/solicitudes/SolicitudesList.jsx:54 | filtering by estado and then by the query gives the same list as the combined filter |
| `SolicitudesList.SinFiltrosTodo` | frontend/src/pages/solicitudes/SolicitudesList.jsx:33-54 | 'TODOS' with a blank query returns every row, in order |
| `ListaUsuarios.Filas` | frontend/src/components/ClientManagement/ClientManagement.js:23 | a plain array is taken as is; an object gives its `results`, or [] when missing |
| `ListaUsuarios.SoloClientes` | frontend/src/components/ClientManagement/ClientManagement.js:23-24 | an order-preserving sublist of exactly the rows with `cliente_info`, each kept as many times as it occurs in the input |
| `ListaUsuarios.SoloEmpleados` | frontend/src/components/EmployeeManagement/EmployeeManagement.js:22-23 | an order-preserving sublist of exactly the rows with `empleado_info`, each kept as many times as it occurs in the input |
| `ListaUsuarios.IncluyeVacio` | frontend/src/components/ClientManagement/ClientManagement.js:42-44 | the empty query is included in a field exactly when the field is present |
| `ListaUsuarios.Consulta` | frontend/src/components/ClientManagement/ClientManagement.js:38 | the query both management pages search with (lower-cased, then trimmed) is empty exactly when the query is all white space |
| `ClientManagement.FiltrarComoEscrito` | frontend/src/components/ClientManagement/ClientManagement.js:37-58 | the page's filter as written: an order-preserving sublist of exactly the rows matching on `cliente_info.documento` and `cliente_info.preferencial`, each kept as many times as it occurs in the input |
| `ClientManagement.FiltroComoEscritoVacio` | frontend/src/components/ClientManagement/ClientManagement.js:45-54 | on rows as the backend sends them, any document-type filter, or preferred = 'true', empties the list |
| `ClientManagement.Documento` | backend/api/serializers.py:369 | the client document as the backend renders it: "tipo numero", or '' without a number |
| `ClientManagement.Filtrar` | frontend/src/components/ClientManagement/ClientManagement.js:37-58 | the filter on the keys the backend sends: an order-preserving sublist. It holds exactly the rows that match the query on username, names or document, have the chosen document type, and pass the three-state preferred filter, each kept as many times as it occurs in the input |
| `ClientManagement.ConsultaVaciaCoincide` | frontend/src/components/ClientManagement/ClientManagement.js:41-45 | an empty query matches every row |
| `ClientManagement.FiltroPorTipo` | frontend/src/components/ClientManagement/ClientManagement.js:47-48 | with only a document type chosen, exactly the clients of that type remain |
| `ClientManagement.PreferencialParticiona` | frontend/src/components/ClientManagement/ClientManagement.js:50-54 | 'true' and 'false' split the rows kept by '' into two disjoint parts, and 'true' keeps only preferred clients |
| `ClientManagement.FiltrosEnCadena` | frontend/src/components/ClientManagement/ClientManagement.js:56 | filtering by the query and then by the other two conditions gives the same list |
| `EmployeeManagement.NombresDe` | frontend/src/components/EmployeeManagement/EmployeeManagement.js:39-40 | name fields come from `empleado_info.user_info` when present, else from the row itself |
| `EmployeeManagement.Filtrar` | frontend/src/components/EmployeeManagement/EmployeeManagement.js:36-57 | an order-preserving sublist. It holds exactly the rows that match the query on username, names or employee code, have the chosen department, and pass the three-state approval filter, each kept as many times as it occurs in the input |
| `EmployeeManagement.SinCamposNoCoincide` | frontend/src/components/EmployeeManagement/EmployeeManagement.js:42-46 | a row with none of the searched fields never matches, even for an empty query |
| `EmployeeManagement.ConsultaVacia` | frontend/src/components/EmployeeManagement/EmployeeManagement.js:42-46 | an empty query matches exactly the rows with some searched field |
| `EmployeeManagement.UserInfoPrevalece` | frontend/src/components/EmployeeManagement/EmployeeManagement.js:40 | when `user_info` is present, the row's own name fields play no part in the search |
| `EmployeeManagement.AprobacionParticiona` | frontend/src/components/EmployeeManagement/EmployeeManagement.js:50-53 | 'true' and 'false' split the rows kept by '' into two disjoint parts |
| `EmployeeManagement.FiltrosEnCadena` | frontend/src/components/EmployeeManagement/EmployeeManagement.js:55 | filtering by the query and then by the other two conditions gives the same list |

## Left out

- Persistence is not modelled: the Django ORM, transactions and every database write. Queries are replaced by the rows they would return, passed in as sequences, sets or maps. Deleting a plan and storing its rows are reported as flags.
- Email and password-reset tokens are foreign calls. PDF and XLSX export is rendering.
- Floating point is not modelled, neither the `float(...)` parsing of the simulator endpoint nor JavaScript `Number`/`toFixed` formatting.
- `PlanPago.CalcularCronogramaFrances`: the 28-digit `Decimal` context and the non-integer power of the annuity formula are not reproduced. The level payment at a non-zero rate arrives as the input `pmtFormula`; at a zero rate it is computed as `q2(P/n)`.
- Dates are month indices in the schedule and day numbers in the validity check. `relativedelta` day clamping is not modelled. `now()` and `date.today()` are parameters.
- `PlanPago.GenerarPlan`: the rows are computed and marked for storage, but the `PlanPago`/`PlanCuota` objects themselves are not created.
- Case mapping covers ASCII letters only: `upper()` and `toLowerCase()` on other Unicode letters are not modelled. White space follows each language's own set: JavaScript's white space and line terminators for `trim()`, and `str.isspace()` for Python's `strip()`.
- `Views.SolicitudCredito.Evaluar`: the score is taken as a number. DRF's parsing of `request.data` is not modelled.
- `Serializers.CrearUsuario`: creating the `User` row and hashing the password are left out; the new user's id is a parameter.
- `Views.CrearAdjunto`: the serializer's own validation (a missing file, an unknown request or type pk, a malformed date) is not computed; its verdict is the input `serializadorValido`.
- `Views.DocumentoAdjunto.Actualizar`: the serializer's verdict is the input `serializadorValido`, and the validity period of the document type after the update is the input `vigenciaDias`.
- The refresh coordinators are reduced to a sequential trace of the events that reach the slot, in place of real concurrency and promises. The count of refresh requests is ghost bookkeeping.
- `AxiosGateway.Api.Reanudar`: re-sending returns whether a request goes out; the network call itself is not modelled.
- `UrlUtil.ToAbsoluteUrl`: the WHATWG URL parser is reduced to its scheme test. Leading white space and inputs with an http scheme but no host (which the parser rejects) are not modelled.
- `SolicitudesList.Filtrar`: an application id is modelled as text. The source calls `toLowerCase` on it, which fails on a numeric id. A `cliente` that is null prints as "null" where the model prints "undefined".
- `SolicitudChecklist.RowItem.Subir`: the disabled state of the buttons while busy is a rendering matter and is not enforced by the handlers. The request the handler sends is returned, not executed.
- The page components, routing, CRUD glue and the thin service wrappers of the frontend are outside this model.
- `backend/api/services/simulador.py` only forwards to `generar_plan` and is not part of this model.

## Findings

| source | as written | input that shows it | evidently intended | confidence | as-written member | corrected member |
|---|---|---|---|---|---|---|
| frontend/src/components/ClientManagement/ClientManagement.js:45-54 | the filter reads `cliente_info.documento` and `cliente_info.preferencial`, but the list endpoint's `cliente_info` (backend/api/serializers.py:235-245) only carries `tipo_documento`, `numero_documento` and `es_cliente_preferencial` | any client list with document type "CI" chosen, or with preferred = 'true' chosen | filter on the document type, the rendered "tipo numero" and `es_cliente_preferencial` | medium; not executed | `ClientManagement.FiltroComoEscritoVacio` | `ClientManagement.Filtrar` |
| backend/api/serializers.py:78-97 | `UserCreateSerializer.Meta.fields` declares none of the client fields, so the framework drops `tipo_documento`, `numero_documento`, `telefono`, `direccion`, `fecha_nacimiento`, `ocupacion` and `ingresos_mensuales` before `validate` and `create` run; the duplicate-number check never fires and every `pop` returns its default | a create request with `numero_documento` "123", already held by a client, and `telefono` "555": it is accepted, and the new client gets `AUTO-<id>` and a blank phone | the client fields are declared write-only, so a duplicate number is rejected and the given values are stored | medium; not executed | `Serializers.AltaComoEscrita` | `Serializers.CrearUsuario` |
