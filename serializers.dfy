/**
 * Validation and default-filling of the REST serializers (backend/api/serializers.py):
 * user registration and update, the password-pair checks, the credit-request and
 * requirement validators, and the client panel shown to officers.
 */
module Serializers {
  import opened Wrappers
  import opened Text

  /** A `ValidationError`: the offending field and its message. */
  datatype ErrorValidacion = ErrorValidacion(campo: string, mensaje: string)

  // ---------------------------------------------------------------------------------
  // Password pairs
  // ---------------------------------------------------------------------------------

  const NoCoinciden := "Las contraseñas no coinciden."

  /** The check every password form runs: the two entries must be equal. */
  function ValidarPar(campo: string, clave: string, confirmacion: string): (r: Result<(), ErrorValidacion>)
    ensures r.Err? <==> clave != confirmacion
    ensures r.Err? ==> r.error == ErrorValidacion(campo, NoCoinciden)
  {
    if clave != confirmacion then Err(ErrorValidacion(campo, NoCoinciden)) else Ok(())
  }

  /** `ChangePasswordSerializer.validate`. */
  function ValidarCambioClave(newPassword: string, newPassword2: string): (r: Result<(), ErrorValidacion>)
    ensures r.Err? <==> newPassword != newPassword2
    ensures r.Err? ==> r.error.campo == "new_password"
  {
    ValidarPar("new_password", newPassword, newPassword2)
  }

  /** `PasswordResetConfirmSerializer.validate`. */
  function ValidarRestablecerClave(newPassword: string, newPassword2: string): (r: Result<(), ErrorValidacion>)
    ensures r.Err? <==> newPassword != newPassword2
    ensures r.Err? ==> r.error.campo == "new_password"
  {
    ValidarPar("new_password", newPassword, newPassword2)
  }

  /** `PublicRegisterSerializer.validate`. */
  function ValidarRegistroPublico(password: string, password2: string): (r: Result<(), ErrorValidacion>)
    ensures r.Err? <==> password != password2
    ensures r.Err? ==> r.error.campo == "password"
  {
    ValidarPar("password", password, password2)
  }

  // ---------------------------------------------------------------------------------
  // UserCreateSerializer
  // ---------------------------------------------------------------------------------

  /**
   * `UserCreateSerializer.validate`: first the password pair, then a document number
   * already held by a client (checked only when one is given). This reads the number as
   * the request was meant to pass it; `AltaComoEscrita` shows what the declared fields
   * actually let through.
   */
  function ValidarAltaUsuario(password: string, password2: string, numeroDocumento: Option<string>,
                              documentosExistentes: set<string>)
    : (r: Result<(), ErrorValidacion>)
    ensures r.Err? <==>
      password != password2 ||
      (numeroDocumento.Some? && numeroDocumento.value != "" && numeroDocumento.value in documentosExistentes)
    ensures password != password2 ==> r == Err(ErrorValidacion("password", NoCoinciden))
    ensures r.Err? && password == password2 ==> r.error.campo == "numero_documento"
  {
    if password != password2 then Err(ErrorValidacion("password", NoCoinciden))
    else if numeroDocumento.Some? && numeroDocumento.value != "" && numeroDocumento.value in documentosExistentes
    then Err(ErrorValidacion("numero_documento", "Ya existe un cliente con ese número."))
    else Ok(())
  }

  /** A role row. */
  datatype Rol = Rol(id: int, nombre: string)

  /** The client fields `create` takes out of the validated data, each absent or given. */
  datatype DatosCliente = DatosCliente(
    rolId: Option<int>,
    tipoDocumento: Option<string>,
    numeroDocumento: Option<string>,
    telefono: Option<string>,
    direccion: Option<string>,
    fechaNacimiento: Option<int>,
    ocupacion: Option<string>,
    ingresosMensuales: Option<int>)

  /** The `Cliente` row that registration creates. */
  datatype ClienteNuevo = ClienteNuevo(
    userId: int,
    tipoDocumento: string,
    numeroDocumento: string,
    telefono: string,
    direccion: string,
    fechaNacimiento: Option<int>,
    ocupacion: string,
    ingresosMensuales: Option<int>)

  /** What registration writes besides the user: its role (maybe new), one profile and one client. */
  datatype Alta = Alta(rol: Rol, rolCreado: bool, perfilUserId: int, perfilRolId: int, cliente: ClienteNuevo)

  /** Whether some role has this id. */
  predicate ExisteRol(roles: seq<Rol>, id: int) {
    exists i :: 0 <= i < |roles| && roles[i].id == id
  }

  /** The first role with this id. */
  function RolPorId(roles: seq<Rol>, id: int): (r: Rol)
    requires ExisteRol(roles, id)
    ensures r in roles && r.id == id
  {
    if roles[0].id == id then roles[0] else RolPorId(roles[1..], id)
  }

  /** A role named 'Cliente' in any letter case. */
  predicate EsRolCliente(r: Rol) {
    Lower(r.nombre) == "cliente"
  }

  /** `roles[i]` is a 'Cliente' role and no earlier role is one. */
  predicate EsPrimeroCliente(roles: seq<Rol>, i: int) {
    0 <= i < |roles| && EsRolCliente(roles[i]) && forall j :: 0 <= j < i ==> !EsRolCliente(roles[j])
  }

  /**
   * `Rol.objects.filter(nombre__iexact='Cliente').first()`, with `roles` in primary-key
   * order: the matching role with the lowest key.
   */
  function PrimerRolCliente(roles: seq<Rol>): (r: Option<Rol>)
    ensures r.Some? ==> exists i :: EsPrimeroCliente(roles, i) && roles[i] == r.value
    ensures r.None? ==> forall x :: x in roles ==> !EsRolCliente(x)
  {
    if |roles| == 0 then None
    else if EsRolCliente(roles[0]) then Some(roles[0])
    else
      var r := PrimerRolCliente(roles[1..]);
      if r.None? then r
      else
        var i :| EsPrimeroCliente(roles[1..], i) && roles[1..][i] == r.value;
        assert EsPrimeroCliente(roles, i + 1) && roles[i + 1] == r.value;
        r
  }

  /**
   * The role a new user gets: the one named by a non-zero `rol_id` when it exists;
   * otherwise the first role called 'Cliente' in any letter case; otherwise a new
   * 'Cliente' role with id `nuevoRolId`.
   */
  function ResolverRol(rolId: Option<int>, roles: seq<Rol>, nuevoRolId: int): (r: (Rol, bool))
    ensures !r.1 ==> r.0 in roles
    ensures rolId.Some? && rolId.value != 0 && ExisteRol(roles, rolId.value) ==> !r.1 && r.0.id == rolId.value
    ensures r.1 <==>
      !(rolId.Some? && rolId.value != 0 && ExisteRol(roles, rolId.value))
      && forall x :: x in roles ==> Lower(x.nombre) != "cliente"
    ensures r.1 ==> r.0 == Rol(nuevoRolId, "Cliente")
    ensures !(rolId.Some? && rolId.value != 0 && ExisteRol(roles, rolId.value)) && !r.1 ==>
      exists i :: EsPrimeroCliente(roles, i) && roles[i] == r.0
    ensures Lower(r.0.nombre) == "cliente" || (rolId.Some? && r.0.id == rolId.value)
  {
    if rolId.Some? && rolId.value != 0 && ExisteRol(roles, rolId.value) then (RolPorId(roles, rolId.value), false)
    else
      match PrimerRolCliente(roles)
      case Some(c) => (c, false)
      case None =>
        assert Lower("Cliente") == "cliente";
        (Rol(nuevoRolId, "Cliente"), true)
  }

  /** The document number given to a user registered without one. */
  function NumeroAutomatico(userId: nat): string {
    "AUTO-" + NatToString(userId)
  }

  /** Automatic document numbers of different users never collide. */
  lemma NumeroAutomaticoUnico(a: nat, b: nat)
    requires a != b
    ensures NumeroAutomatico(a) != NumeroAutomatico(b)
  {
    if NumeroAutomatico(a) == NumeroAutomatico(b) {
      assert NumeroAutomatico(a)[5..] == NatToString(a);
      assert NumeroAutomatico(b)[5..] == NatToString(b);
      NatToStringInjective(a, b);
    }
  }

  /** `x or ''`: a missing or empty text becomes ''. */
  function OrVacio(x: Option<string>): string {
    if x.Some? then x.value else ""
  }

  /**
   * `UserCreateSerializer.create`, past the creation of the user (whose id is `userId`):
   * the role, exactly one profile tying the user to it, and the client row with
   * document type 'CI' and number 'AUTO-<id>' when these are missing or empty, and blank
   * contact fields when absent.
   */
  function CrearUsuario(datos: DatosCliente, roles: seq<Rol>, userId: nat, nuevoRolId: int): (a: Alta)
    ensures a.perfilUserId == userId && a.perfilRolId == a.rol.id && a.cliente.userId == userId
    ensures (a.rol, a.rolCreado) == ResolverRol(datos.rolId, roles, nuevoRolId)
    ensures a.cliente.tipoDocumento ==
      (if datos.tipoDocumento.None? || datos.tipoDocumento.value == "" then "CI" else datos.tipoDocumento.value)
    ensures datos.numeroDocumento.None? || datos.numeroDocumento.value == "" ==>
      StartsWith(a.cliente.numeroDocumento, "AUTO-") && a.cliente.numeroDocumento == NumeroAutomatico(userId)
    ensures datos.numeroDocumento.Some? && datos.numeroDocumento.value != "" ==>
      a.cliente.numeroDocumento == datos.numeroDocumento.value
    ensures a.cliente.telefono == (if datos.telefono.Some? then datos.telefono.value else "")
    ensures a.cliente.direccion == (if datos.direccion.Some? then datos.direccion.value else "")
    ensures a.cliente.ocupacion == (if datos.ocupacion.Some? then datos.ocupacion.value else "")
    ensures a.cliente.fechaNacimiento == datos.fechaNacimiento
    ensures a.cliente.ingresosMensuales == datos.ingresosMensuales
  {
    var (rol, creado) := ResolverRol(datos.rolId, roles, nuevoRolId);
    var tipo := if datos.tipoDocumento.Some? && datos.tipoDocumento.value != "" then datos.tipoDocumento.value else "CI";
    var numero :=
      if datos.numeroDocumento.Some? && datos.numeroDocumento.value != "" then datos.numeroDocumento.value
      else NumeroAutomatico(userId);
    assert NumeroAutomatico(userId)[..5] == "AUTO-";
    Alta(rol, creado, userId, rol.id,
         ClienteNuevo(userId, tipo, numero, OrVacio(datos.telefono), OrVacio(datos.direccion),
                      datos.fechaNacimiento, OrVacio(datos.ocupacion), datos.ingresosMensuales))
  }

  /**
   * The client fields as `UserCreateSerializer` hands them to `validate` and `create`:
   * `rol_id` is the only one among its declared fields (serializers.py:78), so the
   * framework drops every other key of the request before either method runs.
   */
  function CamposDeclarados(entrada: DatosCliente): DatosCliente {
    DatosCliente(entrada.rolId, None, None, None, None, None, None, None)
  }

  /**
   * Registration as written: whatever client fields the request carries, validation fails
   * only on a password mismatch, and the client row gets the defaults ('CI', `AUTO-<id>`,
   * blank contact fields, no birth date or income).
   */
  lemma AltaComoEscrita(entrada: DatosCliente, password: string, password2: string,
                        documentosExistentes: set<string>, roles: seq<Rol>, userId: nat, nuevoRolId: int)
    ensures var d := CamposDeclarados(entrada);
      ValidarAltaUsuario(password, password2, d.numeroDocumento, documentosExistentes).Err? <==> password != password2
    ensures CrearUsuario(CamposDeclarados(entrada), roles, userId, nuevoRolId).cliente
      == ClienteNuevo(userId, "CI", NumeroAutomatico(userId), "", "", None, "", None)
  {
  }

  /** Registering twice without a role id reuses the 'Cliente' role created the first time. */
  lemma SegundoAltaReusaRol(roles: seq<Rol>, nuevoRolId: int, otroId: int)
    requires forall x :: x in roles ==> Lower(x.nombre) != "cliente"
    ensures ResolverRol(None, roles, nuevoRolId) == (Rol(nuevoRolId, "Cliente"), true)
    ensures ResolverRol(None, roles + [Rol(nuevoRolId, "Cliente")], otroId) == (Rol(nuevoRolId, "Cliente"), false)
  {
    assert Lower("Cliente") == "cliente";
    PrimerRolClienteAlFinal(roles, Rol(nuevoRolId, "Cliente"));
  }

  lemma {:induction false} PrimerRolClienteAlFinal(roles: seq<Rol>, r: Rol)
    requires forall x :: x in roles ==> Lower(x.nombre) != "cliente"
    requires Lower(r.nombre) == "cliente"
    ensures PrimerRolCliente(roles + [r]) == Some(r)
  {
    if |roles| > 0 {
      assert (roles + [r])[1..] == roles[1..] + [r];
      PrimerRolClienteAlFinal(roles[1..], r);
    }
  }

  // ---------------------------------------------------------------------------------
  // UserUpdateSerializer
  // ---------------------------------------------------------------------------------

  /** The editable fields of a user, as a value. */
  datatype DatosUsuario = DatosUsuario(username: string, email: string, firstName: string, lastName: string, isActive: bool)

  /** A partial update: each field absent or given. */
  datatype Cambios = Cambios(
    username: Option<string>,
    email: Option<string>,
    firstName: Option<string>,
    lastName: Option<string>,
    isActive: Option<bool>)

  /** The user after a partial update: given fields replaced, absent ones kept. */
  function Aplicar(u: DatosUsuario, c: Cambios): (v: DatosUsuario)
    ensures c.username.None? ==> v.username == u.username
    ensures c.email.None? ==> v.email == u.email
    ensures c.firstName.None? ==> v.firstName == u.firstName
    ensures c.lastName.None? ==> v.lastName == u.lastName
    ensures c.isActive.None? ==> v.isActive == u.isActive
    ensures c.username.Some? ==> v.username == c.username.value
    ensures c.email.Some? ==> v.email == c.email.value
    ensures c.firstName.Some? ==> v.firstName == c.firstName.value
    ensures c.lastName.Some? ==> v.lastName == c.lastName.value
    ensures c.isActive.Some? ==> v.isActive == c.isActive.value
  {
    DatosUsuario(c.username.GetOr(u.username), c.email.GetOr(u.email), c.firstName.GetOr(u.firstName),
                 c.lastName.GetOr(u.lastName), c.isActive.GetOr(u.isActive))
  }

  /** An update with no fields changes nothing; repeating an update changes nothing more. */
  lemma AplicarNeutroEIdempotente(u: DatosUsuario, c: Cambios)
    ensures Aplicar(u, Cambios(None, None, None, None, None)) == u
    ensures Aplicar(Aplicar(u, c), c) == Aplicar(u, c)
  {
  }

  /** A stored user that `UserUpdateSerializer.update` assigns field by field. */
  class Usuario {
    var username: string
    var email: string
    var firstName: string
    var lastName: string
    var isActive: bool

    function Datos(): DatosUsuario
      reads this
    {
      DatosUsuario(username, email, firstName, lastName, isActive)
    }

    constructor (d: DatosUsuario)
      ensures Datos() == d
    {
      username := d.username;
      email := d.email;
      firstName := d.firstName;
      lastName := d.lastName;
      isActive := d.isActive;
    }

    /** `UserUpdateSerializer.update`. */
    method Update(c: Cambios)
      modifies this
      ensures Datos() == Aplicar(old(Datos()), c)
    {
      username := c.username.GetOr(username);
      email := c.email.GetOr(email);
      firstName := c.firstName.GetOr(firstName);
      lastName := c.lastName.GetOr(lastName);
      isActive := c.isActive.GetOr(isActive);
    }
  }

  // ---------------------------------------------------------------------------------
  // SolicitudCreateSerializer
  // ---------------------------------------------------------------------------------

  /** The attributes of a new credit request that validation reads. */
  datatype AtributosSolicitud = AtributosSolicitud(
    monto: real,
    plazoMeses: int,
    producto: Option<int>,
    tipoTrabajador: Option<string>)

  /**
   * `SolicitudCreateSerializer.validate`: the first failing check is reported, in the
   * order amount, term, product, worker type; with none failing the attributes pass
   * through unchanged.
   */
  function ValidarSolicitud(a: AtributosSolicitud): (r: Result<AtributosSolicitud, ErrorValidacion>)
    ensures r.Ok? <==>
      a.monto > 0.0 && a.plazoMeses >= 1 && a.producto.Some? && a.tipoTrabajador.Some? && a.tipoTrabajador.value != ""
    ensures r.Ok? ==> r.value == a
    ensures a.monto <= 0.0 ==> r.Err? && r.error.campo == "monto"
    ensures a.monto > 0.0 && a.plazoMeses < 1 ==> r.Err? && r.error.campo == "plazo_meses"
    ensures a.monto > 0.0 && a.plazoMeses >= 1 && a.producto.None? ==> r.Err? && r.error.campo == "producto"
    ensures a.monto > 0.0 && a.plazoMeses >= 1 && a.producto.Some? && (a.tipoTrabajador.None? || a.tipoTrabajador.value == "") ==>
      r.Err? && r.error.campo == "tipo_trabajador"
  {
    if a.monto <= 0.0 then Err(ErrorValidacion("monto", "Debe ser > 0"))
    else if a.plazoMeses < 1 then Err(ErrorValidacion("plazo_meses", "Debe ser >= 1"))
    else if a.producto.None? then Err(ErrorValidacion("producto", "Requerido"))
    else if a.tipoTrabajador.None? || a.tipoTrabajador.value == "" then Err(ErrorValidacion("tipo_trabajador", "Requerido"))
    else Ok(a)
  }

  // ---------------------------------------------------------------------------------
  // RequisitoProductoDocumentoWriteSerializer
  // ---------------------------------------------------------------------------------

  /** A stored requirement row: its key is (producto, tipo_trabajador, documento). */
  datatype FilaRequisito = FilaRequisito(id: int, producto: int, tipoTrabajador: string, documento: int)

  /** Another row than `instancia` already holds this key. */
  predicate Duplicado(filas: seq<FilaRequisito>, producto: int, tipo: string, documento: int, instancia: Option<FilaRequisito>) {
    exists i :: 0 <= i < |filas| && filas[i].producto == producto && filas[i].tipoTrabajador == tipo
      && filas[i].documento == documento && (instancia.None? || filas[i].id != instancia.value.id)
  }

  /** The key a write resolves: each part from the input, else from the instance being updated. */
  datatype Clave = Clave(producto: Option<int>, tipo: Option<string>, documento: Option<int>) {
    predicate Completa() {
      producto.Some? && tipo.Some? && tipo.value != "" && documento.Some?
    }
  }

  function ResolverClave(producto: Option<int>, tipo: Option<string>, documento: Option<int>,
                         instancia: Option<FilaRequisito>): (k: Clave)
    ensures producto.Some? ==> k.producto == producto
    ensures tipo.Some? && tipo.value != "" ==> k.tipo == tipo
    ensures documento.Some? ==> k.documento == documento
    ensures instancia.None? ==> k == Clave(producto, if tipo.Some? && tipo.value != "" then tipo else None, documento)
    ensures instancia.Some? ==> k.Completa() || (k.tipo.Some? && k.tipo.value == "")
  {
    Clave(
      if producto.Some? then producto else if instancia.Some? then Some(instancia.value.producto) else None,
      if tipo.Some? && tipo.value != "" then tipo else if instancia.Some? then Some(instancia.value.tipoTrabajador) else None,
      if documento.Some? then documento else if instancia.Some? then Some(instancia.value.documento) else None)
  }

  /**
   * `RequisitoProductoDocumentoWriteSerializer.validate`: when all three parts of the
   * resolved key are known, another row with the same key is an error. The instance
   * itself never counts as a duplicate.
   */
  function ValidarRequisito(producto: Option<int>, tipo: Option<string>, documento: Option<int>,
                            instancia: Option<FilaRequisito>, filas: seq<FilaRequisito>)
    : (r: Result<(), ErrorValidacion>)
    ensures var k := ResolverClave(producto, tipo, documento, instancia);
      r.Err? <==> k.Completa() && Duplicado(filas, k.producto.value, k.tipo.value, k.documento.value, instancia)
    ensures r.Err? ==> r.error.campo == "non_field_errors"
  {
    var k := ResolverClave(producto, tipo, documento, instancia);
    if k.Completa() && Duplicado(filas, k.producto.value, k.tipo.value, k.documento.value, instancia)
    then Err(ErrorValidacion("non_field_errors", "Ya existe este documento para ese producto y tipo de trabajador."))
    else Ok(())
  }

  /** Stored rows have distinct ids and distinct keys. */
  predicate ClavesUnicas(filas: seq<FilaRequisito>) {
    forall i, j :: 0 <= i < |filas| && 0 <= j < |filas| && i != j ==>
      filas[i].id != filas[j].id &&
      (filas[i].producto, filas[i].tipoTrabajador, filas[i].documento) != (filas[j].producto, filas[j].tipoTrabajador, filas[j].documento)
  }

  /** Re-saving a stored row without touching its key is never rejected as a duplicate of itself. */
  lemma ResguardarSinCambios(filas: seq<FilaRequisito>, k: int)
    requires ClavesUnicas(filas) && 0 <= k < |filas|
    ensures ValidarRequisito(None, None, None, Some(filas[k]), filas).Ok?
  {
  }

  // ---------------------------------------------------------------------------------
  // SolicitudDetailSerializer.get_cliente_panel
  // ---------------------------------------------------------------------------------

  /** The user fields the panel reads. */
  datatype UsuarioPanel = UsuarioPanel(firstName: string, lastName: string, username: string, email: string)

  /** The client fields the panel reads. */
  datatype ClientePanelDatos = ClientePanelDatos(
    id: nat,
    tipoDocumento: string,
    numeroDocumento: string,
    telefono: string,
    direccion: string,
    ocupacion: string,
    ingresosMensuales: Option<int>,
    esClientePreferencial: bool)

  /** The `cliente_panel` object. */
  datatype Panel = Panel(
    nombre: string,
    usuario: string,
    email: string,
    documento: Option<string>,
    telefono: string,
    direccion: string,
    ocupacion: string,
    ingresos: Option<int>,
    preferencial: bool)

  /**
   * `get_cliente_panel`: the name is the stripped (Python white space) "first last", else the username, else
   * "Cliente #<id>"; the document is "tipo numero" when there is a number.
   */
  function ClientePanel(u: UsuarioPanel, c: ClientePanelDatos): (p: Panel)
    ensures p.nombre != ""
    ensures Strip(u.firstName + " " + u.lastName) != "" ==> p.nombre == Strip(u.firstName + " " + u.lastName)
    ensures Strip(u.firstName + " " + u.lastName) == "" && u.username != "" ==> p.nombre == u.username
    ensures Strip(u.firstName + " " + u.lastName) == "" && u.username == "" ==>
      p.nombre == "Cliente #" + NatToString(c.id)
    ensures p.documento.None? <==> c.numeroDocumento == ""
    ensures p.documento.Some? ==> p.documento.value == c.tipoDocumento + " " + c.numeroDocumento
    ensures p.usuario == u.username && p.email == u.email && p.preferencial == c.esClientePreferencial
    ensures p.telefono == c.telefono && p.direccion == c.direccion && p.ocupacion == c.ocupacion
    ensures p.ingresos == c.ingresosMensuales
  {
    var completo := Strip(u.firstName + " " + u.lastName);
    var nombre := if completo != "" then completo else if u.username != "" then u.username else "Cliente #" + NatToString(c.id);
    var documento := if c.numeroDocumento != "" then Some(c.tipoDocumento + " " + c.numeroDocumento) else None;
    Panel(nombre, u.username, u.email, documento, c.telefono, c.direccion, c.ocupacion, c.ingresosMensuales, c.esClientePreferencial)
  }

  /** A user with only blanks for a name falls through to the username. */
  lemma NombreEnBlanco(u: UsuarioPanel, c: ClientePanelDatos)
    requires forall i :: 0 <= i < |u.firstName| ==> IsPySpace(u.firstName[i])
    requires forall i :: 0 <= i < |u.lastName| ==> IsPySpace(u.lastName[i])
    requires u.username != ""
    ensures ClientePanel(u, c).nombre == u.username
  {
    var s := u.firstName + " " + u.lastName;
    assert forall i :: 0 <= i < |s| ==> IsPySpace(s[i]) by {
      forall i | 0 <= i < |s| ensures IsPySpace(s[i]) {
        if i < |u.firstName| {
          assert s[i] == u.firstName[i];
        } else if i > |u.firstName| {
          assert s[i] == u.lastName[i - |u.firstName| - 1];
        }
      }
    }
  }
}
