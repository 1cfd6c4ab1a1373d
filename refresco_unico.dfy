/**
 * The single-flight token refresh both HTTP gateways implement with a module-level
 * `refreshingPromise` slot: a 401 that qualifies for a refresh starts one when the slot
 * is empty and joins the pending one otherwise; the slot is emptied when the refresh
 * settles, whether it succeeded or failed. Concurrency is replaced by a sequential trace
 * of the events that reach the slot.
 */
module RefrescoUnico {
  import opened Wrappers

  /** The slot (is a refresh in flight?) and how many refresh requests have been sent. */
  datatype Slot = Slot(enVuelo: bool, llamadas: nat)

  /** What reaches the slot: a failed request (qualifying for a refresh or not), or the refresh settling. */
  datatype Evento = Fallo(elegible: bool) | Asentar

  /** The body of the refresh call as it arrives: the request failed, or `data.access` (missing when absent). */
  datatype Respuesta = Fallida | Datos(access: Option<string>)

  /** What the error handler does with a failed request. */
  datatype Decision = Relanzar | Iniciar | Unirse

  /** The handler's choice: rethrow, start a refresh in an empty slot, or join the one in flight. */
  function Decidir(s: Slot, elegible: bool): (d: Decision)
    ensures d == Iniciar <==> elegible && !s.enVuelo
    ensures d == Unirse <==> elegible && s.enVuelo
    ensures d == Relanzar <==> !elegible
  {
    if !elegible then Relanzar else if s.enVuelo then Unirse else Iniciar
  }

  /** The slot after one event. */
  function Paso(s: Slot, ev: Evento): (t: Slot)
    ensures ev.Asentar? ==> !t.enVuelo && t.llamadas == s.llamadas
    ensures ev.Fallo? ==> t.enVuelo == (s.enVuelo || ev.elegible)
    ensures ev.Fallo? ==> t.llamadas == s.llamadas + (if Decidir(s, ev.elegible) == Iniciar then 1 else 0)
  {
    match ev
    case Asentar => Slot(false, s.llamadas)
    case Fallo(e) => if e && !s.enVuelo then Slot(true, s.llamadas + 1) else s
  }

  /** The slot after a whole trace. */
  function Ejecutar(s: Slot, evs: seq<Evento>): Slot
    decreases |evs|
  {
    if |evs| == 0 then s else Ejecutar(Paso(s, evs[0]), evs[1..])
  }

  function Asentamientos(evs: seq<Evento>): nat
    decreases |evs|
  {
    if |evs| == 0 then 0 else (if evs[0].Asentar? then 1 else 0) + Asentamientos(evs[1..])
  }

  predicate HayElegible(evs: seq<Evento>) {
    exists i :: 0 <= i < |evs| && evs[i] == Fallo(true)
  }

  /**
   * At most one refresh is in flight: between two settlements at most one refresh request
   * is sent, so a trace sends no more requests than it has settlements, plus one when it
   * starts with an empty slot.
   */
  lemma {:induction false} CotaDeLlamadas(s: Slot, evs: seq<Evento>)
    ensures Ejecutar(s, evs).llamadas <= s.llamadas + Asentamientos(evs) + (if s.enVuelo then 0 else 1)
    decreases |evs|
  {
    if |evs| > 0 {
      CotaDeLlamadas(Paso(s, evs[0]), evs[1..]);
    }
  }

  /**
   * Any number of concurrent 401s with no settlement in between share one refresh: exactly
   * one request is sent if some of them qualifies, none otherwise.
   */
  lemma {:induction false} RafagaSinAsentar(s: Slot, evs: seq<Evento>)
    requires !s.enVuelo
    requires forall i :: 0 <= i < |evs| ==> evs[i].Fallo?
    ensures Ejecutar(s, evs).llamadas == s.llamadas + (if HayElegible(evs) then 1 else 0)
    ensures Ejecutar(s, evs).enVuelo <==> HayElegible(evs)
    decreases |evs|
  {
    if |evs| > 0 {
      if evs[0] == Fallo(true) {
        EnVueloSeMantiene(Paso(s, evs[0]), evs[1..]);
      } else {
        RafagaSinAsentar(Paso(s, evs[0]), evs[1..]);
        if HayElegible(evs) {
          var i :| 0 <= i < |evs| && evs[i] == Fallo(true);
          assert evs[1..][i - 1] == Fallo(true);
        }
        if HayElegible(evs[1..]) {
          var i :| 0 <= i < |evs[1..]| && evs[1..][i] == Fallo(true);
          assert evs[i + 1] == Fallo(true);
        }
      }
    }
  }

  /** While a refresh is in flight, failures only join it. */
  lemma {:induction false} EnVueloSeMantiene(s: Slot, evs: seq<Evento>)
    requires s.enVuelo
    requires forall i :: 0 <= i < |evs| ==> evs[i].Fallo?
    ensures Ejecutar(s, evs) == s
    decreases |evs|
  {
    if |evs| > 0 {
      EnVueloSeMantiene(Paso(s, evs[0]), evs[1..]);
    }
  }
}
