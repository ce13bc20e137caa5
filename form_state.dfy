/** The report-submission wizard: a State-pattern object with six state classes. A
    `FormContext` forwards each of four events to its current state object, whose handler
    either ignores the event or builds the next state object and hands it to
    `context.setState`. */
module FormState {
  import opened Common

  datatype StateKind = Inicial | UbicacionConfirmada | ArchivosSeleccionados | Enviando | Completado | Error

  datatype Event = ConfirmarUbicacion | SeleccionarArchivos | Enviar | Reset

  /** What the handler of event `e` in a state object of kind `k` does: `Some(k')` when it
      builds a `k'` state object and calls `setState` with it, `None` when it only logs. */
  function Handler(k: StateKind, e: Event): (r: Option<StateKind>)
    ensures r.Some? ==> r.value != k
    ensures r.Some? ==> r.value != Completado && r.value != Error
    ensures e == Reset ==> (r.Some? <==> k != Inicial)
  {
    match k
    case Inicial =>
      if e == ConfirmarUbicacion then Some(UbicacionConfirmada) else None
    case UbicacionConfirmada =>
      (match e
       case ConfirmarUbicacion => None
       case SeleccionarArchivos => Some(ArchivosSeleccionados)
       case Enviar => Some(Enviando)
       case Reset => Some(Inicial))
    case ArchivosSeleccionados =>
      (match e
       case ConfirmarUbicacion => None
       case SeleccionarArchivos => None
       case Enviar => Some(Enviando)
       case Reset => Some(Inicial))
    case Enviando =>
      if e == Reset then Some(Inicial) else None
    case Completado =>
      (match e
       case ConfirmarUbicacion => Some(UbicacionConfirmada)
       case SeleccionarArchivos => Some(ArchivosSeleccionados)
       case Enviar => None
       case Reset => Some(Inicial))
    case Error =>
      (match e
       case ConfirmarUbicacion => Some(UbicacionConfirmada)
       case SeleccionarArchivos => Some(ArchivosSeleccionados)
       case Enviar => None
       case Reset => Some(Inicial))
  }

  /** The kind of the current state after the event, when the context is well formed. */
  function Next(k: StateKind, e: Event): (r: StateKind)
    ensures e == Reset ==> r == Inicial
    ensures (r == Completado || r == Error) ==> r == k
    ensures r == Enviando ==> k == Enviando || (e == Enviar && (k == UbicacionConfirmada || k == ArchivosSeleccionados))
  {
    match Handler(k, e)
    case Some(k') => k'
    case None => k
  }

  /** The kind reached from `k` by dispatching `es` in order. */
  function Run(k: StateKind, es: seq<Event>): StateKind
    decreases |es|
  {
    if es == [] then k else Run(Next(k, es[0]), es[1..])
  }

  lemma InicialTransitions()
    ensures Next(Inicial, ConfirmarUbicacion) == UbicacionConfirmada
    ensures Next(Inicial, SeleccionarArchivos) == Inicial
    ensures Next(Inicial, Enviar) == Inicial
    ensures Next(Inicial, Reset) == Inicial
    ensures Handler(Inicial, Reset) == None
  {
  }

  lemma UbicacionConfirmadaTransitions()
    ensures Next(UbicacionConfirmada, ConfirmarUbicacion) == UbicacionConfirmada
    ensures Next(UbicacionConfirmada, SeleccionarArchivos) == ArchivosSeleccionados
    ensures Next(UbicacionConfirmada, Enviar) == Enviando
  {
  }

  lemma ArchivosSeleccionadosTransitions()
    ensures Next(ArchivosSeleccionados, ConfirmarUbicacion) == ArchivosSeleccionados
    ensures Next(ArchivosSeleccionados, SeleccionarArchivos) == ArchivosSeleccionados
    ensures Next(ArchivosSeleccionados, Enviar) == Enviando
  {
  }

  lemma EnviandoTransitions()
    ensures forall e :: e != Reset ==> Next(Enviando, e) == Enviando
  {
  }

  /** Completado and Error behave alike: back into the flow on location or files, deaf to enviar. */
  lemma CompletadoErrorTransitions(k: StateKind)
    requires k == Completado || k == Error
    ensures Next(k, ConfirmarUbicacion) == UbicacionConfirmada
    ensures Next(k, SeleccionarArchivos) == ArchivosSeleccionados
    ensures Next(k, Enviar) == k
  {
  }

  /** Completado and Error are never entered by a run: they are only ever a constructor's initial state. */
  lemma {:induction false} RunNeverEntersTerminal(k: StateKind, es: seq<Event>)
    requires k != Completado && k != Error
    ensures Run(k, es) != Completado && Run(k, es) != Error
    decreases |es|
  {
    if es != [] {
      RunNeverEntersTerminal(Next(k, es[0]), es[1..]);
    }
  }

  /** Leaving a non-Enviando state for Enviando takes an `enviar` event. */
  lemma {:induction false} EnviandoNeedsEnviar(k: StateKind, es: seq<Event>)
    requires k != Enviando
    requires Run(k, es) == Enviando
    ensures Enviar in es
    decreases |es|
  {
    if es[0] != Enviar {
      EnviandoNeedsEnviar(Next(k, es[0]), es[1..]);
      assert es == [es[0]] + es[1..];
    }
  }

  /** Enviando is reachable from Inicial only through a confirmarUbicacion followed, later, by an enviar. */
  lemma {:induction false} EnviandoNeedsConfirmation(es: seq<Event>)
    requires Run(Inicial, es) == Enviando
    ensures exists i :: 0 <= i < |es| && es[i] == ConfirmarUbicacion && Enviar in es[i + 1..]
    decreases |es|
  {
    if es[0] == ConfirmarUbicacion {
      EnviandoNeedsEnviar(UbicacionConfirmada, es[1..]);
      assert es[0 + 1..] == es[1..];
    } else {
      EnviandoNeedsConfirmation(es[1..]);
      var i :| 0 <= i < |es[1..]| && es[1..][i] == ConfirmarUbicacion && Enviar in es[1..][i + 1..];
      assert es[i + 1] == ConfirmarUbicacion && es[i + 1 + 1..] == es[1..][i + 1..];
    }
  }

  /** The shortest route to Enviando: confirm the location, then send. */
  lemma ConfirmThenSend()
    ensures Run(Inicial, [ConfirmarUbicacion, Enviar]) == Enviando
    ensures Run(Inicial, [ConfirmarUbicacion, SeleccionarArchivos, Enviar]) == Enviando
  {
  }

  /** A state object: its kind stands for its class, `context` for its back-reference. */
  class StateObject {
    const kind: StateKind
    var context: FormContext?

    constructor (kind: StateKind, context: FormContext?)
      ensures this.kind == kind && this.context == context
    {
      this.kind := kind;
      this.context := context;
    }
  }

  class FormContext {
    var state: StateObject

    /** The back-reference of the current state object points at this context. */
    ghost predicate Valid()
      reads this, state
    {
      state.context == this
    }

    constructor (initialState: StateObject)
      ensures state == initialState
    {
      state := initialState;
    }

    method SetState(newState: StateObject)
      modifies this, newState
      ensures state == newState && newState.context == this
    {
      state := newState;
      state.context := this;
    }

    /** One of `confirmarUbicacion`, `seleccionarArchivos`, `enviar`, `reset`: forwards the
        event to the current state object, whose handler runs
        `this.context.setState(new K(this.context))` when the table says so. The context it
        changes is the state object's back-reference, which is this context when Valid().
        A handler that fires on a state object with no context reads `setState` of
        `null`/`undefined` and throws a TypeError (`threw`), changing nothing. */
    method Dispatch(e: Event) returns (threw: bool)
      modifies if state.context == null then {} else {state.context}
      ensures threw <==> Handler(old(state.kind), e).Some? && old(state.context) == null
      ensures Handler(old(state.kind), e).None? || threw ==> state == old(state)
      ensures Handler(old(state.kind), e).Some? && !threw ==>
        var ctx := old(state.context);
        ctx != null && fresh(ctx.state) && ctx.state.kind == Handler(old(state.kind), e).value && ctx.state.context == ctx
      ensures old(state.context) != this ==> state == old(state)
      ensures old(state.context) == this ==> Valid() && state.kind == Next(old(state.kind), e)
    {
      threw := false;
      match Handler(state.kind, e)
      case None =>
      case Some(k) =>
        var ctx := state.context;
        if ctx == null {
          threw := true;
        } else {
          var next := new StateObject(k, ctx);
          ctx.SetState(next);
        }
    }
  }
}
