/** The base capability set of an application state
    (BenchmarkPlotter/src/States/State.cpp) and the behaviour of the two
    concrete states. A state's response to each per-cycle operation is
    modelled as data: whether it lets the layer below also receive the
    operation, and which stack requests it issues while handling it. */
module State {

  import opened StateIds

  /** The four per-cycle operations a stack dispatches with transparency. */
  datatype Operation = HandleEvent | Update | FixedUpdate | UpdateImGui

  /** A call a state makes on its stack from inside a callback. */
  datatype Request = PushRequest(id: StateId) | PopRequest | ClearRequest

  /** What one callback does: its boolean return value and the requests it issues, in order. */
  datatype Reaction = Reaction(transparent: bool, requests: seq<Request>)

  datatype Behaviour = Behaviour(
    handleEvent: Reaction,
    update: Reaction,
    fixedUpdate: Reaction,
    updateImGui: Reaction)

  function React(b: Behaviour, op: Operation): Reaction
  {
    match op
    case HandleEvent => b.handleEvent
    case Update => b.update
    case FixedUpdate => b.fixedUpdate
    case UpdateImGui => b.updateImGui
  }

  /** True when the state lets the layer below receive `op` too. */
  predicate Transparent(b: Behaviour, op: Operation)
  {
    React(b, op).transparent
  }

  /** A callback that returns true and touches nothing. */
  const Inert: Reaction := Reaction(true, [])

  /** The base class: every callback is transparent and inert. */
  const DefaultBehaviour: Behaviour := Behaviour(Inert, Inert, Inert, Inert)

  /** MainAppOpen overrides all four callbacks, each returning true. */
  const MainAppOpenBehaviour: Behaviour := Behaviour(Inert, Inert, Inert, Inert)

  /** ExitApplicationState overrides nothing. */
  const ExitApplicationBehaviour: Behaviour := DefaultBehaviour

  /** The two concrete states behave alike: a state built as one cannot be
      told from one built as the other by its callbacks. */
  lemma MainAppOpenBehavesAsExit()
    ensures MainAppOpenBehaviour == ExitApplicationBehaviour
    ensures forall op :: React(MainAppOpenBehaviour, op) == React(ExitApplicationBehaviour, op)
  {
  }

  /** The default handleEvent, update, fixedUpdate and updateImGui all return
      true and issue no request. */
  lemma DefaultIsTransparent(op: Operation)
    ensures Transparent(DefaultBehaviour, op)
    ensures React(DefaultBehaviour, op).requests == []
  {
  }

}
