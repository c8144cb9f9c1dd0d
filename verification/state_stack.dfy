/** The layered state stack (BPlotter/src/States/StateStack.hpp): an ordered
    sequence of (identifier, state) entries, a FIFO queue of pending changes,
    and a factory registry keyed by identifier. Push, pop and clear only
    enqueue; the entries change when the queue is applied. */
module StateStack {

  import opened StateIds
  import opened State
  import opened Outcomes

  /** The actions that may be queued against the stack: the source's Push, Pop
      and Clear, renamed so they do not clash with the functions Push, Pop and
      Clear below. */
  datatype Perform = PushOp | PopOp | ClearOp

  /** A pending change. Only a Push reads its identifier; a Pop or Clear
      carries the value-initialised identifier None. */
  datatype Change = Change(operation: Perform, stateId: StateId)

  /** One layer: the identifier it was pushed under and the state built for it. */
  datatype StateEntry = StateEntry(id: StateId, state: Behaviour)

  /** The factory registry: what a push of each registered identifier builds. */
  type Factory = map<StateId, Behaviour>

  /** `entries[0]` is the bottom layer, the last entry the top. */
  datatype Stack = Stack(entries: seq<StateEntry>, queue: seq<Change>, factory: Factory)

  /** The misuses the header leaves open, reported as errors when a change is
      applied: a push of an id never saved, and a pop on an empty stack, which
      the header calls unpredictable behaviour. */
  datatype StackError = UnregisteredState(id: StateId) | PopOnEmptyStack

  /** A default-constructed stack. */
  const EmptyStack: Stack := Stack([], [], map[])

  // ==== Registration ==== //

  /** Registers what a later push of `id` builds; nothing is built now and a
      previous registration of `id` is replaced. */
  function SaveState(s: Stack, id: StateId, b: Behaviour): (r: Stack)
    ensures r.entries == s.entries && r.queue == s.queue
    ensures r.factory.Keys == s.factory.Keys + {id}
    ensures id in r.factory && r.factory[id] == b
    ensures forall k :: k in s.factory && k != id ==> r.factory[k] == s.factory[k]
  {
    s.(factory := s.factory[id := b])
  }

  // ==== Queued operations ==== //

  function Enqueue(s: Stack, c: Change): (r: Stack)
    ensures r.entries == s.entries && r.factory == s.factory
    ensures |r.queue| == |s.queue| + 1
    ensures r.queue[..|s.queue|] == s.queue && r.queue[|s.queue|] == c
  {
    s.(queue := s.queue + [c])
  }

  function Push(s: Stack, id: StateId): (r: Stack)
    ensures r.entries == s.entries && r.factory == s.factory
    ensures r.queue == s.queue + [Change(Perform.PushOp, id)]
  {
    Enqueue(s, Change(Perform.PushOp, id))
  }

  function Pop(s: Stack): (r: Stack)
    ensures r.entries == s.entries && r.factory == s.factory
    ensures r.queue == s.queue + [Change(Perform.PopOp, None)]
  {
    Enqueue(s, Change(Perform.PopOp, None))
  }

  function Clear(s: Stack): (r: Stack)
    ensures r.entries == s.entries && r.factory == s.factory
    ensures r.queue == s.queue + [Change(Perform.ClearOp, None)]
  {
    Enqueue(s, Change(Perform.ClearOp, None))
  }

  /** Empties the stack at once, without going through the queue. The
      pending queue and the registry are kept. */
  function ForceInstantClear(s: Stack): (r: Stack)
    ensures Empty(r)
    ensures r.queue == s.queue && r.factory == s.factory
  {
    s.(entries := [])
  }

  // ==== Queries on the applied content ==== //

  /** No layer remains: every dispatch reaches nothing. */
  predicate Empty(s: Stack)
    ensures forall op :: Empty(s) <==> Walk(s.entries, op) == []
  {
    |s.entries| == 0
  }

  /** The identifier of the top layer; the header does not say what an empty
      stack gives, so a non-empty one is required. The top layer is the one
      every dispatch reaches first. */
  function Top(s: Stack): (id: StateId)
    requires !Empty(s)
    ensures forall op :: |Walk(s.entries, op)| > 0 && s.entries[Walk(s.entries, op)[0]].id == id
  {
    s.entries[|s.entries| - 1].id
  }

  // ==== Applying queued changes ==== //

  /** The effect of one change on the entries. */
  function ApplyChange(entries: seq<StateEntry>, factory: Factory, c: Change): (r: Result<seq<StateEntry>, StackError>)
    ensures c.operation == Perform.PushOp ==>
      (r.Success? <==> c.stateId in factory)
      && (r.Failure? ==> r.error == UnregisteredState(c.stateId))
    ensures c.operation == Perform.PushOp && r.Success? ==>
      |r.value| == |entries| + 1
      && r.value[..|entries|] == entries
      && r.value[|entries|] == StateEntry(c.stateId, factory[c.stateId])
    ensures c.operation == Perform.PopOp ==>
      (r.Success? <==> |entries| > 0)
      && (r.Failure? ==> r.error == PopOnEmptyStack)
    ensures c.operation == Perform.PopOp && r.Success? ==>
      |r.value| == |entries| - 1
      && forall i :: 0 <= i < |r.value| ==> r.value[i] == entries[i]
    ensures c.operation == Perform.ClearOp ==> r.Success? && r.value == []
  {
    match c.operation
    case PushOp =>
      if c.stateId in factory then Success(entries + [StateEntry(c.stateId, factory[c.stateId])])
      else Failure(UnregisteredState(c.stateId))
    case PopOp =>
      if |entries| > 0 then Success(entries[..|entries| - 1]) else Failure(PopOnEmptyStack)
    case ClearOp =>
      Success([])
  }

  /** Reference semantics of a queue: its changes applied to `entries` in
      FIFO order, stopping at the first change that fails. */
  function Replay(entries: seq<StateEntry>, factory: Factory, changes: seq<Change>): Result<seq<StateEntry>, StackError>
    decreases |changes|
  {
    if |changes| == 0 then Success(entries)
    else
      match ApplyChange(entries, factory, changes[0])
      case Failure(e) => Failure(e)
      case Success(next) => Replay(next, factory, changes[1..])
  }

  /** The stack once every queued change has been applied. */
  function Applied(s: Stack): (r: Result<Stack, StackError>)
    ensures r.Success? ==> r.value.queue == [] && r.value.factory == s.factory
    ensures r.Success? <==> Replay(s.entries, s.factory, s.queue).Success?
  {
    match Replay(s.entries, s.factory, s.queue)
    case Failure(e) => Failure(e)
    case Success(entries) => Success(Stack(entries, [], s.factory))
  }

  /** Drains the queue front to back, as the stack's applyChanges does. */
  method ApplyChanges(s: Stack) returns (r: Result<Stack, StackError>)
    ensures r == Applied(s)
    ensures r.Success? ==> r.value.queue == [] && r.value.factory == s.factory
  {
    var entries := s.entries;
    var i := 0;
    while i < |s.queue|
      invariant 0 <= i <= |s.queue|
      invariant Replay(entries, s.factory, s.queue[i..]) == Replay(s.entries, s.factory, s.queue)
    {
      assert s.queue[i..][1..] == s.queue[i + 1..];
      match ApplyChange(entries, s.factory, s.queue[i]) {
        case Failure(e) =>
          return Failure(e);
        case Success(next) =>
          entries := next;
      }
      i := i + 1;
    }
    r := Success(Stack(entries, [], s.factory));
  }

  /** FIFO: applying a + b is applying a, then b to the result. */
  lemma {:induction false} ReplayAppend(entries: seq<StateEntry>, factory: Factory, a: seq<Change>, b: seq<Change>)
    ensures Replay(entries, factory, a + b) ==
      match Replay(entries, factory, a)
      case Failure(e) => Failure(e)
      case Success(mid) => Replay(mid, factory, b)
    decreases |a|
  {
    if |a| == 0 {
      assert a + b == b;
    } else {
      assert (a + b)[0] == a[0];
      assert (a + b)[1..] == a[1..] + b;
      match ApplyChange(entries, factory, a[0]) {
        case Failure(e) =>
        case Success(next) =>
          ReplayAppend(next, factory, a[1..], b);
      }
    }
  }

  /** Everything queued before a Clear is forgotten once it is applied,
      provided the earlier changes themselves succeed. */
  lemma ClearResets(entries: seq<StateEntry>, factory: Factory, a: seq<Change>, b: seq<Change>, id: StateId)
    requires Replay(entries, factory, a).Success?
    ensures Replay(entries, factory, a + [Change(Perform.ClearOp, id)] + b) == Replay([], factory, b)
  {
    ReplayAppend(entries, factory, a, [Change(Perform.ClearOp, id)] + b);
    assert a + [Change(Perform.ClearOp, id)] + b == a + ([Change(Perform.ClearOp, id)] + b);
    var c := [Change(Perform.ClearOp, id)] + b;
    assert c[1..] == b;
  }

  /** The entries a run of registered pushes appends, bottom to top. */
  function PushedEntries(factory: Factory, changes: seq<Change>): seq<StateEntry>
    requires forall i :: 0 <= i < |changes| ==> changes[i].stateId in factory
  {
    seq(|changes|, i requires 0 <= i < |changes| => StateEntry(changes[i].stateId, factory[changes[i].stateId]))
  }

  /** A queue of pushes of registered identifiers stacks one entry per push,
      in queue order, on top of the existing entries. */
  lemma {:induction false} ReplayPushes(entries: seq<StateEntry>, factory: Factory, changes: seq<Change>)
    requires forall i :: 0 <= i < |changes| ==> changes[i].operation == Perform.PushOp && changes[i].stateId in factory
    ensures Replay(entries, factory, changes) == Success(entries + PushedEntries(factory, changes))
    decreases |changes|
  {
    if |changes| == 0 {
      assert entries + PushedEntries(factory, changes) == entries;
    } else {
      var next := entries + [StateEntry(changes[0].stateId, factory[changes[0].stateId])];
      assert ApplyChange(entries, factory, changes[0]) == Success(next);
      ReplayPushes(next, factory, changes[1..]);
      assert next + PushedEntries(factory, changes[1..]) == entries + PushedEntries(factory, changes);
    }
  }

  /** A push queued behind everything else is applied last: if the earlier
      queue succeeds, the result gains exactly one top entry built by the
      factory; otherwise the earlier failure is reported. */
  lemma PushAppliedLast(s: Stack, id: StateId)
    ensures Applied(s).Failure? ==> Applied(Push(s, id)) == Applied(s)
    ensures Applied(s).Success? && id !in s.factory ==> Applied(Push(s, id)) == Failure(UnregisteredState(id))
    ensures Applied(s).Success? && id in s.factory ==>
      Applied(Push(s, id)).Success?
      && Applied(Push(s, id)).value.entries == Applied(s).value.entries + [StateEntry(id, s.factory[id])]
  {
    ReplayAppend(s.entries, s.factory, s.queue, [Change(Perform.PushOp, id)]);
  }

  /** A pop queued behind everything else removes exactly the top entry of
      the stack the earlier queue produced. */
  lemma PopAppliedLast(s: Stack)
    ensures Applied(s).Success? && |Applied(s).value.entries| > 0 ==>
      Applied(Pop(s)).Success?
      && Applied(Pop(s)).value.entries == Applied(s).value.entries[..|Applied(s).value.entries| - 1]
    ensures Applied(s).Success? && |Applied(s).value.entries| == 0 ==> Applied(Pop(s)) == Failure(PopOnEmptyStack)
  {
    ReplayAppend(s.entries, s.factory, s.queue, [Change(Perform.PopOp, None)]);
  }

  /** Queued requests are invisible to the queries until the queue is applied. */
  lemma QueuedChangesInvisible(s: Stack, id: StateId)
    ensures Empty(Push(s, id)) == Empty(s) && Empty(Pop(s)) == Empty(s) && Empty(Clear(s)) == Empty(s)
    ensures !Empty(s) ==> Top(Push(s, id)) == Top(s) && Top(Pop(s)) == Top(s) && Top(Clear(s)) == Top(s)
  {
  }

  /** Applying a lone registered push: the stack is one longer, the pushed
      identifier is on top with the state its factory builds, and the layers
      below are intact. */
  lemma PushThenApply(s: Stack, id: StateId)
    requires s.queue == [] && id in s.factory
    ensures Applied(Push(s, id)).Success?
    ensures Applied(Push(s, id)).value.entries == s.entries + [StateEntry(id, s.factory[id])]
    ensures !Empty(Applied(Push(s, id)).value) && Top(Applied(Push(s, id)).value) == id
  {
    var c := Change(Perform.PushOp, id);
    assert Push(s, id).queue == [c];
    assert Replay(s.entries, s.factory, [c]) == Success(s.entries + [StateEntry(id, s.factory[id])]) by {
      assert [c][1..] == [];
    }
  }

  /** A queued clear, once applied, leaves no entries. */
  lemma ClearThenApply(s: Stack)
    requires Replay(s.entries, s.factory, s.queue).Success?
    ensures Applied(Clear(s)).Success? && Empty(Applied(Clear(s)).value)
  {
    ClearResets(s.entries, s.factory, s.queue, [], None);
    assert Clear(s).queue == s.queue + [Change(Perform.ClearOp, None)] + [];
  }

  /** A force-cleared stack later replays its pending queue on an empty base. */
  lemma ForceInstantClearKeepsQueue(s: Stack)
    ensures Applied(ForceInstantClear(s)) == Applied(Stack([], s.queue, s.factory))
  {
  }

  // ==== Issuing requests from inside a callback ==== //

  /** The queued call a request amounts to. */
  function Issue(s: Stack, req: Request): (r: Stack)
    ensures r.entries == s.entries && r.factory == s.factory
    ensures |r.queue| == |s.queue| + 1 && r.queue[..|s.queue|] == s.queue
  {
    match req
    case PushRequest(id) => Push(s, id)
    case PopRequest => Pop(s)
    case ClearRequest => Clear(s)
  }

  /** The change a request queues. */
  function ChangeFor(req: Request): Change
  {
    match req
    case PushRequest(id) => Change(Perform.PushOp, id)
    case PopRequest => Change(Perform.PopOp, None)
    case ClearRequest => Change(Perform.ClearOp, None)
  }

  /** Issues requests in order: each appends its change behind the previous
      ones and nothing else moves. */
  function IssueAll(s: Stack, reqs: seq<Request>): (r: Stack)
    ensures r.entries == s.entries && r.factory == s.factory
    ensures |r.queue| == |s.queue| + |reqs|
    decreases |reqs|
  {
    if |reqs| == 0 then s
    else IssueAll(Issue(s, reqs[0]), reqs[1..])
  }

  /** The queue after issuing requests is the old queue followed by one
      change per request, in the order issued. */
  lemma {:induction false} IssueAllQueuesInOrder(s: Stack, reqs: seq<Request>)
    ensures IssueAll(s, reqs).queue[..|s.queue|] == s.queue
    ensures forall i :: 0 <= i < |reqs| ==> IssueAll(s, reqs).queue[|s.queue| + i] == ChangeFor(reqs[i])
    decreases |reqs|
  {
    if |reqs| > 0 {
      var next := Issue(s, reqs[0]);
      assert next.queue == s.queue + [ChangeFor(reqs[0])];
      IssueAllQueuesInOrder(next, reqs[1..]);
    }
  }

  lemma {:induction false} IssueAllAppend(s: Stack, a: seq<Request>, b: seq<Request>)
    ensures IssueAll(s, a + b) == IssueAll(IssueAll(s, a), b)
    decreases |a|
  {
    if |a| == 0 {
      assert a + b == b;
    } else {
      assert (a + b)[0] == a[0];
      assert (a + b)[1..] == a[1..] + b;
      IssueAllAppend(Issue(s, a[0]), a[1..], b);
    }
  }

  // ==== Transparency-aware dispatch ==== //

  /** The indices a dispatch of `op` reaches: from the top down, continuing
      past each transparent state and stopping right after the first opaque one. */
  function Walk(entries: seq<StateEntry>, op: Operation): (visited: seq<nat>)
    ensures |visited| <= |entries|
    ensures forall i :: 0 <= i < |visited| ==> visited[i] == |entries| - 1 - i
    ensures forall i :: 0 <= i < |visited| - 1 ==> Transparent(entries[visited[i]].state, op)
    ensures |visited| < |entries| ==> |visited| > 0 && !Transparent(entries[visited[|visited| - 1]].state, op)
    decreases |entries|
  {
    if |entries| == 0 then []
    else
      var top := |entries| - 1;
      if Transparent(entries[top].state, op) then [top] + Walk(entries[..top], op)
      else [top]
  }

  /** The shape Walk is meant to have: top-down consecutive indices, every
      reached state but the last transparent, and an early stop only at an
      opaque state. */
  ghost predicate IsTraversal(entries: seq<StateEntry>, op: Operation, visited: seq<nat>)
  {
    && |visited| <= |entries|
    && (forall i :: 0 <= i < |visited| ==> visited[i] == |entries| - 1 - i)
    && (forall i :: 0 <= i < |visited| - 1 ==> Transparent(entries[visited[i]].state, op))
    && (|visited| < |entries| ==> |visited| > 0 && !Transparent(entries[visited[|visited| - 1]].state, op))
  }

  /** The traversal is unique: Walk is the only sequence of that shape. */
  lemma TraversalUnique(entries: seq<StateEntry>, op: Operation, visited: seq<nat>)
    requires IsTraversal(entries, op, visited)
    ensures visited == Walk(entries, op)
  {
    // Every layer above the one the traversal ends on is transparent.
    var k := |entries| - |visited|;
    forall j | k < j < |entries|
      ensures Transparent(entries[j].state, op)
    {
      assert visited[|entries| - 1 - j] == j;
    }
    if |visited| < |entries| {
      FirstOpaqueBoundsWalk(entries, op, k);
    } else if |entries| > 0 && !Transparent(entries[0].state, op) {
      FirstOpaqueBoundsWalk(entries, op, 0);
    } else {
      AllTransparentReachesBottom(entries, op);
    }
  }

  /** If the state at index k is the topmost opaque one, exactly the layers
      k..top are reached and nothing below k. */
  lemma {:induction false} FirstOpaqueBoundsWalk(entries: seq<StateEntry>, op: Operation, k: nat)
    requires k < |entries|
    requires forall j :: k < j < |entries| ==> Transparent(entries[j].state, op)
    requires !Transparent(entries[k].state, op)
    ensures |Walk(entries, op)| == |entries| - k
    ensures forall i :: 0 <= i < |Walk(entries, op)| ==> Walk(entries, op)[i] >= k
    decreases |entries|
  {
    var top := |entries| - 1;
    if k < top {
      var below := entries[..top];
      assert Transparent(entries[top].state, op);
      assert Walk(entries, op) == [top] + Walk(below, op);
      forall j | k < j < |below|
        ensures Transparent(below[j].state, op)
      {
        assert below[j] == entries[j];
      }
      FirstOpaqueBoundsWalk(below, op, k);
    }
  }

  /** When every state is transparent, all are reached. */
  lemma AllTransparentReachesBottom(entries: seq<StateEntry>, op: Operation)
    requires forall j :: 0 <= j < |entries| ==> Transparent(entries[j].state, op)
    ensures |Walk(entries, op)| == |entries|
  {
  }

  /** An opaque top state is the only one reached. */
  lemma OpaqueTopShortCircuits(entries: seq<StateEntry>, op: Operation)
    requires |entries| > 0 && !Transparent(entries[|entries| - 1].state, op)
    ensures Walk(entries, op) == [|entries| - 1]
  {
  }

  /** The requests the reached states issue, in the order they are reached. */
  function RequestsAlong(entries: seq<StateEntry>, op: Operation, visited: seq<nat>): seq<Request>
    requires forall i :: 0 <= i < |visited| ==> visited[i] < |entries|
    decreases |visited|
  {
    if |visited| == 0 then []
    else
      var last := |visited| - 1;
      RequestsAlong(entries, op, visited[..last]) + React(entries[visited[last]].state, op).requests
  }

  lemma RequestsAlongExtend(entries: seq<StateEntry>, op: Operation, visited: seq<nat>, k: nat)
    requires forall i :: 0 <= i < |visited| ==> visited[i] < |entries|
    requires k < |entries|
    ensures RequestsAlong(entries, op, visited + [k]) ==
      RequestsAlong(entries, op, visited) + React(entries[k].state, op).requests
  {
  }

  /** Where the dispatch loop leaves off, its visited indices have the traversal shape. */
  lemma LoopExitIsTraversal(entries: seq<StateEntry>, op: Operation, visited: seq<nat>, i: nat, stopped: bool)
    requires i <= |entries| && |visited| == |entries| - i
    requires forall j :: 0 <= j < |visited| ==> visited[j] == |entries| - 1 - j
    requires forall k :: i < k < |entries| ==> Transparent(entries[k].state, op)
    requires stopped ==> |visited| > 0 && !Transparent(entries[i].state, op)
    requires i == 0 || stopped
    ensures IsTraversal(entries, op, visited)
  {
  }

  /** Reaching one more state queues its requests behind the earlier ones. */
  lemma DispatchStep(s: Stack, op: Operation, visited: seq<nat>, k: nat)
    requires forall i :: 0 <= i < |visited| ==> visited[i] < |s.entries|
    requires k < |s.entries|
    ensures IssueAll(IssueAll(s, RequestsAlong(s.entries, op, visited)), React(s.entries[k].state, op).requests) ==
      IssueAll(s, RequestsAlong(s.entries, op, visited + [k]))
  {
    IssueAllAppend(s, RequestsAlong(s.entries, op, visited), React(s.entries[k].state, op).requests);
    RequestsAlongExtend(s.entries, op, visited, k);
  }

  /** The stack after dispatching `op`: the entries and registry are untouched
      and the queue gains, in order, the requests of exactly the reached states. */
  function Dispatched(s: Stack, op: Operation): (r: Stack)
    ensures r.entries == s.entries && r.factory == s.factory
    ensures |r.queue| == |s.queue| + |RequestsAlong(s.entries, op, Walk(s.entries, op))|
    ensures r.queue[..|s.queue|] == s.queue
    ensures var reqs := RequestsAlong(s.entries, op, Walk(s.entries, op));
      forall i :: 0 <= i < |reqs| ==> r.queue[|s.queue| + i] == ChangeFor(reqs[i])
  {
    var reqs := RequestsAlong(s.entries, op, Walk(s.entries, op));
    IssueAllQueuesInOrder(s, reqs);
    IssueAll(s, reqs)
  }

  /** A traversal-shaped run that issued the reached states' requests ends
      where the reference dispatch does. */
  lemma DispatchEnds(s: Stack, op: Operation, visited: seq<nat>, r: Stack)
    requires IsTraversal(s.entries, op, visited)
    requires r == IssueAll(s, RequestsAlong(s.entries, op, visited))
    ensures visited == Walk(s.entries, op)
    ensures r == Dispatched(s, op)
  {
    TraversalUnique(s.entries, op, visited);
  }

  /** The stack's update / fixedUpdate / handleEvent / updateImGui loop:
      iterate from the top, invoke the state, stop after the first false. */
  method Dispatch(s: Stack, op: Operation) returns (visited: seq<nat>, r: Stack)
    ensures visited == Walk(s.entries, op)
    ensures r == Dispatched(s, op)
  {
    var entries := s.entries;
    visited := [];
    r := s;
    var i := |entries|;
    while i > 0
      invariant 0 <= i <= |entries|
      invariant |visited| == |entries| - i
      invariant forall j :: 0 <= j < |visited| ==> visited[j] == |entries| - 1 - j
      invariant forall k :: i <= k < |entries| ==> Transparent(entries[k].state, op)
      invariant r == IssueAll(s, RequestsAlong(entries, op, visited))
    {
      i := i - 1;
      var reaction := React(entries[i].state, op);
      DispatchStep(s, op, visited, i);
      r := IssueAll(r, reaction.requests);
      visited := visited + [i];
      if !reaction.transparent {
        // An opaque state ends the walk.
        LoopExitIsTraversal(entries, op, visited, i, true);
        DispatchEnds(s, op, visited, r);
        return;
      }
    }
    LoopExitIsTraversal(entries, op, visited, 0, false);
    DispatchEnds(s, op, visited, r);
  }

}
