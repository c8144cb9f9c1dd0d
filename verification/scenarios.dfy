/** Concrete uses of the stack: the FIFO example, the application's own
    registration and start-up (BenchmarkPlotter/src/Application.cpp), and a
    state that requests a push from inside its update. */
module Scenarios {

  import opened StateIds
  import opened State
  import opened Outcomes
  import opened StateStack

  /** Starting empty, the queue Push x, Push y, Pop, Push z leaves exactly x
      below z. */
  lemma FifoExample(f: Factory, x: StateId, y: StateId, z: StateId)
    requires x in f && y in f && z in f
    ensures Applied(Push(Pop(Push(Push(Stack([], [], f), x), y)), z)) ==
      Success(Stack([StateEntry(x, f[x]), StateEntry(z, f[z])], [], f))
  {
    var q := [Change(Perform.PushOp, x), Change(Perform.PushOp, y), Change(Perform.PopOp, None), Change(Perform.PushOp, z)];
    assert Push(Pop(Push(Push(Stack([], [], f), x), y)), z) == Stack([], q, f);
    FifoReplay(f, q);
  }

  lemma FifoReplay(f: Factory, q: seq<Change>)
    requires |q| == 4 && q[0].stateId in f && q[1].stateId in f && q[3].stateId in f
    requires q[0].operation == q[1].operation == q[3].operation == Perform.PushOp
    requires q[2].operation == Perform.PopOp
    ensures Replay([], f, q) == Success([StateEntry(q[0].stateId, f[q[0].stateId]), StateEntry(q[3].stateId, f[q[3].stateId])])
  {
    var ex, ey, ez := StateEntry(q[0].stateId, f[q[0].stateId]), StateEntry(q[1].stateId, f[q[1].stateId]), StateEntry(q[3].stateId, f[q[3].stateId]);
    assert Replay([], f, q) == Replay([ex], f, q[1..]);
    assert Replay([ex], f, q[1..]) == Replay([ex, ey], f, q[2..]) by {
      assert q[1..][0] == q[1] && q[1..][1..] == q[2..];
      assert [ex] + [ey] == [ex, ey];
    }
    assert Replay([ex, ey], f, q[2..]) == Replay([ex], f, q[3..]) by {
      assert q[2..][0] == q[2] && q[2..][1..] == q[3..];
      assert [ex, ey][..1] == [ex];
    }
    assert Replay([ex], f, q[3..]) == Success([ex, ez]) by {
      assert q[3..][0] == q[3] && q[3..][1..] == [];
      assert [ex] + [ez] == [ex, ez];
    }
  }

  /** Pushing a then b then popping, on top of any existing entries, leaves
      the existing entries with a on top. */
  lemma PushPushPop(s: Stack, a: StateId, b: StateId)
    requires s.queue == [] && a in s.factory && b in s.factory
    ensures Applied(Pop(Push(Push(s, a), b))).Success?
    ensures Applied(Pop(Push(Push(s, a), b))).value.entries == s.entries + [StateEntry(a, s.factory[a])]
  {
    var q := [Change(Perform.PushOp, a), Change(Perform.PushOp, b), Change(Perform.PopOp, None)];
    var withA := s.entries + [StateEntry(a, s.factory[a])];
    var withB := withA + [StateEntry(b, s.factory[b])];
    assert Pop(Push(Push(s, a), b)).queue == q;
    assert Replay(s.entries, s.factory, q) == Replay(withA, s.factory, q[1..]);
    assert Replay(withA, s.factory, q[1..]) == Replay(withB, s.factory, q[2..]) by {
      assert q[1..][0] == q[1] && q[1..][1..] == q[2..];
    }
    assert Replay(withB, s.factory, q[2..]) == Success(withA) by {
      assert q[2..][0] == q[2] && q[2..][1..] == [];
      assert withB[..|withA|] == withA;
    }
  }

  /** Registering an identifier twice keeps only the second registration, and
      a later push builds from it. */
  lemma ReRegistrationUsesLatest(s: Stack, id: StateId, first: Behaviour, second: Behaviour)
    requires s.queue == []
    ensures SaveState(SaveState(s, id, first), id, second) == SaveState(s, id, second)
    ensures Applied(Push(SaveState(SaveState(s, id, first), id, second), id)).Success?
    ensures Applied(Push(SaveState(SaveState(s, id, first), id, second), id)).value.entries ==
      s.entries + [StateEntry(id, second)]
  {
    var t := SaveState(s, id, second);
    assert SaveState(SaveState(s, id, first), id, second) == t by {
      assert s.factory[id := first][id := second] == s.factory[id := second];
    }
    PushThenApply(t, id);
  }

  /** The application's registrations: the ExitApplicationState class is
      saved under both identifiers. */
  function SetupFlowStates(s: Stack): (r: Stack)
    ensures r.entries == s.entries && r.queue == s.queue
    ensures r.factory.Keys == s.factory.Keys + {ExitApplicationState, MainAppOpen}
    ensures r.factory[MainAppOpen] == ExitApplicationBehaviour
    ensures r.factory[ExitApplicationState] == ExitApplicationBehaviour
  {
    SaveState(SaveState(s, ExitApplicationState, ExitApplicationBehaviour), MainAppOpen, ExitApplicationBehaviour)
  }

  /** The application's stack right after construction: registrations done,
      MainAppOpen queued. */
  function Launched(): (s: Stack)
    ensures Empty(s) && s.queue == [Change(Perform.PushOp, MainAppOpen)]
  {
    Push(SetupFlowStates(EmptyStack), MainAppOpen)
  }

  /** After the first application of the queue, the top reports the pushed
      identifier MainAppOpen although the state built is an
      ExitApplicationState; the driver's exit check therefore does not fire. */
  lemma LaunchTopIsMainAppOpen()
    ensures Applied(Launched()).Success?
    ensures |Applied(Launched()).value.entries| == 1
    ensures Top(Applied(Launched()).value) == MainAppOpen
    ensures Applied(Launched()).value.entries[0].state == ExitApplicationBehaviour
    ensures Top(Applied(Launched()).value) != ExitApplicationState
  {
  }

  /** A main state whose update requests the exit state and lets the layer
      below update too. */
  const RequestingMain: Behaviour :=
    Behaviour(Inert, Reaction(true, [PushRequest(ExitApplicationState)]), Inert, Inert)

  /** Register main and exit, push main, apply: main is on top. Dispatch an
      update, in which main requests exit, and apply again: exit is on top of
      main, two entries in all. */
  lemma RequestFromUpdate()
    ensures var s0 := SaveState(SaveState(EmptyStack, MainAppOpen, RequestingMain), ExitApplicationState, DefaultBehaviour);
      var a := Applied(Push(s0, MainAppOpen));
      && a.Success? && !Empty(a.value) && Top(a.value) == MainAppOpen
      && var b := Applied(Dispatched(a.value, Update));
      && b.Success? && |b.value.entries| == 2 && Top(b.value) == ExitApplicationState
  {
    var s0 := SaveState(SaveState(EmptyStack, MainAppOpen, RequestingMain), ExitApplicationState, DefaultBehaviour);
    PushThenApply(s0, MainAppOpen);
    var a := Applied(Push(s0, MainAppOpen)).value;
    assert a.entries == [StateEntry(MainAppOpen, RequestingMain)] by {
      assert Push(s0, MainAppOpen).queue == [Change(Perform.PushOp, MainAppOpen)];
      assert [Change(Perform.PushOp, MainAppOpen)][1..] == [];
    }
    assert Walk(a.entries, Update) == [0];
    var reqs := [PushRequest(ExitApplicationState)];
    assert RequestsAlong(a.entries, Update, [0]) == reqs by {
      assert [0][..0] == [];
    }
    assert Dispatched(a, Update) == Push(a, ExitApplicationState) by {
      assert reqs[1..] == [];
    }
    PushThenApply(a, ExitApplicationState);
  }

}
