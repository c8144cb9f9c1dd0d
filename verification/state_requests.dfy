/** The request forwarders every state inherits
    (BenchmarkPlotter/src/States/State.cpp). A state holds a reference to its
    stack; here the stack is passed explicitly and the forwarder returns it
    with the request recorded. */
module StateRequests {

  import opened StateIds
  import opened State
  import opened StateStack

  /** Queues a push: the entries stay as they are until the queue is applied. */
  function RequestPush(s: Stack, id: StateId): (r: Stack)
    ensures r == Push(s, id)
    ensures r.entries == s.entries && r.factory == s.factory
    ensures r.queue == s.queue + [Change(Perform.PushOp, id)]
  {
    Push(s, id)
  }

  function RequestPop(s: Stack): (r: Stack)
    ensures r == Pop(s)
    ensures r.entries == s.entries && r.factory == s.factory
    ensures r.queue == s.queue + [Change(Perform.PopOp, None)]
  {
    Pop(s)
  }

  function RequestClear(s: Stack): (r: Stack)
    ensures r == Clear(s)
    ensures r.entries == s.entries && r.factory == s.factory
    ensures r.queue == s.queue + [Change(Perform.ClearOp, None)]
  {
    Clear(s)
  }

  /** The identifier on top of the already-applied stack; like the stack's
      own query it requires a non-empty stack, since the header does not say
      what an empty one gives. */
  function RequestStateOnTop(s: Stack): (id: StateId)
    requires !Empty(s)
    ensures id == Top(s)
  {
    Top(s)
  }

  /** A request issued from inside a callback during dispatch is exactly the
      corresponding forwarder call. */
  lemma IssueIsForwarding(s: Stack, req: Request)
    ensures req.PushRequest? ==> Issue(s, req) == RequestPush(s, req.id)
    ensures req.PopRequest? ==> Issue(s, req) == RequestPop(s)
    ensures req.ClearRequest? ==> Issue(s, req) == RequestClear(s)
  {
  }

}
