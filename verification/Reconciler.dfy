/**
The wakeup plumbing of the controller: event listeners (internal/controller/stacklistener.go,
internal/controller/childrenstore.go), the reconcile loop with its retry goroutines
(internal/controller/stackreconciler.go) and the two deduplicating queues between them.
A key is woken by a listener event or by an update conflict and answered when
`reconcileStack` starts for it.
*/
module Reconciler {
  import opened Wrappers
  import Q = StringChan

  datatype Event = Wake(key: string) | Start(key: string)

  datatype State = State(
    queue: Q.State,                 // reconcile queue, fed by the listeners
    retries: Q.State,               // reconcileRetryQueue, fed by the retry goroutines
    sends: multiset<string>,        // listener handlers blocked in `reconcileQueue <- objKey`
    sleepers: multiset<string>,     // retry goroutines sleeping or blocked in `reconcileRetryQueue.In() <- objKey`
    busy: Option<string>,           // key being reconciled by the loop
    log: seq<Event>)

  datatype Step =
    | ListenerEvent(key: string)
    | ListenerSend(key: string)
    | RetrySend(key: string)
    | QueueStep(qs: Q.Step)         // internal step of the reconcile queue
    | RetriesStep(qs: Q.Step)       // internal step of the retry queue
    | TakeQueued                    // select picks `<-reconcileQueue`
    | TakeRetry                     // select picks `<-reconcileRetryQueue.Out()`
    | Conflict                      // applyStackDiff or updateStackStatus reports a conflict
    | Return                        // reconcileStack returns
    | DeleteChildren                // select picks `<-deletionQueue`

  function Init(queueLength: nat, retryLength: nat): State {
    State(Q.Init(queueLength), Q.Init(retryLength), multiset{}, multiset{}, None, [])
  }

  /** Steps the queue's own goroutines take without a sender or a reader. */
  predicate Internal(qs: Q.Step) {
    !qs.AcceptInput? && !qs.DeliverOutput? && !qs.CloseInput?
  }

  predicate Enabled(s: State, step: Step) {
    match step
    case ListenerEvent(_) => true
    case ListenerSend(k) => k in s.sends && Q.Enabled(s.queue, Q.AcceptInput(k))
    case RetrySend(k) => k in s.sleepers && Q.Enabled(s.retries, Q.AcceptInput(k))
    case QueueStep(qs) => Internal(qs) && Q.Enabled(s.queue, qs)
    case RetriesStep(qs) => Internal(qs) && Q.Enabled(s.retries, qs)
    case TakeQueued => s.busy.None? && Q.Enabled(s.queue, Q.DeliverOutput)
    case TakeRetry => s.busy.None? && Q.Enabled(s.retries, Q.DeliverOutput)
    case Conflict => s.busy.Some?
    case Return => s.busy.Some?
    case DeleteChildren => s.busy.None?
  }

  function Apply(s: State, step: Step): State
    requires Enabled(s, step)
  {
    match step
    case ListenerEvent(k) => s.(sends := s.sends + multiset{k}, log := s.log + [Wake(k)])
    case ListenerSend(k) => s.(sends := s.sends - multiset{k}, queue := Q.Apply(s.queue, Q.AcceptInput(k)))
    case RetrySend(k) => s.(sleepers := s.sleepers - multiset{k}, retries := Q.Apply(s.retries, Q.AcceptInput(k)))
    case QueueStep(qs) => s.(queue := Q.Apply(s.queue, qs))
    case RetriesStep(qs) => s.(retries := Q.Apply(s.retries, qs))
    case TakeQueued =>
      var k := s.queue.puller.v;
      s.(queue := Q.Apply(s.queue, Q.DeliverOutput), busy := Some(k), log := s.log + [Start(k)])
    case TakeRetry =>
      var k := s.retries.puller.v;
      s.(retries := Q.Apply(s.retries, Q.DeliverOutput), busy := Some(k), log := s.log + [Start(k)])
    case Conflict => s.(sleepers := s.sleepers + multiset{s.busy.value}, log := s.log + [Wake(s.busy.value)])
    case Return => s.(busy := None)
    case DeleteChildren => s
  }

  predicate IsRun(s: State, steps: seq<Step>)
    decreases |steps|
  {
    steps == [] || (Enabled(s, steps[0]) && IsRun(Apply(s, steps[0]), steps[1..]))
  }

  function Final(s: State, steps: seq<Step>): State
    requires IsRun(s, steps)
    decreases |steps|
  {
    if steps == [] then s else Final(Apply(s, steps[0]), steps[1..])
  }

  /** The wakeup at position `i` was followed by a start of reconcileStack for its key. */
  ghost predicate Answered(log: seq<Event>, i: nat)
    requires i < |log|
  {
    exists j :: i < j < |log| && log[j] == Start(log[i].key)
  }

  /** `key` waits in a listener, in a retry goroutine or in one of the two queues. */
  ghost predicate Queued(s: State, key: string) {
    key in s.sends || key in s.sleepers || Q.Holds(s.queue, key) || Q.Holds(s.retries, key)
  }

  ghost predicate LevelTriggered(s: State) {
    forall i :: 0 <= i < |s.log| && s.log[i].Wake? ==> Answered(s.log, i) || Queued(s, s.log[i].key)
  }

  ghost predicate QueuesOk(s: State) {
    Q.Sound(s.queue) && Q.Sound(s.retries) && !s.queue.inputClosed && !s.retries.inputClosed
  }

  ghost predicate Inv(s: State) {
    QueuesOk(s) && LevelTriggered(s)
  }

  /** A step drops no queued key, except that a start of reconcileStack answers its own. */
  lemma QueuedStep(s: State, step: Step, key: string)
    requires Q.Sound(s.queue) && Q.Sound(s.retries) && Enabled(s, step) && Queued(s, key)
    ensures var t := Apply(s, step);
            Queued(t, key) || (t.busy == Some(key) && t.log == s.log + [Start(key)])
  {
    match step
    case ListenerSend(k) => Q.HoldsStep(s.queue, Q.AcceptInput(k), key);
    case RetrySend(k) => Q.HoldsStep(s.retries, Q.AcceptInput(k), key);
    case QueueStep(qs) => Q.HoldsStep(s.queue, qs, key);
    case RetriesStep(qs) => Q.HoldsStep(s.retries, qs, key);
    case TakeQueued => Q.HoldsStep(s.queue, Q.DeliverOutput, key);
    case TakeRetry => Q.HoldsStep(s.retries, Q.DeliverOutput, key);
    case _ =>
  }

  lemma QueueInvStep(s: State, step: Step)
    requires QueuesOk(s) && Enabled(s, step)
    ensures QueuesOk(Apply(s, step))
  {
    match step
    case ListenerSend(k) => Q.SoundStep(s.queue, Q.AcceptInput(k));
    case RetrySend(k) => Q.SoundStep(s.retries, Q.AcceptInput(k));
    case QueueStep(qs) => Q.SoundStep(s.queue, qs);
    case RetriesStep(qs) => Q.SoundStep(s.retries, qs);
    case TakeQueued => Q.SoundStep(s.queue, Q.DeliverOutput);
    case TakeRetry => Q.SoundStep(s.retries, Q.DeliverOutput);
    case _ =>
  }

  lemma LevelTriggeredStep(s: State, step: Step)
    requires Inv(s) && Enabled(s, step)
    ensures LevelTriggered(Apply(s, step))
  {
    var t := Apply(s, step);
    forall i | 0 <= i < |t.log| && t.log[i].Wake?
      ensures Answered(t.log, i) || Queued(t, t.log[i].key)
    {
      if i < |s.log| {
        assert t.log[i] == s.log[i];
        if Answered(s.log, i) {
          var j :| i < j < |s.log| && s.log[j] == Start(s.log[i].key);
          assert t.log[j] == Start(t.log[i].key);
        } else {
          QueuedStep(s, step, s.log[i].key);
          if !Queued(t, t.log[i].key) {
            assert t.log[|s.log|] == Start(t.log[i].key);
          }
        }
      }
    }
  }

  lemma InvStep(s: State, step: Step)
    requires Inv(s) && Enabled(s, step)
    ensures Inv(Apply(s, step))
  {
    QueueInvStep(s, step);
    LevelTriggeredStep(s, step);
  }

  lemma {:induction false} InvRun(s: State, steps: seq<Step>)
    requires Inv(s) && IsRun(s, steps)
    ensures Inv(Final(s, steps))
    decreases |steps|
  {
    if steps != [] {
      InvStep(s, steps[0]);
      InvRun(Apply(s, steps[0]), steps[1..]);
    }
  }

  /**
  In every reachable state a wakeup is answered by a later start of reconcileStack for its key,
  or its key is in a listener send, in a retry goroutine, or inside one of the queues.
  */
  lemma WakeupsAreLevelTriggered(queueLength: nat, retryLength: nat, steps: seq<Step>)
    requires IsRun(Init(queueLength, retryLength), steps)
    ensures LevelTriggered(Final(Init(queueLength, retryLength), steps))
  {
    InvRun(Init(queueLength, retryLength), steps);
  }

  /** Only a new event or a stack deletion can happen next. */
  ghost predicate Quiescent(s: State) {
    forall step :: Enabled(s, step) ==> step.ListenerEvent? || step.DeleteChildren?
  }

  lemma QuietQueue(q: Q.State)
    requires Q.Shutdown(q) && !q.inputClosed && !Q.Enabled(q, Q.DeliverOutput)
    requires forall qs :: Internal(qs) ==> !Q.Enabled(q, qs)
    ensures q.pusher.Waiting? && Q.Pipeline(q) == []
  {
    assert !Q.Enabled(q, Q.Forget) && !Q.Enabled(q, Q.Dequeue) && !Q.Enabled(q, Q.Handoff) && !Q.Enabled(q, Q.Decide);
    assert q.puller.Listening?;
  }

  /** What quiescence means for the two queues. */
  lemma QuietSteps(s: State)
    requires Quiescent(s)
    ensures !Q.Enabled(s.queue, Q.DeliverOutput) && !Q.Enabled(s.retries, Q.DeliverOutput)
    ensures forall qs :: Internal(qs) ==> !Q.Enabled(s.queue, qs)
    ensures forall qs :: Internal(qs) ==> !Q.Enabled(s.retries, qs)
  {
    assert !Enabled(s, Return) && !Enabled(s, TakeQueued) && !Enabled(s, TakeRetry);
    forall qs | Internal(qs) ensures !Q.Enabled(s.queue, qs) && !Q.Enabled(s.retries, qs) {
      assert !Enabled(s, QueueStep(qs)) && !Enabled(s, RetriesStep(qs));
    }
  }

  lemma WaitingHoldsNothing(q: Q.State, key: string)
    requires q.pusher.Waiting? && Q.Pipeline(q) == [] && !q.inputClosed
    ensures !Q.Holds(q, key) && Q.Enabled(q, Q.AcceptInput(key))
  {
  }

  lemma QuietState(s: State, key: string)
    requires QueuesOk(s) && Quiescent(s)
    ensures !Queued(s, key)
  {
    QuietSteps(s);
    QuietQueue(s.queue);
    QuietQueue(s.retries);
    WaitingHoldsNothing(s.queue, key);
    WaitingHoldsNothing(s.retries, key);
    assert !Enabled(s, ListenerSend(key)) && !Enabled(s, RetrySend(key));
  }

  /** Wakeups cannot get stuck: when the plumbing can only wait for new events, every wakeup has been answered. */
  lemma QuiescentMeansAnswered(queueLength: nat, retryLength: nat, steps: seq<Step>)
    requires IsRun(Init(queueLength, retryLength), steps)
    requires Quiescent(Final(Init(queueLength, retryLength), steps))
    ensures var s := Final(Init(queueLength, retryLength), steps);
            forall i :: 0 <= i < |s.log| && s.log[i].Wake? ==> Answered(s.log, i)
  {
    InvRun(Init(queueLength, retryLength), steps);
    var s := Final(Init(queueLength, retryLength), steps);
    forall i | 0 <= i < |s.log| && s.log[i].Wake? ensures Answered(s.log, i) {
      QuietState(s, s.log[i].key);
    }
  }
}
