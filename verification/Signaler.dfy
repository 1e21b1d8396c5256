/**
The single-shot signaler (internal/registry/signaler.go).  Each step is a critical section,
or one callback invocation made outside the lock: `Signal` walks the callback map without the
mutex, so registrations and removals can fall between two invocations.  Callbacks are
identified by the number of their `Register` call, channels by that of their `Channel` call.
*/
module Signaler {

  datatype Walk = NotStarted | Walking(visited: set<int>) | Completed

  /** What became of a registration. */
  datatype Fate =
    | At(id: int)        // in the callback map under this uid
    | Late               // made after the trigger, `f()` still to be called
    | LateRun            // made after the trigger, `f()` called
    | RemovedBefore      // unregistered while not triggered
    | RemovedAfter       // unregistered after the trigger

  datatype State = State(
    callbacks: map<int, nat>,     // uid -> registration
    nextIndex: nat,
    triggered: bool,
    fates: seq<Fate>,             // one per Register call
    walk: Walk,                   // the loop at the end of Signal
    tokens: seq<nat>,             // tokens sent on each channel handed out
    signals: seq<nat>,            // the channels Signal will send on
    runs: multiset<nat>)          // registrations whose callback was invoked

  datatype Step =
    | Register
    | RunLate(r: nat)
    | Unregister(id: int)
    | Channel
    | Signal
    | CallNext(id: int)
    | SignalReturns

  function Init(): State {
    State(map[], 0, false, [], NotStarted, [], [], multiset{})
  }

  predicate Enabled(s: State, step: Step) {
    match step
    case RunLate(r) => r < |s.fates| && s.fates[r].Late?
    case CallNext(id) => s.walk.Walking? && id in s.callbacks && id !in s.walk.visited
    case SignalReturns => s.walk.Walking? && forall id :: id in s.callbacks ==> id in s.walk.visited
    case _ => true
  }

  /** One token more on each listed channel. */
  function SendAll(tokens: seq<nat>, signals: seq<nat>): (t: seq<nat>)
    ensures |t| == |tokens|
  {
    if signals == [] then tokens
    else
      var t := SendAll(tokens, signals[..|signals| - 1]);
      var i := signals[|signals| - 1];
      if i < |t| then t[i := t[i] + 1] else t
  }

  function Apply(s: State, step: Step): State
    requires Enabled(s, step)
  {
    match step
    case Register =>
      if s.triggered then
        s.(fates := s.fates + [Late])
      else
        s.(fates := s.fates + [At(s.nextIndex)],
           callbacks := s.callbacks[s.nextIndex as int := |s.fates|],
           nextIndex := s.nextIndex + 1)
    case RunLate(r) => s.(fates := s.fates[r := LateRun], runs := s.runs + multiset{r})
    case Unregister(id) =>
      if id !in s.callbacks || s.callbacks[id] >= |s.fates| then s
      else
        s.(callbacks := s.callbacks - {id},
           fates := s.fates[s.callbacks[id] := if s.triggered then RemovedAfter else RemovedBefore])
    case Channel =>
      if s.triggered then s.(tokens := s.tokens + [1])
      else s.(tokens := s.tokens + [0], signals := s.signals + [|s.tokens|])
    case Signal =>
      if s.triggered then s
      else s.(triggered := true, tokens := SendAll(s.tokens, s.signals), walk := Walking({}))
    case CallNext(id) =>
      s.(walk := Walking(s.walk.visited + {id}), runs := s.runs + multiset{s.callbacks[id]})
    case SignalReturns => s.(walk := Completed)
  }

  predicate IsRun(s: State, steps: seq<Step>)
    decreases |steps|
  {
    steps == [] || (Enabled(s, steps[0]) && IsRun(Apply(s, steps[0]), steps[1..]))
  }

  function Final(s: State, steps: seq<Step>): State
    requires IsRun(s, steps)
    decreases |steps|
  {
    if steps == [] then s else Final(Apply(s, steps[0]), steps[1..])
  }

  // ----- Invariants -----

  ghost predicate Visited(s: State, id: int) {
    s.walk.Completed? || (s.walk.Walking? && id in s.walk.visited)
  }

  /** How often a registration has run follows from its fate. */
  ghost predicate RunsFollow(s: State, r: nat)
    requires r < |s.fates|
  {
    match s.fates[r]
    case At(id) => id in s.callbacks && s.callbacks[id] == r && s.runs[r] == if Visited(s, id) then 1 else 0
    case Late => s.triggered && s.runs[r] == 0
    case LateRun => s.triggered && s.runs[r] == 1
    case RemovedBefore => s.runs[r] == 0
    case RemovedAfter => s.triggered && s.runs[r] <= 1
  }

  ghost predicate Callbacks(s: State) {
    && (forall id :: id in s.callbacks ==>
          0 <= id < s.nextIndex && s.callbacks[id] < |s.fates| && s.fates[s.callbacks[id]] == At(id))
    && (forall r :: 0 <= r < |s.fates| ==> RunsFollow(s, r))
    && (forall r: nat :: r >= |s.fates| ==> s.runs[r] == 0)
    && (s.triggered <==> !s.walk.NotStarted?)
  }

  ghost predicate Channels(s: State) {
    && (forall i :: 0 <= i < |s.tokens| ==> s.tokens[i] == if s.triggered then 1 else 0)
    && (!s.triggered ==> |s.signals| == |s.tokens| && forall j :: 0 <= j < |s.signals| ==> s.signals[j] == j)
  }

  lemma {:induction false} SendAllOnce(tokens: seq<nat>, signals: seq<nat>)
    requires |signals| <= |tokens| && forall j :: 0 <= j < |signals| ==> signals[j] == j
    ensures forall i :: 0 <= i < |tokens| ==>
      SendAll(tokens, signals)[i] == if i < |signals| then tokens[i] + 1 else tokens[i]
  {
    if signals != [] {
      SendAllOnce(tokens, signals[..|signals| - 1]);
    }
  }

  lemma ChannelsStep(s: State, step: Step)
    requires Channels(s) && Enabled(s, step)
    ensures Channels(Apply(s, step))
  {
    if step.Signal? && !s.triggered {
      SendAllOnce(s.tokens, s.signals);
    }
  }

  lemma CallbacksStep(s: State, step: Step)
    requires Callbacks(s) && Enabled(s, step)
    ensures Callbacks(Apply(s, step))
  {
    var t := Apply(s, step);
    forall r | 0 <= r < |t.fates| ensures RunsFollow(t, r) {
      if r < |s.fates| {
        assert RunsFollow(s, r);
      }
    }
  }

  lemma {:induction false} InvRun(s: State, steps: seq<Step>)
    requires Callbacks(s) && Channels(s) && IsRun(s, steps)
    ensures Callbacks(Final(s, steps)) && Channels(Final(s, steps))
    decreases |steps|
  {
    if steps != [] {
      CallbacksStep(s, steps[0]);
      ChannelsStep(s, steps[0]);
      InvRun(Apply(s, steps[0]), steps[1..]);
    }
  }

  // ----- Main results -----

  /**
  Over any run a callback runs at most once; never if it was unregistered before the trigger;
  and exactly once, when Signal has returned, if it was not unregistered and its own Register
  call has returned.
  */
  lemma CallbacksRunOnce(steps: seq<Step>, r: nat)
    requires IsRun(Init(), steps) && r < |Final(Init(), steps).fates|
    ensures var s := Final(Init(), steps);
            && s.runs[r] <= 1
            && (s.fates[r].RemovedBefore? || !s.triggered ==> s.runs[r] == 0)
            && (s.walk.Completed? && (s.fates[r].At? || s.fates[r].LateRun?) ==> s.runs[r] == 1)
  {
    InvRun(Init(), steps);
    assert RunsFollow(Final(Init(), steps), r);
  }

  /**
  The fate of a registration records what was called for it: it only moves to a removed fate when
  its uid is unregistered.
  */
  lemma FateStep(s: State, step: Step, r: nat)
    requires Callbacks(s) && Enabled(s, step) && r < |s.fates|
    ensures var t := Apply(s, step);
            && r < |t.fates|
            && (t.fates[r] != s.fates[r] <==>
                  (s.fates[r].At? && step == Unregister(s.fates[r].id)) || (s.fates[r].Late? && step == RunLate(r)))
            && (t.fates[r] != s.fates[r] && step.Unregister? ==>
                t.fates[r] == if s.triggered then RemovedAfter else RemovedBefore)
  {
    assert RunsFollow(s, r);
  }

  /** Every channel has received exactly one token once triggered, none before. */
  lemma ChannelsGetOneToken(steps: seq<Step>, i: nat)
    requires IsRun(Init(), steps) && i < |Final(Init(), steps).tokens|
    ensures var s := Final(Init(), steps);
            s.tokens[i] == if s.triggered then 1 else 0
  {
    InvRun(Init(), steps);
  }

  /** The sends made under the mutex find room: each channel holds one token and none was sent yet. */
  lemma SendsNeverBlock(steps: seq<Step>, j: nat)
    requires IsRun(Init(), steps)
    requires var s := Final(Init(), steps); !s.triggered && j < |s.signals|
    ensures var s := Final(Init(), steps);
            && s.signals[j] < |s.tokens|
            && SendAll(s.tokens, s.signals[..j])[s.signals[j]] == 0
  {
    InvRun(Init(), steps);
    var s := Final(Init(), steps);
    SendAllOnce(s.tokens, s.signals[..j]);
  }
}
