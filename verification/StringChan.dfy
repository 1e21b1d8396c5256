/**
The deduplicating string channel (internal/deduplication/stringchannel.go).

Two goroutines share a mutex-protected set `content` and a bounded channel `ch`:
the pusher moves accepted values into `ch` unless the set already holds them, and the
puller moves values from `ch` to the unbuffered output.  Every step below is one atomic
action of one goroutine (a rendezvous, a critical section, a channel operation), so the
runs of this machine are the interleavings of the two goroutines with any sender, any
reader and one caller of `Close`.
*/
module StringChan {

  /** Where the goroutine started at stringchannel.go:17 stands. */
  datatype Pusher =
    | Waiting                // blocked on the input channel
    | Deciding(v: string)    // received `v`, critical section of `push` not run yet
    | Sending(v: string)     // recorded `v` in the set, blocked on `ch <- v`
    | Done                   // input closed; `ch` is closed

  /** Where the goroutine started at stringchannel.go:23 stands. */
  datatype Puller =
    | Listening              // blocked on `<-ch`
    | Pulled(v: string)      // took `v` from `ch`, critical section of `pull` not run yet
    | Offering(v: string)    // blocked on `output <- v`
    | Drained                // saw `ch` closed and empty, critical section of `pull` not run yet
    | Finished               // output closed

  datatype Event = Accept(v: string) | Deliver(v: string)

  datatype State = State(
    capacity: nat,
    content: set<string>,
    buffer: seq<string>,
    inputClosed: bool,
    pusher: Pusher,
    puller: Puller,
    log: seq<Event>)

  datatype Step =
    | AcceptInput(v: string)
    | Decide
    | Enqueue
    | Handoff
    | Dequeue
    | Forget
    | DeliverOutput
    | CloseInput
    | StopPushing
    | SeeClosed
    | Finish

  function Init(capacity: nat): State {
    State(capacity, {}, [], false, Waiting, Listening, [])
  }

  predicate Enabled(s: State, step: Step) {
    match step
    case AcceptInput(_) => s.pusher.Waiting? && !s.inputClosed
    case Decide => s.pusher.Deciding?
    case Enqueue => s.pusher.Sending? && |s.buffer| < s.capacity
    case Handoff => s.pusher.Sending? && s.buffer == [] && s.puller.Listening?
    case Dequeue => s.puller.Listening? && s.buffer != []
    case Forget => s.puller.Pulled?
    case DeliverOutput => s.puller.Offering?
    case CloseInput => !s.inputClosed
    case StopPushing => s.pusher.Waiting? && s.inputClosed
    case SeeClosed => s.puller.Listening? && s.buffer == [] && s.pusher.Done?
    case Finish => s.puller.Drained?
  }

  function Apply(s: State, step: Step): State
    requires Enabled(s, step)
  {
    match step
    case AcceptInput(v) => s.(pusher := Deciding(v), log := s.log + [Accept(v)])
    case Decide =>
      if s.pusher.v in s.content then s.(pusher := Waiting)
      else s.(pusher := Sending(s.pusher.v), content := s.content + {s.pusher.v})
    case Enqueue => s.(pusher := Waiting, buffer := s.buffer + [s.pusher.v])
    case Handoff => s.(pusher := Waiting, puller := Pulled(s.pusher.v))
    case Dequeue => s.(puller := Pulled(s.buffer[0]), buffer := s.buffer[1..])
    case Forget => s.(puller := Offering(s.puller.v), content := s.content - {s.puller.v})
    case DeliverOutput => s.(puller := Listening, log := s.log + [Deliver(s.puller.v)])
    case CloseInput => s.(inputClosed := true)
    case StopPushing => s.(pusher := Done)
    case SeeClosed => s.(puller := Drained)
    // On a closed channel `pull` receives the zero value and deletes it from the set.
    case Finish => s.(puller := Finished, content := s.content - {""})
  }

  predicate IsRun(s: State, steps: seq<Step>)
    decreases |steps|
  {
    steps == [] || (Enabled(s, steps[0]) && IsRun(Apply(s, steps[0]), steps[1..]))
  }

  function Final(s: State, steps: seq<Step>): State
    requires IsRun(s, steps)
    decreases |steps|
  {
    if steps == [] then s else Final(Apply(s, steps[0]), steps[1..])
  }

  // ----- What the pipeline holds -----

  /** Values recorded in the set: taken by the puller, buffered, or being sent. */
  function Recorded(s: State): seq<string> {
    (if s.puller.Pulled? then [s.puller.v] else []) + s.buffer + (if s.pusher.Sending? then [s.pusher.v] else [])
  }

  /** Every copy in flight, oldest first. */
  function Pipeline(s: State): seq<string> {
    (if s.puller.Offering? then [s.puller.v] else []) + Recorded(s)
  }

  /** `v` is somewhere inside the channel. */
  predicate Holds(s: State, v: string) {
    v in Pipeline(s) || s.pusher == Deciding(v)
  }

  function Accepted(log: seq<Event>): seq<string> {
    if log == [] then []
    else
      var before := Accepted(log[..|log| - 1]);
      match log[|log| - 1]
      case Accept(v) => before + [v]
      case Deliver(_) => before
  }

  function Delivered(log: seq<Event>): seq<string> {
    if log == [] then []
    else
      var before := Delivered(log[..|log| - 1]);
      match log[|log| - 1]
      case Accept(_) => before
      case Deliver(v) => before + [v]
  }

  /** Values accepted and not delivered since. */
  function Owed(log: seq<Event>): set<string> {
    if log == [] then {}
    else
      var before := Owed(log[..|log| - 1]);
      match log[|log| - 1]
      case Accept(v) => before + {v}
      case Deliver(v) => before - {v}
  }

  ghost predicate DeliveredAfter(log: seq<Event>, i: nat)
    requires i < |log|
  {
    exists j :: i < j < |log| && log[j] == Deliver(log[i].v)
  }

  /** `Owed` means what it says: an acceptance with no later delivery of the same value. */
  lemma {:induction false} OwedMeaning(log: seq<Event>, v: string)
    ensures v in Owed(log) <==> exists i :: 0 <= i < |log| && log[i] == Accept(v) && !DeliveredAfter(log, i)
  {
    if log != [] {
      var n := |log| - 1;
      var before := log[..n];
      OwedMeaning(before, v);
      forall i | 0 <= i < n && log[i] == Accept(v)
        ensures DeliveredAfter(log, i) <==> DeliveredAfter(before, i) || log[n] == Deliver(v)
      {
        if DeliveredAfter(before, i) {
          var j :| i < j < n && before[j] == Deliver(before[i].v);
          assert log[j] == Deliver(log[i].v);
        }
        if DeliveredAfter(log, i) && log[n] != Deliver(v) {
          var j :| i < j < |log| && log[j] == Deliver(log[i].v);
          assert before[j] == Deliver(before[i].v);
        }
      }
      if log[n] == Accept(v) {
        assert !DeliveredAfter(log, n);
      } else if v in Owed(log) {
        var i :| 0 <= i < n && before[i] == Accept(v) && !DeliveredAfter(before, i);
        assert log[i] == Accept(v);
      } else if i :| 0 <= i < |log| && log[i] == Accept(v) && !DeliveredAfter(log, i) {
        assert before[i] == Accept(v);
      }
    }
  }

  /** `a` is `b` with some elements left out. */
  predicate Subsequence(a: seq<string>, b: seq<string>) {
    if a == [] then true
    else if b == [] then false
    else
      (a[|a| - 1] == b[|b| - 1] && Subsequence(a[..|a| - 1], b[..|b| - 1]))
      || Subsequence(a, b[..|b| - 1])
  }

  predicate Distinct(q: seq<string>) {
    forall i, j :: 0 <= i < j < |q| ==> q[i] != q[j]
  }

  // ----- The inductive invariant -----

  /** The set is exactly what is recorded, and nothing is recorded twice. */
  ghost predicate ContentExact(s: State) {
    s.content == (set v | v in Recorded(s)) && Distinct(Recorded(s))
  }

  /** Acceptances already decided upon. */
  function Settled(s: State): seq<string> {
    var a := Accepted(s.log);
    if s.pusher.Deciding? && a != [] then a[..|a| - 1] else a
  }

  predicate Ordered(delivered: seq<string>, pipeline: seq<string>, accepted: seq<string>) {
    Subsequence(delivered + pipeline, accepted)
  }

  /** Deliveries followed by the pipeline are acceptances in acceptance order. */
  ghost predicate Fifo(s: State) {
    && (s.pusher.Deciding? ==> Accepted(s.log) != [] && Accepted(s.log)[|Accepted(s.log)| - 1] == s.pusher.v)
    && Ordered(Delivered(s.log), Pipeline(s), Settled(s))
  }

  ghost predicate NothingLost(s: State) {
    forall v :: v in Owed(s.log) ==> Holds(s, v)
  }

  /** How often an event occurs. */
  function Count(log: seq<Event>, e: Event): nat { multiset(log)[e] }

  /** Nothing is inside, or was delivered, that was not accepted; a value being decided counts as not inside yet. */
  predicate BackedAt(s: State, v: string) {
    Count(s.log, Deliver(v)) + multiset(Pipeline(s))[v] + (if s.pusher == Deciding(v) then 1 else 0) <= Count(s.log,
        Accept(v))
  }

  ghost predicate Backed(s: State) { forall v :: BackedAt(s, v) }

  /** What was delivered together with the first `q` values of the pipeline was accepted before event `i`. */
  ghost predicate Ahead(s: State, q: nat, i: nat)
    requires q <= |Pipeline(s)| && i <= |s.log|
  {
    forall v :: Count(s.log, Deliver(v)) + multiset(Pipeline(s)[..q])[v] <= Count(s.log[..i], Accept(v))
  }

  predicate Inside(s: State, q: nat, v: string) { q < |Pipeline(s)| && Pipeline(s)[q] == v }

  /** The acceptance `i` stands for a copy that has only earlier acceptances ahead of it, or is being decided. */
  ghost predicate Placed(s: State, i: nat)
    requires i < |s.log|
  {
    || (exists q: nat :: Inside(s, q, s.log[i].v) && Ahead(s, q, i))
    || (s.pusher == Deciding(s.log[i].v) && Ahead(s, |Pipeline(s)|, i))
  }

  ghost predicate Queueing(s: State) {
    forall i :: 0 <= i < |s.log| && s.log[i].Accept? && !DeliveredAfter(s.log, i) ==> Placed(s, i)
  }

  ghost predicate DeliveredBetween(log: seq<Event>, i: nat, t: nat)
    requires i < t <= |log|
  {
    exists j :: i < j < t && log[j] == Deliver(log[i].v)
  }

  /**
  No value overtakes another: when a value is delivered while an earlier acceptance of another one
  waits, it was accepted before that one as often as it has been delivered by now.
  */
  ghost predicate NoOvertaking(log: seq<Event>) {
    forall i, t :: 0 <= i < t < |log| && log[i].Accept? && log[t].Deliver? && log[t].v != log[i].v
        && !DeliveredBetween(log, i, t)
      ==> Count(log[..t + 1], log[t]) <= Count(log[..i], Accept(log[t].v))
  }

  ghost predicate InOrder(s: State) {
    Backed(s) && Queueing(s) && NoOvertaking(s.log)
  }

  ghost predicate Shutdown(s: State) {
    && (s.pusher.Done? ==> s.inputClosed)
    && (s.puller.Drained? || s.puller.Finished? ==> s.pusher.Done? && s.buffer == [])
  }

  ghost predicate Inv(s: State) {
    |s.buffer| <= s.capacity && ContentExact(s) && Fifo(s) && InOrder(s) && NothingLost(s) && Shutdown(s)
  }

  lemma LogGrows(log: seq<Event>, e: Event)
    ensures Accepted(log + [e]) == if e.Accept? then Accepted(log) + [e.v] else Accepted(log)
    ensures Delivered(log + [e]) == if e.Deliver? then Delivered(log) + [e.v] else Delivered(log)
    ensures Owed(log + [e]) == if e.Accept? then Owed(log) + {e.v} else Owed(log) - {e.v}
  {
    assert (log + [e])[..|log|] == log;
  }

  /** `Decide` may append to what is recorded, `Forget` removes its head, every other step keeps it. */
  lemma RecordedStep(s: State, step: Step)
    requires Enabled(s, step)
    ensures var r, r' := Recorded(s), Recorded(Apply(s, step));
            if step.Forget? then r == [s.puller.v] + r'
            else if step.Decide? && s.pusher.v !in s.content then r' == r + [s.pusher.v]
            else r' == r
  {
    if step.Dequeue? {
      assert s.buffer == [s.buffer[0]] + s.buffer[1..];
    }
  }

  /** The pipeline loses its oldest value on delivery, gains one when `Decide` records it, and is kept otherwise. */
  lemma PipelineStep(s: State, step: Step)
    requires Enabled(s, step)
    ensures var p, p' := Pipeline(s), Pipeline(Apply(s, step));
            if step.DeliverOutput? then p == [s.puller.v] + p'
            else if step.Decide? && s.pusher.v !in s.content then p' == p + [s.pusher.v]
            else p' == p
  {
    RecordedStep(s, step);
  }

  lemma OrderedDeliver(d: seq<string>, v: string, p: seq<string>, b: seq<string>)
    requires Ordered(d, [v] + p, b)
    ensures Ordered(d + [v], p, b)
  {
    assert d + ([v] + p) == d + [v] + p;
  }

  lemma OrderedDecide(d: seq<string>, p: seq<string>, b: seq<string>, v: string)
    requires Ordered(d, p, b)
    ensures Ordered(d, p, b + [v]) && Ordered(d, p + [v], b + [v])
  {
    var a := d + p;
    assert d + (p + [v]) == a + [v];
    assert (a + [v])[..|a|] == a && (b + [v])[..|b|] == b;
  }

  lemma FifoLogged(s: State, step: Step)
    requires Fifo(s) && Enabled(s, step) && (step.AcceptInput? || step.DeliverOutput?)
    ensures Fifo(Apply(s, step))
  {
    PipelineStep(s, step);
    if step.AcceptInput? {
      var b := Accepted(s.log);
      LogGrows(s.log, Accept(step.v));
      assert (b + [step.v])[..|b|] == b;
    } else {
      LogGrows(s.log, Deliver(s.puller.v));
      OrderedDeliver(Delivered(s.log), s.puller.v, Pipeline(Apply(s, step)), Settled(s));
    }
  }

  lemma FifoDecide(s: State)
    requires Fifo(s) && s.pusher.Deciding?
    ensures Fifo(Apply(s, Decide))
  {
    PipelineStep(s, Decide);
    OrderedDecide(Delivered(s.log), Pipeline(s), Settled(s), s.pusher.v);
    assert Accepted(s.log) == Settled(s) + [s.pusher.v];
  }

  lemma FifoStep(s: State, step: Step)
    requires Fifo(s) && Enabled(s, step)
    ensures Fifo(Apply(s, step))
  {
    if step.AcceptInput? || step.DeliverOutput? {
      FifoLogged(s, step);
    } else if step.Decide? {
      FifoDecide(s);
    } else {
      PipelineStep(s, step);
      assert Settled(Apply(s, step)) == Settled(s);
    }
  }

  // ----- No overtaking -----

  lemma CountGrows(log: seq<Event>, e: Event, f: Event)
    ensures Count(log + [e], f) == Count(log, f) + if e == f then 1 else 0
  {
  }

  lemma DeliveredAfterGrows(log: seq<Event>, e: Event, i: nat)
    requires i < |log| && log[i].Accept?
    ensures DeliveredAfter(log + [e], i) <==> DeliveredAfter(log, i) || e == Deliver(log[i].v)
  {
    var log' := log + [e];
    if DeliveredAfter(log, i) {
      var j :| i < j < |log| && log[j] == Deliver(log[i].v);
      assert log'[j] == Deliver(log'[i].v);
    }
    if e == Deliver(log[i].v) {
      assert log'[|log|] == Deliver(log'[i].v);
    }
  }

  lemma SnocCount(p: seq<string>, u: string, v: string)
    ensures multiset(p + [u])[v] == multiset(p)[v] + if u == v then 1 else 0
    ensures multiset([u] + p)[v] == multiset(p)[v] + if u == v then 1 else 0
  {
  }

  lemma BackedAccept(s: State, u: string, v: string)
    requires BackedAt(s, v) && Enabled(s, AcceptInput(u))
    ensures BackedAt(Apply(s, AcceptInput(u)), v)
  {
    PipelineStep(s, AcceptInput(u));
    CountGrows(s.log, Accept(u), Deliver(v));
    CountGrows(s.log, Accept(u), Accept(v));
  }

  lemma BackedDeliver(s: State, v: string)
    requires BackedAt(s, v) && Enabled(s, DeliverOutput)
    ensures BackedAt(Apply(s, DeliverOutput), v)
  {
    PipelineStep(s, DeliverOutput);
    CountGrows(s.log, Deliver(s.puller.v), Deliver(v));
    CountGrows(s.log, Deliver(s.puller.v), Accept(v));
    SnocCount(Pipeline(Apply(s, DeliverOutput)), s.puller.v, v);
  }

  lemma BackedAtStep(s: State, step: Step, v: string)
    requires BackedAt(s, v) && Enabled(s, step)
    ensures BackedAt(Apply(s, step), v)
  {
    if step.AcceptInput? {
      BackedAccept(s, step.v, v);
    } else if step.DeliverOutput? {
      BackedDeliver(s, v);
    } else {
      PipelineStep(s, step);
      if step.Decide? { SnocCount(Pipeline(s), s.pusher.v, v); }
    }
  }

  lemma BackedStep(s: State, step: Step)
    requires Backed(s) && Enabled(s, step)
    ensures Backed(Apply(s, step))
  {
    forall v ensures BackedAt(Apply(s, step), v) {
      assert BackedAt(s, v);
      BackedAtStep(s, step, v);
    }
  }

  lemma PrefixCount(p: seq<string>, q: nat, n: nat, v: string)
    requires q <= n <= |p|
    ensures multiset(p[..q])[v] <= multiset(p[..n])[v]
  {
    assert p[..n] == p[..q] + p[q..n];
  }

  lemma AheadShorter(s: State, q: nat, n: nat, i: nat)
    requires q <= n <= |Pipeline(s)| && i <= |s.log| && Ahead(s, n, i)
    ensures Ahead(s, q, i)
  {
    forall v ensures Count(s.log, Deliver(v)) + multiset(Pipeline(s)[..q])[v] <= Count(s.log[..i], Accept(v)) {
      PrefixCount(Pipeline(s), q, n, v);
    }
  }

  /** Steps other than a delivery change nothing about what is ahead. */
  lemma AheadKept(s: State, step: Step, q: nat, i: nat)
    requires Enabled(s, step) && !step.DeliverOutput?
    requires q <= |Pipeline(s)| && i <= |s.log| && Ahead(s, q, i)
    ensures q <= |Pipeline(Apply(s, step))| && Ahead(Apply(s, step), q, i)
  {
    var t := Apply(s, step);
    PipelineStep(s, step);
    assert Pipeline(t)[..q] == Pipeline(s)[..q] && t.log[..i] == s.log[..i];
    forall v ensures Count(t.log, Deliver(v)) + multiset(Pipeline(t)[..q])[v] <= Count(t.log[..i], Accept(v)) {
      if step.AcceptInput? { CountGrows(s.log, Accept(step.v), Deliver(v)); }
    }
  }

  /** A delivery moves the oldest value from the pipeline to what was delivered. */
  lemma AheadDelivered(s: State, q: nat, i: nat)
    requires s.puller.Offering? && 0 < q <= |Pipeline(s)| && i <= |s.log| && Ahead(s, q, i)
    ensures Ahead(Apply(s, DeliverOutput), q - 1, i)
  {
    var t, w := Apply(s, DeliverOutput), s.puller.v;
    PipelineStep(s, DeliverOutput);
    assert Pipeline(s)[..q] == [w] + Pipeline(t)[..q - 1] && t.log[..i] == s.log[..i];
    forall v ensures Count(t.log, Deliver(v)) + multiset(Pipeline(t)[..q - 1])[v] <= Count(t.log[..i], Accept(v)) {
      CountGrows(s.log, Deliver(w), Deliver(v));
      assert multiset(Pipeline(s)[..q])[v] == multiset(Pipeline(t)[..q - 1])[v] + if v == w then 1 else 0;
    }
  }

  /** Where a waiting acceptance stands after a delivery. */
  lemma PlacedDeliver(s: State, i: nat)
    requires s.puller.Offering? && i < |s.log| && Placed(s, i) && s.puller.v != s.log[i].v
    ensures Placed(Apply(s, DeliverOutput), i)
  {
    var t, v := Apply(s, DeliverOutput), s.log[i].v;
    PipelineStep(s, DeliverOutput);
    if q: nat :| Inside(s, q, v) && Ahead(s, q, i) {
      assert Pipeline(s)[0] == s.puller.v;
      AheadDelivered(s, q, i);
      assert Inside(t, q - 1, v);
    } else {
      AheadDelivered(s, |Pipeline(s)|, i);
    }
  }

  /** ... and after the acceptance was decided upon: dropped in favour of a copy inside, or appended. */
  lemma PlacedDecide(s: State, i: nat)
    requires ContentExact(s) && i < |s.log| && s.pusher == Deciding(s.log[i].v) && Ahead(s, |Pipeline(s)|, i)
    ensures Placed(Apply(s, Decide), i)
  {
    var t, v, p := Apply(s, Decide), s.log[i].v, Pipeline(s);
    PipelineStep(s, Decide);
    AheadKept(s, Decide, |p|, i);
    if v in s.content {
      assert v in p;
      var q :| 0 <= q < |p| && p[q] == v;
      AheadShorter(t, q, |p|, i);
      assert Inside(t, q, v);
    } else {
      assert Inside(t, |p|, v);
    }
  }

  lemma PlacedStep(s: State, step: Step, i: nat)
    requires ContentExact(s) && Enabled(s, step) && i < |s.log| && Placed(s, i)
    requires !(step.DeliverOutput? && s.puller.v == s.log[i].v)
    ensures Placed(Apply(s, step), i)
  {
    var t, v := Apply(s, step), s.log[i].v;
    if step.DeliverOutput? {
      PlacedDeliver(s, i);
    } else if q: nat :| Inside(s, q, v) && Ahead(s, q, i) {
      PipelineStep(s, step);
      AheadKept(s, step, q, i);
      assert Inside(t, q, v);
    } else if step.Decide? {
      PlacedDecide(s, i);
    } else {
      PipelineStep(s, step);
      AheadKept(s, step, |Pipeline(s)|, i);
    }
  }

  /** A fresh acceptance has everything inside ahead of it. */
  lemma PlacedFresh(s: State, v: string)
    requires Backed(s) && Enabled(s, AcceptInput(v))
    ensures Placed(Apply(s, AcceptInput(v)), |s.log|)
  {
    var n := |Pipeline(s)|;
    assert Pipeline(s)[..n] == Pipeline(s) && s.log[..|s.log|] == s.log;
    forall u ensures Count(s.log, Deliver(u)) + multiset(Pipeline(s)[..n])[u] <= Count(s.log[..|s.log|], Accept(u)) {
      assert BackedAt(s, u);
    }
    PipelineStep(s, AcceptInput(v));
    AheadKept(s, AcceptInput(v), n, |s.log|);
  }

  lemma QueueingStep(s: State, step: Step)
    requires ContentExact(s) && Backed(s) && Queueing(s) && Enabled(s, step)
    ensures Queueing(Apply(s, step))
  {
    var t := Apply(s, step);
    forall i | 0 <= i < |t.log| && t.log[i].Accept? && !DeliveredAfter(t.log, i) ensures Placed(t, i) {
      if i == |s.log| {
        PlacedFresh(s, step.v);
      } else {
        if step.AcceptInput? {
          DeliveredAfterGrows(s.log, Accept(step.v), i);
        } else if step.DeliverOutput? {
          DeliveredAfterGrows(s.log, Deliver(s.puller.v), i);
        }
        PlacedStep(s, step, i);
      }
    }
  }

  /** A delivery finds the delivered value ahead of every waiting acceptance. */
  lemma DeliveryInTurn(s: State, i: nat)
    requires s.puller.Offering? && i < |s.log| && Placed(s, i) && s.log[i].v != s.puller.v
    ensures Count(s.log, Deliver(s.puller.v)) + 1 <= Count(s.log[..i], Accept(s.puller.v))
  {
    var p, w := Pipeline(s), s.puller.v;
    assert p[0] == w;
    if q: nat :| Inside(s, q, s.log[i].v) && Ahead(s, q, i) {
      assert p[..q][0] == w && w in p[..q];
    } else {
      assert p[..|p|][0] == w && w in p[..|p|];
    }
  }

  lemma OvertakingNow(s: State, i: nat)
    requires Queueing(s) && s.puller.Offering? && i < |s.log| && s.log[i].Accept? && s.log[i].v != s.puller.v
    requires !DeliveredAfter(s.log, i)
    ensures Count(s.log + [Deliver(s.puller.v)], Deliver(s.puller.v)) <= Count(s.log[..i], Accept(s.puller.v))
  {
    DeliveryInTurn(s, i);
    CountGrows(s.log, Deliver(s.puller.v), Deliver(s.puller.v));
  }

  lemma OvertakingStep(s: State, step: Step)
    requires Queueing(s) && NoOvertaking(s.log) && Enabled(s, step)
    ensures NoOvertaking(Apply(s, step).log)
  {
    var log, log' := s.log, Apply(s, step).log;
    forall i, t | && 0 <= i < t < |log'| && log'[i].Accept? && log'[t].Deliver? && log'[t].v != log'[i].v
                  && !DeliveredBetween(log', i, t)
      ensures Count(log'[..t + 1], log'[t]) <= Count(log'[..i], Accept(log'[t].v))
    {
      BetweenKept(log, log', i, t);
      assert log'[..i] == log[..i];
      if t < |log| {
        assert log'[..t + 1] == log[..t + 1];
      } else {
        OvertakingNow(s, i);
        assert log'[..t + 1] == log + [Deliver(s.puller.v)];
      }
    }
  }

  lemma BetweenKept(log: seq<Event>, log': seq<Event>, i: nat, t: nat)
    requires i < t <= |log| && log <= log'
    ensures DeliveredBetween(log, i, t) <==> DeliveredBetween(log', i, t)
  {
    if DeliveredBetween(log, i, t) {
      var j :| i < j < t && log[j] == Deliver(log[i].v);
      assert log'[j] == Deliver(log'[i].v);
    }
    if DeliveredBetween(log', i, t) {
      var j :| i < j < t && log'[j] == Deliver(log'[i].v);
      assert log[j] == Deliver(log[i].v);
    }
  }

  lemma InOrderStep(s: State, step: Step)
    requires ContentExact(s) && InOrder(s) && Enabled(s, step)
    ensures InOrder(Apply(s, step))
  {
    BackedStep(s, step);
    QueueingStep(s, step);
    OvertakingStep(s, step);
  }

  lemma HeadForgotten(v: string, r: seq<string>)
    requires Distinct([v] + r)
    ensures Distinct(r) && (set u | u in [v] + r) - {v} == set u | u in r
  {
    var q := [v] + r;
    assert r == q[1..];
    forall k | 0 <= k < |r| ensures r[k] != v {
      assert q[0] != q[k + 1] && q[k + 1] == r[k];
    }
  }

  lemma ContentStep(s: State, step: Step)
    requires ContentExact(s) && Shutdown(s) && Enabled(s, step)
    ensures ContentExact(Apply(s, step))
  {
    RecordedStep(s, step);
    var r := Recorded(s);
    if step.Forget? {
      HeadForgotten(s.puller.v, Recorded(Apply(s, step)));
    } else if step.Finish? {
      assert r == [];
    } else if step.Decide? && s.pusher.v !in s.content {
      assert s.pusher.v !in r;
      assert Recorded(Apply(s, step)) == r + [s.pusher.v];
    }
  }

  /** What a user of the channel's contents relies on. */
  ghost predicate Sound(s: State) { ContentExact(s) && Shutdown(s) }

  lemma SoundStep(s: State, step: Step)
    requires Sound(s) && Enabled(s, step)
    ensures Sound(Apply(s, step))
  {
    ContentStep(s, step);
  }

  /** What each step does to the values held: only a delivery can release one, and only its own. */
  lemma HoldsStep(s: State, step: Step, v: string)
    requires ContentExact(s) && Enabled(s, step)
    ensures var t := Apply(s, step);
            && (step == AcceptInput(v) ==> Holds(t, v))
            && (Holds(s, v) && !(step.DeliverOutput? && s.puller.v == v) ==> Holds(t, v))
  {
    PipelineStep(s, step);
  }

  lemma NothingLostStep(s: State, step: Step)
    requires ContentExact(s) && NothingLost(s) && Enabled(s, step)
    ensures NothingLost(Apply(s, step))
  {
    var t := Apply(s, step);
    if step.AcceptInput? {
      LogGrows(s.log, Accept(step.v));
    } else if step.DeliverOutput? {
      LogGrows(s.log, Deliver(s.puller.v));
    }
    forall v | v in Owed(t.log) ensures Holds(t, v) {
      HoldsStep(s, step, v);
    }
  }

  lemma InvStep(s: State, step: Step)
    requires Inv(s) && Enabled(s, step)
    ensures Inv(Apply(s, step))
  {
    ContentStep(s, step);
    FifoStep(s, step);
    InOrderStep(s, step);
    NothingLostStep(s, step);
  }

  lemma {:induction false} InvRun(s: State, steps: seq<Step>)
    requires Inv(s) && IsRun(s, steps)
    ensures Inv(Final(s, steps))
    decreases |steps|
  {
    if steps != [] {
      InvStep(s, steps[0]);
      InvRun(Apply(s, steps[0]), steps[1..]);
    }
  }

  // ----- Main results -----

  /** No interleaving loses a wakeup: an accepted value is delivered later or is still inside. */
  lemma NoLostWakeup(capacity: nat, steps: seq<Step>)
    requires IsRun(Init(capacity), steps)
    ensures var s := Final(Init(capacity), steps);
            forall i :: 0 <= i < |s.log| && s.log[i].Accept? ==> DeliveredAfter(s.log, i) || Holds(s, s.log[i].v)
  {
    InvRun(Init(capacity), steps);
    var s := Final(Init(capacity), steps);
    forall i | 0 <= i < |s.log| && s.log[i].Accept? && !DeliveredAfter(s.log, i)
      ensures Holds(s, s.log[i].v)
    {
      OwedMeaning(s.log, s.log[i].v);
    }
  }

  /** The set is exactly what is recorded and stays within two of the buffer size. */
  lemma ContentBounded(capacity: nat, steps: seq<Step>)
    requires IsRun(Init(capacity), steps)
    ensures var s := Final(Init(capacity), steps);
            s.content == (set v | v in Recorded(s)) && |s.content| <= capacity + 2
  {
    InvRun(Init(capacity), steps);
    var s := Final(Init(capacity), steps);
    CapacityFixed(Init(capacity), steps);
    SeqSetSize(Recorded(s));
  }

  lemma {:induction false} CapacityFixed(s: State, steps: seq<Step>)
    requires IsRun(s, steps)
    ensures Final(s, steps).capacity == s.capacity
    decreases |steps|
  {
    if steps != [] {
      CapacityFixed(Apply(s, steps[0]), steps[1..]);
    }
  }

  lemma {:induction false} SeqSetSize(q: seq<string>)
    ensures |set v | v in q| <= |q|
  {
    if q != [] {
      var rest := q[..|q| - 1];
      SeqSetSize(rest);
      assert q == rest + [q[|q| - 1]];
      assert (set v | v in q) == (set v | v in rest) + {q[|q| - 1]};
    }
  }

  /**
  No value ever has three copies on their way to the output.  Where there are two, a further one
  that the pusher has just received is going to be dropped, since the set holds the value.
  */
  lemma AtMostTwoCopies(capacity: nat, steps: seq<Step>, v: string)
    requires IsRun(Init(capacity), steps)
    ensures var s := Final(Init(capacity), steps);
            && multiset(Pipeline(s))[v] <= 2
            && (multiset(Pipeline(s))[v] == 2 ==> v in s.content)
  {
    InvRun(Init(capacity), steps);
    var s := Final(Init(capacity), steps);
    DistinctOnce(Recorded(s), v);
  }

  lemma {:induction false} DistinctOnce(q: seq<string>, v: string)
    requires Distinct(q)
    ensures multiset(q)[v] <= 1
  {
    if q != [] {
      var rest := q[..|q| - 1];
      DistinctOnce(rest, v);
      assert q == rest + [q[|q| - 1]];
      if q[|q| - 1] == v {
        assert v !in rest;
      }
    }
  }

  /** Outputs are acceptances in acceptance order, and no value overtakes one that was accepted before it. */
  lemma OutputsKeepOrder(capacity: nat, steps: seq<Step>)
    requires IsRun(Init(capacity), steps)
    ensures var s := Final(Init(capacity), steps);
            Subsequence(Delivered(s.log), Accepted(s.log)) && NoOvertaking(s.log)
  {
    InvRun(Init(capacity), steps);
    var s := Final(Init(capacity), steps);
    SubsequencePrefix(Delivered(s.log), Pipeline(s), Settled(s));
  }

  /** For instance b, accepted after a, does not come out first, although a is accepted again after b. */
  lemma OvertakingExample(capacity: nat, steps: seq<Step>, a: string, b: string)
    requires a != b && IsRun(Init(capacity), steps)
    ensures Final(Init(capacity), steps).log != [Accept(a), Accept(b), Accept(a), Deliver(b), Deliver(a)]
  {
    OutputsKeepOrder(capacity, steps);
    var log := [Accept(a), Accept(b), Accept(a), Deliver(b), Deliver(a)];
    assert !NoOvertaking(log) by {
      assert !DeliveredBetween(log, 0, 3);
      assert log[..4] == [Accept(a), Accept(b), Accept(a), Deliver(b)];
      assert Count(log[..4], Deliver(b)) == 1 && Count(log[..0], Accept(b)) == 0;
      assert log[3] == Deliver(b) && log[0] == Accept(a);
    }
  }

  lemma {:induction false} SubsequencePrefix(a: seq<string>, x: seq<string>, b: seq<string>)
    requires Subsequence(a + x, b)
    ensures Subsequence(a, b)
    decreases |b|
  {
    if x == [] {
      assert a + x == a;
    } else if a != [] && b != [] {
      var ax, b' := a + x, b[..|b| - 1];
      assert ax[..|ax| - 1] == a + x[..|x| - 1];
      if Subsequence(ax, b') {
        SubsequencePrefix(a, x, b');
      } else {
        SubsequencePrefix(a, x[..|x| - 1], b');
      }
    }
  }

  // ----- Draining after Close -----

  function Measure(s: State): nat {
    (match s.pusher case Deciding(_) => 7 case Sending(_) => 6 case Waiting => 1 case Done => 0)
    + 4 * |s.buffer|
    + (match s.puller
       case Pulled(_) => 5 case Offering(_) => 4 case Listening => 2 case Drained => 1 case Finished => 0)
  }

  /** A step that can be taken next, whatever the reader of the output does except reading. */
  function NextStep(s: State): (step: Step)
    requires s.inputClosed && !s.puller.Finished? && Shutdown(s)
    ensures Enabled(s, step)
  {
    match s.puller
    case Pulled(_) => Forget
    case Offering(_) => DeliverOutput
    case Drained => Finish
    case Listening =>
      if s.buffer != [] then Dequeue
      else match s.pusher
      case Waiting => StopPushing
      case Deciding(_) => Decide
      case Sending(_) => Handoff
      case Done => SeeClosed
  }

  lemma MeasureDecreases(s: State, step: Step)
    requires s.inputClosed && Enabled(s, step)
    ensures Apply(s, step).inputClosed && Measure(Apply(s, step)) < Measure(s)
  {
  }

  /** After Close every run is bounded, and one that cannot continue has delivered everything accepted. */
  lemma {:induction false} Drains(s: State, steps: seq<Step>)
    requires Inv(s) && s.inputClosed && IsRun(s, steps)
    ensures |steps| <= Measure(s)
    ensures var t := Final(s, steps);
            (forall step :: !Enabled(t, step)) ==>
            t.puller.Finished? && t.content == {} && Owed(t.log) == {}
    decreases |steps|
  {
    if steps == [] {
      if forall step :: !Enabled(s, step) {
        assert s.puller.Finished? by {
          if !s.puller.Finished? { var _ := NextStep(s); }
        }
        assert Pipeline(s) == [];
      }
    } else {
      InvStep(s, steps[0]);
      MeasureDecreases(s, steps[0]);
      Drains(Apply(s, steps[0]), steps[1..]);
    }
  }
}
