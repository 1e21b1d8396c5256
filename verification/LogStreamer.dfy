/**
Non-follow log forwarding (internal/registry/logstreamer.go): one reader goroutine per pod
sends lines on a bounded channel, decrements the atomic counter nWatch at the end of its
stream and then sends nil; the forwarder writes the lines that pass the filter and leaves
once it has received something while the counter was zero, after draining the channel.
The client neither closes the connection nor fails a write.
*/
module LogStreamer {

  import opened Wrappers

  /** A line as sent by the reader of pod number `pod`. */
  datatype Line = Line(pod: nat, text: string)

  /** What travels on `cs.c`. */
  datatype Item = Nil | Sent(line: Line)

  datatype Reader =
    | Unborn
    | Reading(rest: seq<string>)   // lines its stream still yields
    | Waking                       // counter decremented, nil not sent yet
    | Gone

  datatype Forwarder =
    | Starting(next: nat)          // in getPods, about to open the stream of pod `next`
    | AtSelect
    | Got                          // handled an item, about to load the counter
    | Draining
    | Returned
    | EarlyReturned                // ServeHTTP answered "does not exist or has no running pods"

  /** One request: the pods' streams (None: GetLogs failed), the channel size and the filter. */
  datatype Job = Job(streams: seq<Option<seq<string>>>, capacity: nat, keep: Line -> bool)

  datatype State = State(
    readers: seq<Reader>,
    nWatch: int,
    chan: seq<Item>,
    forwarder: Forwarder,
    received: seq<Line>,
    written: seq<Line>)

  datatype Step = Spawn | Check | Send(i: nat) | Eof(i: nat) | Wake(i: nat) | Receive | Load | DrainOne | DrainEnd

  function Init(job: Job): State {
    State(seq(|job.streams|, _ => Unborn), 0, [], Starting(0), [], [])
  }

  predicate Enabled(job: Job, s: State, step: Step) {
    match step
    case Spawn => s.forwarder.Starting? && s.forwarder.next < |job.streams| == |s.readers|
    case Check => s.forwarder == Starting(|job.streams|)
    case Send(i) => i < |s.readers| && s.readers[i].Reading? && s.readers[i].rest != [] && |s.chan| < job.capacity
    case Eof(i) => i < |s.readers| && s.readers[i] == Reading([])
    case Wake(i) => i < |s.readers| && s.readers[i].Waking? && |s.chan| < job.capacity
    case Receive => s.forwarder.AtSelect? && s.chan != []
    case Load => s.forwarder.Got?
    case DrainOne => s.forwarder.Draining? && s.chan != []
    case DrainEnd => s.forwarder.Draining? && s.chan == []
  }

  /** Take the oldest item; write it unless it is nil or filtered out. */
  function Forward(job: Job, s: State): State
    requires s.chan != []
  {
    match s.chan[0]
    case Nil => s.(chan := s.chan[1..])
    case Sent(line) =>
      s.(chan := s.chan[1..],
         received := s.received + [line],
         written := if job.keep(line) then s.written + [line] else s.written)
  }

  function Apply(job: Job, s: State, step: Step): State
    requires Enabled(job, s, step)
  {
    match step
    case Spawn =>
      var k := s.forwarder.next;
      match job.streams[k] {
        case None => s.(readers := s.readers[k := Gone], forwarder := Starting(k + 1))
        case Some(lines) =>
          s.(readers := s.readers[k := Reading(lines)], nWatch := s.nWatch + 1, forwarder := Starting(k + 1))
      }
    case Check => s.(forwarder := if s.nWatch == 0 then EarlyReturned else AtSelect)
    case Send(i) =>
      var rest := s.readers[i].rest;
      s.(readers := s.readers[i := Reading(rest[1..])], chan := s.chan + [Sent(Line(i, rest[0]))])
    case Eof(i) => s.(readers := s.readers[i := Waking], nWatch := s.nWatch - 1)
    case Wake(i) => s.(readers := s.readers[i := Gone], chan := s.chan + [Nil])
    case Receive => Forward(job, s).(forwarder := Got)
    case Load => s.(forwarder := if s.nWatch == 0 then Draining else AtSelect)
    case DrainOne => Forward(job, s)
    case DrainEnd => s.(forwarder := Returned)
  }

  predicate IsRun(job: Job, s: State, steps: seq<Step>)
    decreases |steps|
  {
    steps == [] || (Enabled(job, s, steps[0]) && IsRun(job, Apply(job, s, steps[0]), steps[1..]))
  }

  function Final(job: Job, s: State, steps: seq<Step>): State
    requires IsRun(job, s, steps)
    decreases |steps|
  {
    if steps == [] then s else Final(job, Apply(job, s, steps[0]), steps[1..])
  }

  // ----- What should be written -----

  /** The lines pod `i` contributes: those its reader sends. */
  function Expected(job: Job, i: nat): seq<string>
    requires i < |job.streams|
  {
    match job.streams[i] case None => [] case Some(lines) => lines
  }

  /** The texts of pod `i`, in order. */
  function Of(i: nat, lines: seq<Line>): seq<string> {
    if lines == [] then []
    else
      var before := Of(i, lines[..|lines| - 1]);
      if lines[|lines| - 1].pod == i then before + [lines[|lines| - 1].text] else before
  }

  function Kept(keep: Line -> bool, lines: seq<Line>): seq<Line> {
    if lines == [] then []
    else
      var before := Kept(keep, lines[..|lines| - 1]);
      if keep(lines[|lines| - 1]) then before + [lines[|lines| - 1]] else before
  }

  function KeptTexts(keep: Line -> bool, i: nat, texts: seq<string>): seq<string> {
    if texts == [] then []
    else
      var before := KeptTexts(keep, i, texts[..|texts| - 1]);
      if keep(Line(i, texts[|texts| - 1])) then before + [texts[|texts| - 1]] else before
  }

  /** The lines on the channel. */
  function Lines(chan: seq<Item>): seq<Line> {
    if chan == [] then []
    else
      var before := Lines(chan[..|chan| - 1]);
      match chan[|chan| - 1] case Nil => before case Sent(line) => before + [line]
  }

  /** Every pod's kept lines are written exactly once and in order, and nothing else is. */
  ghost predicate Complete(job: Job, written: seq<Line>) {
    && (forall i :: 0 <= i < |job.streams| ==> Of(i, written) == KeptTexts(job.keep, i, Expected(job, i)))
    && (forall k :: 0 <= k < |written| ==> written[k].pod < |job.streams|)
  }

  lemma OfSnoc(i: nat, lines: seq<Line>, line: Line)
    ensures Of(i, lines + [line]) == if line.pod == i then Of(i, lines) + [line.text] else Of(i, lines)
  {
    assert (lines + [line])[..|lines|] == lines;
  }

  lemma KeptSnoc(keep: Line -> bool, lines: seq<Line>, line: Line)
    ensures Kept(keep, lines + [line]) == if keep(line) then Kept(keep, lines) + [line] else Kept(keep, lines)
  {
    assert (lines + [line])[..|lines|] == lines;
  }

  lemma LinesSnoc(chan: seq<Item>, item: Item)
    ensures Lines(chan + [item]) == match item case Nil => Lines(chan) case Sent(line) => Lines(chan) + [line]
  {
    assert (chan + [item])[..|chan|] == chan;
  }

  lemma {:induction false} LinesHead(chan: seq<Item>)
    requires chan != []
    ensures Lines(chan) == (if chan[0].Sent? then [chan[0].line] else []) + Lines(chan[1..])
  {
    var n := |chan| - 1;
    if n == 0 {
      assert chan[..0] == [] && chan[1..] == [];
    } else {
      LinesHead(chan[..n]);
      assert chan[..n][1..] == chan[1..][..n - 1];
      LinesSnoc(chan[1..][..n - 1], chan[n]);
      assert chan[1..] == chan[1..][..n - 1] + [chan[n]];
    }
  }

  /** Filtering and taking one pod's lines commute. */
  lemma {:induction false} KeptOf(keep: Line -> bool, i: nat, lines: seq<Line>)
    ensures Of(i, Kept(keep, lines)) == KeptTexts(keep, i, Of(i, lines))
  {
    if lines != [] {
      var before, last := lines[..|lines| - 1], lines[|lines| - 1];
      KeptOf(keep, i, before);
      OfSnoc(i, Kept(keep, before), last);
      var texts := Of(i, before);
      assert (texts + [last.text])[..|texts|] == texts;
      assert last.pod == i ==> Line(i, last.text) == last;
    }
  }

  // ----- Sums over the readers -----

  function Sum(readers: seq<Reader>, weigh: Reader -> nat): nat {
    if readers == [] then 0 else weigh(readers[0]) + Sum(readers[1..], weigh)
  }

  lemma {:induction false} SumUpdate(readers: seq<Reader>, i: nat, r: Reader, weigh: Reader -> nat)
    requires i < |readers|
    ensures Sum(readers[i := r], weigh) + weigh(readers[i]) == Sum(readers, weigh) + weigh(r)
  {
    if i > 0 {
      SumUpdate(readers[1..], i - 1, r, weigh);
      assert readers[i := r][1..] == readers[1..][i - 1 := r];
    } else {
      assert readers[0 := r][1..] == readers[1..];
    }
  }

  lemma {:induction false} SumPositive(readers: seq<Reader>, weigh: Reader -> nat) returns (i: nat)
    requires Sum(readers, weigh) > 0
    ensures i < |readers| && weigh(readers[i]) > 0
  {
    if weigh(readers[0]) > 0 {
      i := 0;
    } else {
      i := SumPositive(readers[1..], weigh);
      i := i + 1;
    }
  }

  lemma {:induction false} SumZero(readers: seq<Reader>, weigh: Reader -> nat, i: nat)
    requires Sum(readers, weigh) == 0 && i < |readers|
    ensures weigh(readers[i]) == 0
  {
    if i > 0 {
      SumZero(readers[1..], weigh, i - 1);
    }
  }

  function CountsReading(r: Reader): nat { if r.Reading? then 1 else 0 }

  // ----- The inductive invariant -----

  function Rest(job: Job, s: State, i: nat): seq<string>
    requires i < |s.readers| == |job.streams|
  {
    match s.readers[i]
    case Unborn => Expected(job, i)
    case Reading(rest) => rest
    case _ => []
  }

  /** Received, then on the channel, then still to come: together the pod's stream. */
  ghost predicate Conserved(job: Job, s: State) {
    && |s.readers| == |job.streams|
    && (forall i :: 0 <= i < |s.readers| ==>
          Of(i, s.received + Lines(s.chan)) + Rest(job, s, i) == Expected(job, i))
    && (forall k :: 0 <= k < |s.received + Lines(s.chan)| ==> (s.received + Lines(s.chan))[k].pod < |job.streams|)
  }

  ghost predicate Counted(s: State) {
    s.nWatch == Sum(s.readers, CountsReading)
  }

  /** While the forwarder waits and the counter is zero, a wakeup is on its way. */
  ghost predicate WakeupComing(s: State) {
    s.forwarder.AtSelect? && s.nWatch == 0 ==> s.chan != [] || exists i :: 0 <= i < |s.readers| && s.readers[i].Waking?
  }

  /** getPods opens the streams in order, before anything else. */
  ghost predicate Births(job: Job, s: State) {
    && |s.readers| == |job.streams|
    && (s.forwarder.Starting? ==> s.forwarder.next <= |s.readers|)
    && (forall i :: 0 <= i < |s.readers| ==> (s.readers[i].Unborn? <==> s.forwarder.Starting? && s.forwarder.next <= i))
  }

  ghost predicate Phases(s: State) {
    && (s.forwarder.Draining? || s.forwarder.Returned? || s.forwarder.EarlyReturned? ==> s.nWatch == 0)
    && (s.forwarder.Returned? ==> Lines(s.chan) == [])
    && (s.forwarder.Starting? || s.forwarder.EarlyReturned? ==> s.received == [])
  }

  ghost predicate Inv(job: Job, s: State) {
    Conserved(job, s) && Counted(s) && WakeupComing(s) && Births(job, s) && Phases(s)
        && s.written == Kept(job.keep, s.received)
  }

  lemma ConservedSend(job: Job, s: State, i: nat)
    requires Conserved(job, s) && Enabled(job, s, Send(i))
    ensures Conserved(job, Apply(job, s, Send(i)))
  {
    var t := Apply(job, s, Send(i));
    var rest := s.readers[i].rest;
    var line := Line(i, rest[0]);
    var q := s.received + Lines(s.chan);
    LinesSnoc(s.chan, Sent(line));
    assert t.received + Lines(t.chan) == q + [line];
    forall j | 0 <= j < |t.readers|
      ensures Of(j, q + [line]) + Rest(job, t, j) == Expected(job, j)
    {
      OfSnoc(j, q, line);
      if j == i {
        assert Of(i, q) + [rest[0]] + rest[1..] == Of(i, q) + rest;
      }
    }
  }

  lemma ForwardMoves(job: Job, s: State)
    requires s.chan != []
    ensures var t := Forward(job, s);
            t.readers == s.readers && t.received + Lines(t.chan) == s.received + Lines(s.chan)
  {
    LinesHead(s.chan);
  }

  lemma ConservedForward(job: Job, s: State)
    requires Conserved(job, s) && s.chan != []
    ensures Conserved(job, Forward(job, s))
  {
    var t := Forward(job, s);
    ForwardMoves(job, s);
    forall i | 0 <= i < |t.readers| ensures Of(i, t.received + Lines(t.chan)) + Rest(job, t, i) == Expected(job, i) {
      assert Rest(job, t, i) == Rest(job, s, i);
    }
  }

  lemma ConservedQuiet(job: Job, s: State, step: Step)
    requires Conserved(job, s) && Births(job, s) && Enabled(job, s, step)
    requires !step.Send? && !step.Receive? && !step.DrainOne?
    ensures Conserved(job, Apply(job, s, step))
  {
    var t := Apply(job, s, step);
    if step.Wake? {
      LinesSnoc(s.chan, Nil);
    }
    assert t.received == s.received && Lines(t.chan) == Lines(s.chan);
    forall i | 0 <= i < |s.readers| ensures Rest(job, t, i) == Rest(job, s, i) {
    }
  }

  lemma ConservedStep(job: Job, s: State, step: Step)
    requires Conserved(job, s) && Births(job, s) && Enabled(job, s, step)
    ensures Conserved(job, Apply(job, s, step))
  {
    match step
    case Send(i) => ConservedSend(job, s, i);
    case Receive => ConservedForward(job, s);
    case DrainOne => ConservedForward(job, s);
    case _ => ConservedQuiet(job, s, step);
  }

  lemma CountedStep(job: Job, s: State, step: Step)
    requires Counted(s) && Births(job, s) && Enabled(job, s, step)
    ensures Counted(Apply(job, s, step))
  {
    var t := Apply(job, s, step);
    match step
    case Spawn => SumUpdate(s.readers, s.forwarder.next, t.readers[s.forwarder.next], CountsReading);
    case Send(i) => SumUpdate(s.readers, i, t.readers[i], CountsReading);
    case Eof(i) => SumUpdate(s.readers, i, t.readers[i], CountsReading);
    case Wake(i) => SumUpdate(s.readers, i, t.readers[i], CountsReading);
    case _ =>
  }

  lemma WakeupStep(job: Job, s: State, step: Step)
    requires Counted(s) && WakeupComing(s) && Enabled(job, s, step)
    ensures WakeupComing(Apply(job, s, step))
  {
    var t := Apply(job, s, step);
    match step
    case Eof(i) => assert t.readers[i].Waking?;
    case Send(i) =>
    case Wake(i) =>
    case _ => assert t.forwarder.AtSelect? && t.nWatch == 0 ==> t == s || step.Spawn?;
  }

  lemma BirthsStep(job: Job, s: State, step: Step)
    requires Births(job, s) && Enabled(job, s, step)
    ensures Births(job, Apply(job, s, step))
  {
  }

  lemma PhasesStep(job: Job, s: State, step: Step)
    requires Counted(s) && Phases(s) && Enabled(job, s, step)
    ensures Phases(Apply(job, s, step))
  {
    match step
    case Send(i) => if s.nWatch == 0 { SumZero(s.readers, CountsReading, i); }
    case Eof(i) => if s.nWatch == 0 { SumZero(s.readers, CountsReading, i); }
    case Wake(i) => LinesSnoc(s.chan, Nil);
    case _ =>
  }

  lemma InvStep(job: Job, s: State, step: Step)
    requires Inv(job, s) && Enabled(job, s, step)
    ensures Inv(job, Apply(job, s, step))
  {
    ConservedStep(job, s, step);
    CountedStep(job, s, step);
    WakeupStep(job, s, step);
    BirthsStep(job, s, step);
    PhasesStep(job, s, step);
    if (step.Receive? || step.DrainOne?) && s.chan[0].Sent? {
      KeptSnoc(job.keep, s.received, s.chan[0].line);
    }
  }

  lemma {:induction false} NothingCounted(readers: seq<Reader>)
    requires forall i :: 0 <= i < |readers| ==> readers[i].Unborn?
    ensures Sum(readers, CountsReading) == 0
  {
    if readers != [] {
      NothingCounted(readers[1..]);
    }
  }

  lemma InvInit(job: Job)
    ensures Inv(job, Init(job))
  {
    var s := Init(job);
    NothingCounted(s.readers);
    assert s.received + Lines(s.chan) == [];
    forall i | 0 <= i < |s.readers|
      ensures Of(i, []) + Rest(job, s, i) == Expected(job, i)
    {
      assert [] + Expected(job, i) == Expected(job, i);
    }
  }

  lemma {:induction false} InvRun(job: Job, s: State, steps: seq<Step>)
    requires Inv(job, s) && IsRun(job, s, steps)
    ensures Inv(job, Final(job, s, steps))
    decreases |steps|
  {
    if steps != [] {
      InvStep(job, s, steps[0]);
      InvRun(job, Apply(job, s, steps[0]), steps[1..]);
    }
  }

  lemma {:induction false} KeptPods(keep: Line -> bool, lines: seq<Line>, n: nat)
    requires forall k :: 0 <= k < |lines| ==> lines[k].pod < n
    ensures forall k :: 0 <= k < |Kept(keep, lines)| ==> Kept(keep, lines)[k].pod < n
  {
    if lines != [] {
      KeptPods(keep, lines[..|lines| - 1], n);
    }
  }

  // ----- Main results -----

  /** When forwardLogs returns, every kept line of every reader is written once, in per-pod order. */
  lemma ForwardsEverything(job: Job, steps: seq<Step>)
    requires IsRun(job, Init(job), steps)
    requires Final(job, Init(job), steps).forwarder.Returned?
    ensures Complete(job, Final(job, Init(job), steps).written)
  {
    InvInit(job);
    InvRun(job, Init(job), steps);
    var s := Final(job, Init(job), steps);
    assert s.received + Lines(s.chan) == s.received;
    forall i | 0 <= i < |job.streams|
      ensures Of(i, s.written) == KeptTexts(job.keep, i, Expected(job, i))
    {
      SumZero(s.readers, CountsReading, i);
      assert Rest(job, s, i) == [];
      assert Of(i, s.received) == Expected(job, i);
      KeptOf(job.keep, i, s.received);
    }
    KeptPods(job.keep, s.received, |job.streams|);
  }

  function Weight(r: Reader): nat {
    match r
    case Unborn => 1
    case Reading(rest) => 3 * |rest| + 4
    case Waking => 3
    case Gone => 0
  }

  /** What opening the streams from pod `k` on will add. */
  function Unopened(job: Job, k: nat): nat
    decreases |job.streams| - k
  {
    if k >= |job.streams| then 0 else 3 * |Expected(job, k)| + 5 + Unopened(job, k + 1)
  }

  function Measure(job: Job, s: State): nat {
    Sum(s.readers, Weight) + 2 * |s.chan| +
    match s.forwarder
    case Starting(k) => 3 + Unopened(job, k)
    case AtSelect => 2
    case Got => 3
    case Draining => 1
    case Returned => 0
    case EarlyReturned => 0
  }

  lemma ReaderMeasure(job: Job, s: State, step: Step)
    requires Inv(job, s) && Enabled(job, s, step) && (step.Send? || step.Eof? || step.Wake?)
    ensures Measure(job, Apply(job, s, step)) < Measure(job, s)
  {
    SumUpdate(s.readers, step.i, Apply(job, s, step).readers[step.i], Weight);
  }

  lemma SpawnMeasure(job: Job, s: State)
    requires Births(job, s) && Enabled(job, s, Spawn)
    ensures Measure(job, Apply(job, s, Spawn)) < Measure(job, s)
  {
    SumUpdate(s.readers, s.forwarder.next, Apply(job, s, Spawn).readers[s.forwarder.next], Weight);
  }

  lemma MeasureDecreases(job: Job, s: State, step: Step)
    requires Inv(job, s) && Enabled(job, s, step)
    ensures Measure(job, Apply(job, s, step)) < Measure(job, s)
  {
    if step.Send? || step.Eof? || step.Wake? {
      ReaderMeasure(job, s, step);
    } else if step.Spawn? {
      SpawnMeasure(job, s);
    }
  }

  /** Until the request ends some goroutine can step. */
  lemma NeverStuck(job: Job, s: State) returns (step: Step)
    requires Inv(job, s) && job.capacity > 0
    requires !s.forwarder.Returned? && !s.forwarder.EarlyReturned?
    ensures Enabled(job, s, step)
  {
    match s.forwarder
    case Starting(k) => step := if k < |job.streams| then Spawn else Check;
    case Got => step := Load;
    case Draining => step := if s.chan != [] then DrainOne else DrainEnd;
    case AtSelect =>
      if s.chan != [] {
        step := Receive;
      } else if s.nWatch == 0 {
        var i :| 0 <= i < |s.readers| && s.readers[i].Waking?;
        step := Wake(i);
      } else {
        var i := SumPositive(s.readers, CountsReading);
        step := if s.readers[i].rest == [] then Eof(i) else Send(i);
      }
  }

  lemma {:induction false} RunBounded(job: Job, s: State, steps: seq<Step>)
    requires Inv(job, s) && IsRun(job, s, steps)
    ensures |steps| <= Measure(job, s)
    decreases |steps|
  {
    if steps != [] {
      InvStep(job, s, steps[0]);
      MeasureDecreases(job, s, steps[0]);
      RunBounded(job, Apply(job, s, steps[0]), steps[1..]);
    }
  }

  /** Every run is bounded, and one that cannot be continued has ended the request. */
  lemma ForwardingTerminates(job: Job, steps: seq<Step>)
    requires job.capacity > 0 && IsRun(job, Init(job), steps)
    ensures |steps| <= Measure(job, Init(job))
    ensures var s := Final(job, Init(job), steps);
            (forall step :: !Enabled(job, s, step)) ==> s.forwarder.Returned? || s.forwarder.EarlyReturned?
  {
    InvInit(job);
    InvRun(job, Init(job), steps);
    RunBounded(job, Init(job), steps);
    var s := Final(job, Init(job), steps);
    if !s.forwarder.Returned? && !s.forwarder.EarlyReturned? {
      var step := NeverStuck(job, s);
    }
  }

  /**
  The check before forwardLogs gives up exactly when no reader is still reading, which includes
  readers that were fast enough to finish; it then writes nothing, so it is right exactly when
  no pod has a line to keep.
  */
  lemma EarlyReturnExact(job: Job, steps: seq<Step>)
    requires IsRun(job, Init(job), steps)
    requires Enabled(job, Final(job, Init(job), steps), Check)
    ensures var s := Final(job, Init(job), steps);
            var t := Apply(job, s, Check);
            && (t.forwarder.EarlyReturned? <==> forall i :: 0 <= i < |s.readers| ==> !s.readers[i].Reading?)
            && (t.forwarder.EarlyReturned? ==>
                  t.written == [] &&
                  (Complete(job, t.written) <==>
                   forall i :: 0 <= i < |job.streams| ==> KeptTexts(job.keep, i, Expected(job, i)) == []))
  {
    InvInit(job);
    InvRun(job, Init(job), steps);
    var s := Final(job, Init(job), steps);
    if s.nWatch == 0 {
      forall i | 0 <= i < |s.readers| ensures !s.readers[i].Reading? {
        SumZero(s.readers, CountsReading, i);
      }
      assert forall i: nat :: Of(i, []) == [];
      assert forall i :: 0 <= i < |job.streams| ==> Of(i, s.written) == [];
    } else {
      var i := SumPositive(s.readers, CountsReading);
      assert s.readers[i].Reading?;
    }
  }

  // ----- Which requests can lose lines to the early return -----

  /** The lines of the first `n` pods, all together. */
  function Total(job: Job, n: nat): nat
    requires n <= |job.streams|
  {
    if n == 0 then 0 else Total(job, n - 1) + |Expected(job, n - 1)|
  }

  function TotalOf(n: nat, lines: seq<Line>): nat {
    if n == 0 then 0 else TotalOf(n - 1, lines) + |Of(n - 1, lines)|
  }

  lemma {:induction false} TotalOfSnoc(n: nat, lines: seq<Line>, line: Line)
    ensures TotalOf(n, lines + [line]) == TotalOf(n, lines) + if line.pod < n then 1 else 0
  {
    if n > 0 {
      TotalOfSnoc(n - 1, lines, line);
      OfSnoc(n - 1, lines, line);
    }
  }

  lemma {:induction false} TotalOfNothing(n: nat)
    ensures TotalOf(n, []) == 0
  {
    if n > 0 { TotalOfNothing(n - 1); }
  }

  /** Every line belongs to one pod. */
  lemma {:induction false} TotalOfAll(n: nat, lines: seq<Line>)
    requires forall k :: 0 <= k < |lines| ==> lines[k].pod < n
    ensures TotalOf(n, lines) == |lines|
  {
    if lines == [] {
      TotalOfNothing(n);
    } else {
      var before, last := lines[..|lines| - 1], lines[|lines| - 1];
      TotalOfAll(n, before);
      TotalOfSnoc(n, before, last);
      assert lines == before + [last];
    }
  }

  lemma {:induction false} TotalCompares(job: Job, n: nat, lines: seq<Line>)
    requires n <= |job.streams| && forall i :: 0 <= i < n ==> |Of(i, lines)| <= |Expected(job, i)|
    ensures TotalOf(n, lines) <= Total(job, n)
    ensures (exists i :: 0 <= i < n && |Of(i, lines)| < |Expected(job, i)|) <==> TotalOf(n, lines) < Total(job, n)
  {
    if n > 0 { TotalCompares(job, n - 1, lines); }
  }

  /** Lines sent and not received, against the pods' streams. */
  lemma ChannelTotal(job: Job, s: State)
    requires Conserved(job, s) && s.received == []
    ensures |Lines(s.chan)| <= Total(job, |job.streams|)
    ensures (exists i :: 0 <= i < |s.readers| && Rest(job, s, i) != []) <==> |Lines(s.chan)| < Total(job, |job.streams|)
  {
    var n, lines := |job.streams|, Lines(s.chan);
    assert s.received + lines == lines;
    forall i | 0 <= i < n ensures |Of(i, lines)| + |Rest(job, s, i)| == |Expected(job, i)| {
      assert Of(i, lines) + Rest(job, s, i) == Expected(job, i);
    }
    TotalOfAll(n, lines);
    TotalCompares(job, n, lines);
    if i :| 0 <= i < |s.readers| && Rest(job, s, i) != [] {
      assert |Of(i, lines)| < |Expected(job, i)|;
    }
  }

  lemma {:induction false} LinesLength(chan: seq<Item>)
    ensures |Lines(chan)| <= |chan|
  {
    if chan != [] { LinesLength(chan[..|chan| - 1]); }
  }

  lemma {:induction false} ChannelBounded(job: Job, s: State, steps: seq<Step>)
    requires IsRun(job, s, steps) && |s.chan| <= job.capacity
    ensures |Final(job, s, steps).chan| <= job.capacity
    decreases |steps|
  {
    if steps != [] { ChannelBounded(job, Apply(job, s, steps[0]), steps[1..]); }
  }

  /** The next step of a run in which every reader finishes before the check. */
  lemma FastStep(job: Job, s: State) returns (step: Step)
    requires Inv(job, s) && s.forwarder.Starting? && |Lines(s.chan)| == |s.chan|
             && Total(job, |job.streams|) <= job.capacity
    ensures Enabled(job, s, step)
    ensures var t := Apply(job, s, step);
            t.forwarder.EarlyReturned? || (t.forwarder.Starting? && |Lines(t.chan)| == |t.chan|)
  {
    if s.forwarder.next < |job.streams| {
      step := Spawn;
    } else if s.nWatch == 0 {
      step := Check;
    } else {
      var i := SumPositive(s.readers, CountsReading);
      if s.readers[i].rest == [] {
        step := Eof(i);
      } else {
        step := Send(i);
        assert Rest(job, s, i) != [];
        ChannelTotal(job, s);
        LinesSnoc(s.chan, Sent(Line(i, s.readers[i].rest[0])));
      }
    }
  }

  lemma {:induction false} FastRun(job: Job, s: State) returns (steps: seq<Step>)
    requires Inv(job, s) && s.forwarder.Starting? && |Lines(s.chan)| == |s.chan|
             && Total(job, |job.streams|) <= job.capacity
    ensures IsRun(job, s, steps) && Final(job, s, steps).forwarder.EarlyReturned?
    decreases Measure(job, s)
  {
    var step := FastStep(job, s);
    var t := Apply(job, s, step);
    InvStep(job, s, step);
    MeasureDecreases(job, s, step);
    var rest: seq<Step> := [];
    if t.forwarder.Starting? {
      rest := FastRun(job, t);
    }
    steps := [step] + rest;
    assert steps[1..] == rest;
  }

  /** Some pod has a line that passes the filter. */
  ghost predicate HasKept(job: Job) {
    exists i :: 0 <= i < |job.streams| && KeptTexts(job.keep, i, Expected(job, i)) != []
  }

  lemma EarlyReturnWrites(job: Job, s: State)
    requires Inv(job, s) && s.forwarder.EarlyReturned?
    ensures Complete(job, s.written) <==> !HasKept(job)
  {
    assert s.written == [];
    assert forall i: nat :: Of(i, []) == [];
    assert forall i :: 0 <= i < |job.streams| ==> Of(i, s.written) == [];
  }

  lemma EarlyReturnFits(job: Job, s: State)
    requires Inv(job, s) && s.forwarder.EarlyReturned? && |s.chan| <= job.capacity
    ensures Total(job, |job.streams|) <= job.capacity
  {
    forall i | 0 <= i < |s.readers| ensures Rest(job, s, i) == [] {
      SumZero(s.readers, CountsReading, i);
    }
    ChannelTotal(job, s);
    LinesLength(s.chan);
  }

  ghost predicate LosesLines(job: Job, steps: seq<Step>) {
    && IsRun(job, Init(job), steps)
    && Final(job, Init(job), steps).forwarder.EarlyReturned?
    && !Complete(job, Final(job, Init(job), steps).written)
  }

  /**
  A request can lose lines to the early return exactly when some line passes the filter and all
  the lines of all its pods fit into the channel.
  */
  lemma EarlyReturnLosesIff(job: Job)
    ensures (exists steps :: LosesLines(job, steps)) <==> HasKept(job) && Total(job, |job.streams|) <= job.capacity
  {
    InvInit(job);
    if steps :| LosesLines(job, steps) {
      InvRun(job, Init(job), steps);
      ChannelBounded(job, Init(job), steps);
      EarlyReturnWrites(job, Final(job, Init(job), steps));
      EarlyReturnFits(job, Final(job, Init(job), steps));
    }
    if HasKept(job) && Total(job, |job.streams|) <= job.capacity {
      var steps := FastRun(job, Init(job));
      InvRun(job, Init(job), steps);
      EarlyReturnWrites(job, Final(job, Init(job), steps));
      assert LosesLines(job, steps);
    }
  }

  /** The race is real: one pod, one line, read to its end before the check; the line is lost. */
  lemma FastReaderLosesItsLine()
    ensures var job := Job([Some(["hello"])], 100, (line: Line) => true);
            LosesLines(job, [Spawn, Send(0), Eof(0), Check])
  {
    var job := Job([Some(["hello"])], 100, (line: Line) => true);
    var s0 := Init(job);
    var s1 := Apply(job, s0, Spawn);
    var s2 := Apply(job, s1, Send(0));
    var s3 := Apply(job, s2, Eof(0));
    var s4 := Apply(job, s3, Check);
    var steps := [Spawn, Send(0), Eof(0), Check];
    assert steps[1..] == [Send(0), Eof(0), Check];
    assert steps[1..][1..] == [Eof(0), Check];
    assert steps[1..][1..][1..] == [Check];
    assert steps[1..][1..][1..][1..] == [];
    assert IsRun(job, s3, [Check]) && Final(job, s3, [Check]) == s4;
    assert IsRun(job, s2, [Eof(0), Check]) && Final(job, s2, [Eof(0), Check]) == s4;
    assert IsRun(job, s1, [Send(0), Eof(0), Check]) && Final(job, s1, [Send(0), Eof(0), Check]) == s4;
    assert Expected(job, 0)[..0] == [] && Of(0, []) == [];
    assert KeptTexts(job.keep, 0, Expected(job, 0)) == ["hello"];
    assert s4.written == [] && Of(0, s4.written) == [];
  }
}
