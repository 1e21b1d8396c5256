/**
What the phase of a stored stack says, across API server and controller
(internal/registry/strategy.go:101-138, internal/controller/stackreconciler.go:86-183,
internal/controller/resourceupdater.go:150-161).

The server keeps every version it stored; a controller cycle reads any of them, applies it and
then writes a status, which is accepted only if the version is still the stored one.
*/
module Phase {
  import opened Wrappers
  import opened Registry
  import C = Compose
  import Convert

  /** A stored version; `since` is the first version that has had this spec ever since. */
  datatype Version = Version(stack: Stack, since: nat)

  /** A reconcile of the version `read`: not applied yet, or applied with or without error. */
  datatype Cycle = Idle | Reading(read: nat) | Applied(read: nat, ok: bool)

  /**
  `converted` holds the versions that were read dirty, so that every service was converted, and
  applied without error.  On a clean stack the conversion keeps each stored workload whose generation
  is the expected one, whatever the spec says.
  */
  datatype State = State(history: seq<Version>, live: bool, cycle: Cycle, converted: set<nat>)

  datatype Step =
    | User(op: Op, req: Request)
    | Read(version: nat)
    | Apply(ok: bool)
    | WriteStatus(status: C.Status, user: string)

  /** The API server as users and the controller see it: what it stores for a request, and for a status update. */
  datatype Server = Server(
    user: (Option<Stack>, Op, Request) -> Option<Stack>,
    status: (Stack, C.Status, string) -> Stack)

  function ApiServer(parse: Parser, checks: Checks): Server {
    Server((stored, op, req) => Registry.Step(parse, checks, stored, op, req),
           (read, status, user) => StatusStored(parse, checks, read, status, user))
  }

  predicate Good(status: Option<C.Status>) {
    status.Some? && (status.value.phase.Progressing? || status.value.phase.Available?)
  }

  /** A spec up to the order of its services, which the conversion does not depend on. */
  function NormalSpec(spec: Spec): Spec {
    match spec.stack
    case None => spec
    case Some(stack) => spec.(stack := Some(Normal(stack)))
  }

  function Last(s: State): Version
    requires s.history != []
  {
    s.history[|s.history| - 1]
  }

  function Stored(s: State): Option<Stack> {
    if s.live && s.history != [] then Some(Last(s).stack) else None
  }

  function Append(s: State, stack: Stack): State {
    var same := s.live && s.history != [] && NormalSpec(Last(s).stack.spec) == NormalSpec(stack.spec);
    s.(history := s.history + [Version(stack, if same then Last(s).since else |s.history|)], live := true)
  }

  /** The history after a request, which may have changed nothing. */
  function Recorded(s: State, stored: Option<Stack>): State {
    if stored == Stored(s) then s
    else if stored.None? then s.(live := false)
    else Append(s, stored.value)
  }

  /** The submitted stack of updateStackStatus: the conversion has sorted the services of the version it read. */
  function StatusUpdate(read: Stack, status: C.Status): Op {
    UpdateStructured(NormalSpec(read.spec).stack, Some(status))
  }

  /** What updateStackStatus makes the server store; it skips validation. */
  function StatusStored(parse: Parser, checks: Checks, read: Stack, status: C.Status, user: string): Stack {
    Registry.Updated(parse, checks, V1beta2, Request(Some(user), true), read,
                     Submitted(StatusUpdate(read, status), read)).value
  }

  /** The controller reports Progressing or Available after an error-free apply, Failure after any other. */
  predicate Enabled(s: State, step: Step) {
    match step
    case User(op, req) => true
    case Read(v) => v < |s.history|
    case Apply(_) => s.cycle.Reading? && s.cycle.read < |s.history|
    case WriteStatus(status, _) =>
      && s.cycle.Applied? && s.cycle.read < |s.history|
      && if s.cycle.ok then Good(Some(status)) else status.phase.Failure?
  }

  function Next(server: Server, s: State, step: Step): State
    requires Enabled(s, step)
  {
    match step
    case User(op, req) =>
      Recorded(s, server.user(Stored(s), op, req))
    case Read(v) => s.(cycle := Reading(v))
    case Apply(ok) =>
      var r := s.cycle.read;
      s.(cycle := Applied(r, ok),
         converted := if ok && C.IsDirty(s.history[r].stack.status) then s.converted + {r} else s.converted)
    case WriteStatus(status, user) =>
      var read := s.history[s.cycle.read].stack;
      var done := s.(cycle := Idle);
      if read.status == Some(status) || !s.live || s.cycle.read != |s.history| - 1 then done
      else Append(done, server.status(read, status, user))
  }

  predicate Init(s: State) { s == State([], false, Idle, {}) }

  predicate IsRun(server: Server, s: State, steps: seq<Step>)
    decreases |steps|
  {
    steps == [] || (Enabled(s, steps[0]) && IsRun(server, Next(server, s, steps[0]), steps[1..]))
  }

  function Final(server: Server, s: State, steps: seq<Step>): State
    requires IsRun(server, s, steps)
    decreases |steps|
  {
    if steps == [] then s else Final(server, Next(server, s, steps[0]), steps[1..])
  }

  // ----- Spec changes and the dirty phases -----

  lemma SortedNormal(s: Stack)
    ensures NormalSpec(Sorted(s).spec) == NormalSpec(s.spec)
  {
    if s.spec.stack.Some? { Convert.SortIdempotent(s.spec.stack.value.services); }
  }

  lemma LoadedKeepsOrFails(parse: Parser, relaxed: bool, s: Stack)
    ensures var (r, goesOn) := Loaded(parse, relaxed, s);
            if r.spec.stack.Some? then goesOn && r.status == s.status else C.IsDirty(r.status)
  {
  }

  /** The prepared stack is the stored one again: nothing was changed, loaded or refused. */
  predicate Resends(parse: Parser, api: Api, req: Request, before: Stack, s: Stack) {
    req.user.Some? && before.spec.stack.Some? && PreparedForUpdate(parse, api, req, before, s).spec == before.spec
  }

  lemma PreparedKeepsOrDirties(parse: Parser, api: Api, req: Request, before: Stack, s: Stack)
    ensures var r := PreparedForUpdate(parse, api, req, before, s);
            if Resends(parse, api, req, before, s) then r.status == s.status else C.IsDirty(r.status)
  {
    if req.user.Some? {
      var fields := Fields(api, before.spec, WithOwner(s, req.user.value));
      assert fields.status == s.status;
      LoadedKeepsOrFails(parse, req.skipValidation, fields);
    }
  }

  /** An accepted update stores the submitted status if it resends the stored spec, else the stack is dirty. */
  lemma UpdateKeepsOrDirties(parse: Parser, checks: Checks, api: Api, req: Request, before: Stack, s: Stack)
    ensures var r := Registry.Updated(parse, checks, api, req, before, s);
            r.Some? ==>
              if Resends(parse, api, req, before, s)
              then NormalSpec(r.value.spec) == NormalSpec(before.spec) && r.value.status == s.status
              else C.IsDirty(r.value.status)
  {
    PreparedKeepsOrDirties(parse, api, req, before, s);
    SortedNormal(PreparedForUpdate(parse, api, req, before, s));
  }

  /** Any accepted change of the spec leaves the stack dirty, whoever asks and whatever status is submitted. */
  lemma SpecChangeDirties(parse: Parser, checks: Checks, stored: Stack, op: Op, req: Request)
    ensures var next := Registry.Step(parse, checks, Some(stored), op, req);
            next.Some? && NormalSpec(next.value.spec) != NormalSpec(stored.spec) ==> C.IsDirty(next.value.status)
  {
    if IsUpdate(op) {
      UpdateKeepsOrDirties(parse, checks, ApiOf(op), req, stored, Submitted(op, stored));
    }
  }

  /** A new stack is dirty. */
  lemma CreationDirties(parse: Parser, checks: Checks, op: Op, req: Request)
    ensures var next := Registry.Step(parse, checks, None, op, req); next.Some? ==> C.IsDirty(next.value.status)
  {
  }

  // ----- The invariant -----

  /** Some version with the present spec was converted and applied without error. */
  ghost predicate Covered(s: State, v: Version) {
    exists j :: j in s.converted && v.since <= j < |s.history|
  }

  predicate SinceSound(history: seq<Version>) {
    forall i, m :: 0 <= i < |history| && history[i].since <= m <= i ==>
        NormalSpec(history[m].stack.spec) == NormalSpec(history[i].stack.spec)
  }

  /** What holds in every run. */
  ghost predicate Basic(s: State) {
    && (s.live ==> s.history != [])
    && (forall i :: 0 <= i < |s.history| ==> s.history[i].since <= i)
    && SinceSound(s.history)
    && (!s.cycle.Idle? ==> s.cycle.read < |s.history|)
    && (forall j :: j in s.converted ==> j < |s.history| && C.IsDirty(s.history[j].stack.status))
    && (s.cycle.Applied? && s.cycle.ok && C.IsDirty(s.history[s.cycle.read].stack.status) ==>
          s.cycle.read in s.converted)
  }

  /** A stored stack that is not dirty has had its spec converted. */
  ghost predicate CleanIsCovered(s: State) {
    s.live && s.history != [] && !C.IsDirty(Last(s).stack.status) ==> Covered(s, Last(s))
  }

  ghost predicate Inv(s: State) { Basic(s) && CleanIsCovered(s) }

  lemma AppendSince(s: State, stack: Stack)
    requires SinceSound(s.history) && forall i :: 0 <= i < |s.history| ==> s.history[i].since <= i
    ensures SinceSound(Append(s, stack).history)
    ensures forall i :: 0 <= i < |Append(s, stack).history| ==> Append(s, stack).history[i].since <= i
  {
    var n, h := |s.history|, Append(s, stack).history;
    forall i, m | 0 <= i < |h| && h[i].since <= m <= i
      ensures NormalSpec(h[m].stack.spec) == NormalSpec(h[i].stack.spec)
    {
      if i == n && m < n {
        assert h[n].since == Last(s).since;
      }
    }
  }

  lemma AppendBasic(s: State, stack: Stack)
    requires Basic(s)
    ensures Basic(Append(s, stack))
  {
    AppendSince(s, stack);
  }

  /** A version with the same spec is covered exactly if the one before it is; one with a new spec is not. */
  lemma AppendCovered(s: State, stack: Stack)
    requires Basic(s)
    ensures var t := Append(s, stack);
            Covered(t, Last(t)) <==>
            s.live && NormalSpec(Last(s).stack.spec) == NormalSpec(stack.spec) && Covered(s, Last(s))
  {
    var t := Append(s, stack);
    if s.live && NormalSpec(Last(s).stack.spec) == NormalSpec(stack.spec) {
      assert Last(t).since == Last(s).since;
      if j :| j in s.converted && Last(s).since <= j < |s.history| {
        assert j in t.converted && Last(t).since <= j < |t.history|;
      }
      if j :| j in t.converted && Last(t).since <= j < |t.history| {
        assert j in s.converted && Last(s).since <= j < |s.history|;
      }
    }
  }

  lemma BasicStep(server: Server, s: State, step: Step)
    requires Basic(s) && Enabled(s, step)
    ensures Basic(Next(server, s, step))
  {
    match step
    case User(op, req) =>
      var stored := server.user(Stored(s), op, req);
      if stored.Some? { AppendBasic(s, stored.value); }
    case WriteStatus(status, user) =>
      var read, done := s.history[s.cycle.read].stack, s.(cycle := Idle);
      AppendBasic(done, server.status(read, status, user));
    case Read(_) =>
    case Apply(_) =>
  }

  // ----- Users -----

  /** An update does not resend a dirty stack's own spec under a status that is not dirty. */
  predicate Honest(parse: Parser, stored: Option<Stack>, op: Op, req: Request) {
    stored.Some? && IsUpdate(op) && C.IsDirty(stored.value.status)
    && Resends(parse, ApiOf(op), req, stored.value, Submitted(op, stored.value)) ==>
      C.IsDirty(Submitted(op, stored.value).status)
  }

  predicate HonestRun(parse: Parser, checks: Checks, s: State, steps: seq<Step>)
    requires IsRun(ApiServer(parse, checks), s, steps)
    decreases |steps|
  {
    steps == [] ||
    (&& (steps[0].User? ==> Honest(parse, Stored(s), steps[0].op, steps[0].req))
     && HonestRun(parse, checks, Next(ApiServer(parse, checks), s, steps[0]), steps[1..]))
  }

  lemma UserStep(parse: Parser, checks: Checks, s: State, op: Op, req: Request)
    requires Inv(s) && Honest(parse, Stored(s), op, req)
    ensures CleanIsCovered(Next(ApiServer(parse, checks), s, User(op, req)))
  {
    var stored := Registry.Step(parse, checks, Stored(s), op, req);
    if stored != Stored(s) && stored.Some? {
      AppendCovered(s, stored.value);
      if Stored(s).None? {
        CreationDirties(parse, checks, op, req);
      } else if IsUpdate(op) {
        UpdateKeepsOrDirties(parse, checks, ApiOf(op), req, Last(s).stack, Submitted(op, Last(s).stack));
      }
    }
  }

  lemma AppendCleanIff(s: State, r: Stack)
    requires Basic(s) && s.live && !Covered(s, Last(s))
    ensures CleanIsCovered(Append(s, r)) <==> C.IsDirty(r.status)
  {
    AppendCovered(s, r);
  }

  /** What an accepted update does to the history. */
  lemma UserNext(parse: Parser, checks: Checks, s: State, op: Op, req: Request, before: Stack, r: Stack)
    requires s.live && s.history != [] && before == Last(s).stack && IsUpdate(op)
    requires Registry.Updated(parse, checks, ApiOf(op), req, before, Submitted(op, before)) == Some(r)
    ensures Next(ApiServer(parse, checks), s, User(op, req)) == if r == before then s else Append(s, r)
  {
    assert Stored(s) == Some(before);
    StepUpdates(parse, checks, before, op, req, r);
    assert Next(ApiServer(parse, checks), s, User(op, req)) == Recorded(s, Some(r));
  }

  /** An update that is not honest is one whose result is not dirty, as far as the spec was not converted. */
  lemma HonestResult(parse: Parser, checks: Checks, op: Op, req: Request, before: Stack, r: Stack)
    requires IsUpdate(op) && C.IsDirty(before.status)
    requires Registry.Updated(parse, checks, ApiOf(op), req, before, Submitted(op, before)) == Some(r)
    ensures C.IsDirty(r.status) <==> Honest(parse, Some(before), op, req)
  {
    UpdateKeepsOrDirties(parse, checks, ApiOf(op), req, before, Submitted(op, before));
  }

  /**
  The condition is exact: while the stored spec has not been converted, an accepted update keeps a
  clean phase meaningful if and only if it is honest.
  */
  lemma HonestIff(parse: Parser, checks: Checks, s: State, op: Op, req: Request, before: Stack, r: Stack)
    requires Inv(s) && s.live && before == Last(s).stack && !Covered(s, Last(s)) && IsUpdate(op)
    requires Registry.Updated(parse, checks, ApiOf(op), req, before, Submitted(op, before)) == Some(r)
    ensures CleanIsCovered(Next(ApiServer(parse, checks), s, User(op, req))) <==> Honest(parse, Some(before), op, req)
  {
    HonestResult(parse, checks, op, req, before, r);
    UserNext(parse, checks, s, op, req, before, r);
    AppendCleanIff(s, r);
  }

  // ----- The controller -----

  lemma StatusStep(parse: Parser, checks: Checks, s: State, status: C.Status, user: string)
    requires Inv(s) && Enabled(s, WriteStatus(status, user))
    ensures CleanIsCovered(Next(ApiServer(parse, checks), s, WriteStatus(status, user)))
  {
    var read, done := s.history[s.cycle.read].stack, s.(cycle := Idle);
    assert CleanIsCovered(done);
    if read.status != Some(status) && s.live && s.cycle.read == |s.history| - 1 {
      var op, req := StatusUpdate(read, status), Request(Some(user), true);
      UpdateKeepsOrDirties(parse, checks, V1beta2, req, read, Submitted(op, read));
      AppendCovered(done, Registry.Updated(parse, checks, V1beta2, req, read, Submitted(op, read)).value);
      if s.cycle.ok {
        assert C.IsDirty(read.status) ==> s.cycle.read in done.converted;
        assert Covered(done, Last(done));
      }
    }
  }

  lemma ApplyStep(server: Server, s: State, ok: bool)
    requires Inv(s) && Enabled(s, Apply(ok))
    ensures CleanIsCovered(Next(server, s, Apply(ok)))
  {
    if s.live && !C.IsDirty(Last(s).stack.status) {
      var j :| j in s.converted && Last(s).since <= j < |s.history|;
      assert j in Next(server, s, Apply(ok)).converted;
    }
  }

  lemma InvStep(parse: Parser, checks: Checks, s: State, step: Step)
    requires Inv(s) && Enabled(s, step) && (step.User? ==> Honest(parse, Stored(s), step.op, step.req))
    ensures Inv(Next(ApiServer(parse, checks), s, step))
  {
    BasicStep(ApiServer(parse, checks), s, step);
    match step
    case User(op, req) => UserStep(parse, checks, s, op, req);
    case WriteStatus(status, user) => StatusStep(parse, checks, s, status, user);
    case Read(_) =>
    case Apply(ok) => ApplyStep(ApiServer(parse, checks), s, ok);
  }

  lemma {:induction false} InvRun(parse: Parser, checks: Checks, s: State, steps: seq<Step>)
    requires Inv(s) && IsRun(ApiServer(parse, checks), s, steps) && HonestRun(parse, checks, s, steps)
    ensures Inv(Final(ApiServer(parse, checks), s, steps))
    decreases |steps|
  {
    if steps != [] {
      InvStep(parse, checks, s, steps[0]);
      InvRun(parse, checks, Next(ApiServer(parse, checks), s, steps[0]), steps[1..]);
    }
  }

  /**
  In every honest run, if the stored stack is Progressing or Available, or in any other phase that
  is not dirty, then some version of it was read dirty, converted and applied without error, and
  the spec has not changed from that version to now.
  */
  lemma PhaseSoundness(parse: Parser, checks: Checks, s: State, steps: seq<Step>) returns (j: nat)
    requires Init(s) && IsRun(ApiServer(parse, checks), s, steps) && HonestRun(parse, checks, s, steps)
    requires var t := Final(ApiServer(parse, checks), s, steps);
             t.live && t.history != [] && !C.IsDirty(Last(t).stack.status)
    ensures var t := Final(ApiServer(parse, checks), s, steps);
            && j in t.converted && j < |t.history| && C.IsDirty(t.history[j].stack.status)
            && forall m :: j <= m < |t.history| ==>
                NormalSpec(t.history[m].stack.spec) == NormalSpec(Last(t).stack.spec)
  {
    InvRun(parse, checks, s, steps);
    var t := Final(ApiServer(parse, checks), s, steps);
    j :| j in t.converted && Last(t).since <= j < |t.history|;
  }

  // ----- When a status write sticks -----

  /** What a validated request stores has its services in order. */
  lemma ValidatedIsSorted(parse: Parser, checks: Checks, api: Api, req: Request, before: Stack, s: Stack)
    requires !req.skipValidation
    ensures var r := Registry.Updated(parse, checks, api, req, before, s);
            r.Some? ==> r.value.spec.stack.Some? && Convert.ByName(r.value.spec.stack.value.services)
  {
    var prepared := PreparedForUpdate(parse, api, req, before, s);
    if prepared.spec.stack.Some? { Convert.SortOrders(prepared.spec.stack.value.services); }
  }

  /** A structured update, spelled out. */
  lemma StructuredUpdateResult(parse: Parser, user: string, before: Stack, stack: C.StackSpec, status: C.Status)
    ensures var r := PreparedForUpdate(parse, V1beta2, Request(Some(user), true), before,
                                       Stack(Spec("", Some(stack), ""), Some(status)));
            && r.spec.stack == Some(stack) && r.spec.owner == user
            && (Some(stack) == before.spec.stack ==> r.spec.composeFile == before.spec.composeFile)
            && r.status == if r.spec == before.spec then Some(status) else Some(PENDING)
  {
  }

  /**
  The controller's status reaches the store exactly when the stored services are in order and the
  owner is the user the controller acts for; otherwise the stack becomes pending again.
  */
  lemma StatusSticksIff(parse: Parser, checks: Checks, before: Stack, status: C.Status, user: string)
    requires before.spec.stack.Some? && status != PENDING
    ensures var r := Registry.Updated(parse, checks, V1beta2, Request(Some(user), true), before,
                                      Submitted(StatusUpdate(before, status), before));
            var ordered := Convert.ByName(before.spec.stack.value.services);
            && r.Some?
            && (r.value.status == Some(status) <==> ordered && before.spec.owner == user)
            && (r.value.status == Some(status) ==> r.value.spec == before.spec)
            && (r.value.status != Some(status) ==> r.value.status == Some(PENDING))
            && (r.value.spec.composeFile != before.spec.composeFile ==> !ordered)
  {
    var stack := before.spec.stack.value;
    Convert.SortKeepsIff(stack.services);
    assert Normal(stack) == stack <==> Convert.ByName(stack.services);
    StructuredUpdateResult(parse, user, before, Normal(stack), status);
  }

  // ----- Echoing no status hides a spec that was not converted -----

  lemma {:induction false} RunConcat(server: Server, s: State, a: seq<Step>, b: seq<Step>)
    requires IsRun(server, s, a) && IsRun(server, Final(server, s, a), b)
    ensures IsRun(server, s, a + b)
    ensures Final(server, s, a + b) == Final(server, Final(server, s, a), b)
    decreases |a|
  {
    if a == [] {
      assert a + b == b;
    } else {
      RunConcat(server, Next(server, s, a[0]), a[1..], b);
      assert (a + b)[1..] == a[1..] + b;
    }
  }

  lemma RunConcatThree(server: Server, s: State, a: seq<Step>, s1: State, b: seq<Step>, s2: State, c: seq<Step>)
    requires IsRun(server, s, a) && Final(server, s, a) == s1
    requires IsRun(server, s1, b) && Final(server, s1, b) == s2
    requires IsRun(server, s2, c)
    ensures IsRun(server, s, a + b + c) && Final(server, s, a + b + c) == Final(server, s2, c)
  {
    RunConcat(server, s, a, b);
    RunConcat(server, s, a + b, c);
  }

  lemma RunOne(server: Server, s: State, step: Step)
    requires Enabled(s, step)
    ensures IsRun(server, s, [step]) && Final(server, s, [step]) == Next(server, s, step)
  {
    assert [step][1..] == [];
  }

  function ReconcileSteps(version: nat, status: C.Status, user: string): seq<Step> {
    [Read(version)] + [Apply(true)] + [WriteStatus(status, user)]
  }

  /** The stored version counts as converted if it was dirty. */
  function Marked(s: State): State
    requires s.history != []
  {
    var n := |s.history| - 1;
    s.(cycle := Idle, converted := if C.IsDirty(Last(s).stack.status) then s.converted + {n} else s.converted)
  }

  lemma ReadApply(server: Server, s: State)
    requires s.history != []
    ensures var n := |s.history| - 1;
            && Next(server, s, Read(n)) == s.(cycle := Reading(n))
            && Next(server, s.(cycle := Reading(n)), Apply(true)) == Marked(s).(cycle := Applied(n, true))
  {
  }

  lemma CycleRuns(server: Server, s: State, s2: State, write: seq<Step>, t: State)
    requires s.history != [] && s2 == Marked(s).(cycle := Applied(|s.history| - 1, true))
    requires IsRun(server, s2, write) && Final(server, s2, write) == t
    ensures var steps := [Read(|s.history| - 1)] + [Apply(true)] + write;
            IsRun(server, s, steps) && Final(server, s, steps) == t
  {
    var n, s1 := |s.history| - 1, s.(cycle := Reading(|s.history| - 1));
    ReadApply(server, s);
    RunOne(server, s, Read(n));
    RunOne(server, s1, Apply(true));
    RunConcatThree(server, s, [Read(n)], s1, [Apply(true)], s2, write);
  }

  lemma WriteRuns(server: Server, s: State, status: C.Status, before: Stack, r: Stack)
    requires s.live && s.history != [] && s.cycle == Applied(|s.history| - 1, true) && Good(Some(status))
    requires before == Last(s).stack && before.status != Some(status)
    requires server.status(before, status, before.spec.owner) == r
    ensures var steps := [WriteStatus(status, before.spec.owner)];
            IsRun(server, s, steps) && Final(server, s, steps) == Append(s.(cycle := Idle), r)
  {
    RunOne(server, s, WriteStatus(status, before.spec.owner));
  }

  /** A reconcile of the stored version without error, from reading it to writing the status. */
  lemma CycleStores(server: Server, s: State, status: C.Status, before: Stack, r: Stack)
    requires s.live && s.history != [] && Good(Some(status))
    requires before == Last(s).stack && before.status != Some(status)
    requires server.status(before, status, before.spec.owner) == r
    ensures var steps := ReconcileSteps(|s.history| - 1, status, before.spec.owner);
            IsRun(server, s, steps) && Final(server, s, steps) == Append(Marked(s), r)
  {
    var s2 := Marked(s).(cycle := Applied(|s.history| - 1, true));
    WriteRuns(server, s2, status, before, r);
    CycleRuns(server, s, s2, [WriteStatus(status, before.spec.owner)], Append(Marked(s), r));
  }

  lemma UserRuns(server: Server, s: State, op: Op, req: Request, r: Stack)
    requires server.user(Stored(s), op, req) == Some(r) && Stored(s) != Some(r)
    ensures IsRun(server, s, [User(op, req)]) && Final(server, s, [User(op, req)]) == Append(s, r)
  {
    RunOne(server, s, User(op, req));
  }

  /** From a clean stack whose spec was not converted, the next reconcile reports success, and it still was not. */
  lemma UnconvertedReportsSuccess(server: Server, s: State, status: C.Status, before: Stack)
    requires Basic(s) && s.live && s.history != [] && before == Last(s).stack
    requires !C.IsDirty(before.status) && !Covered(s, Last(s)) && Good(Some(status)) && before.status != Some(status)
    requires server.status(before, status, before.spec.owner) == before.(status := Some(status))
    ensures var steps := ReconcileSteps(|s.history| - 1, status, before.spec.owner);
            && IsRun(server, s, steps)
            && var t := Final(server, s, steps);
               t.live && t.history != [] && Last(t).stack == before.(status := Some(status)) && !Covered(t, Last(t))
  {
    CycleStores(server, s, status, before, before.(status := Some(status)));
    AppendCovered(Marked(s), before.(status := Some(status)));
  }

  function FirstSteps(op: Op, req: Request, status: C.Status, user: string): seq<Step> {
    [User(op, req)] + ReconcileSteps(0, status, user)
  }

  function ResendSteps(op: Op, req: Request): seq<Step> { [User(op, req)] + [User(op, req)] }

  /** A stack is created and reconciled. */
  lemma RunsFirst(server: Server, op: Op, req: Request, first: Stack, running: C.Status)
    requires server.user(None, op, req) == Some(first) && Good(Some(running)) && first.status != Some(running)
    requires server.status(first, running, first.spec.owner) == first.(status := Some(running))
    ensures var s, steps := State([], false, Idle, {}), FirstSteps(op, req, running, first.spec.owner);
            && IsRun(server, s, steps)
            && var t := Final(server, s, steps);
               Basic(t) && t.live && |t.history| == 2 && Last(t).stack == first.(status := Some(running))
  {
    var s := State([], false, Idle, {});
    var s1 := Append(s, first);
    UserRuns(server, s, op, req, first);
    AppendBasic(s, first);
    CycleStores(server, s1, running, first, first.(status := Some(running)));
    RunConcat(server, s, [User(op, req)], ReconcileSteps(0, running, first.spec.owner));
    AppendBasic(Marked(s1), first.(status := Some(running)));
  }

  /** A request that changes the spec is sent twice, and the second one leaves the stack clean. */
  lemma ResendsSecond(server: Server, s: State, op: Op, req: Request, pending: Stack, resent: Stack)
    requires Basic(s) && s.live && s.history != [] && NormalSpec(pending.spec) != NormalSpec(Last(s).stack.spec)
    requires server.user(Some(Last(s).stack), op, req) == Some(pending)
    requires server.user(Some(pending), op, req) == Some(resent) && resent.spec == pending.spec && resent != pending
    ensures var steps := ResendSteps(op, req);
            && IsRun(server, s, steps)
            && var t := Final(server, s, steps);
               Basic(t) && t.live && |t.history| == |s.history| + 2 && Last(t).stack == resent && !Covered(t, Last(t))
  {
    var s1 := Append(s, pending);
    UserRuns(server, s, op, req, pending);
    UserRuns(server, s1, op, req, resent);
    RunConcat(server, s, [User(op, req)], [User(op, req)]);
    AppendBasic(s, pending);
    AppendCovered(s, pending);
    AppendBasic(s1, resent);
    AppendCovered(s1, resent);
  }

  /** The services are in the order the conversion leaves them. */
  predicate InOrder(stack: Stack) { stack.spec.stack.Some? && NormalSpec(stack.spec) == stack.spec }

  lemma InOrderIff(stack: Stack)
    requires stack.spec.stack.Some?
    ensures InOrder(stack) <==> Convert.ByName(stack.spec.stack.value.services)
  {
    Convert.SortKeepsIff(stack.spec.stack.value.services);
  }

  lemma StatusResult(parse: Parser, checks: Checks, before: Stack, status: C.Status)
    requires InOrder(before) && status != PENDING
    ensures ApiServer(parse, checks).status(before, status, before.spec.owner) == before.(status := Some(status))
  {
    InOrderIff(before);
    StatusSticksIff(parse, checks, before, status, before.spec.owner);
  }

  function FirstVersion(file: string, stack: C.StackSpec, user: string, status: C.Status): Stack {
    Stack(Spec(file, Some(stack), user), Some(status))
  }

  /** A v1beta1 update with another file is pending. */
  lemma NewFilePrepared(parse: Parser, file: string, stack: C.StackSpec, user: string, before: Stack)
    requires parse(file) == Ok(stack) && before.spec.composeFile != file
    ensures PreparedForUpdate(parse, V1beta1, Request(Some(user), true), before,
                              Submitted(UpdateV1beta1(file, None), before))
            == FirstVersion(file, stack, user, PENDING)
  {
  }

  /** The same request again has no phase. */
  lemma SameFilePrepared(parse: Parser, file: string, stack: C.StackSpec, user: string, before: Stack)
    requires before.spec == Spec(file, Some(stack), user)
    ensures PreparedForUpdate(parse, V1beta1, Request(Some(user), true), before,
                              Submitted(UpdateV1beta1(file, None), before))
            == FirstVersion(file, stack, user, NO_STATUS)
  {
  }

  lemma CreateStores(parse: Parser, checks: Checks, file: string, stack: C.StackSpec, user: string)
    requires parse(file) == Ok(stack)
    ensures ApiServer(parse, checks).user(None, CreateComposeFile(file), Request(Some(user), true)) ==
            Some(FirstVersion(file, stack, user, PENDING))
  {
  }

  lemma UpdateStores(parse: Parser, checks: Checks, file: string, user: string, before: Stack, r: Stack)
    requires PreparedForUpdate(parse, V1beta1, Request(Some(user), true), before,
                               Submitted(UpdateV1beta1(file, None), before)) == r
    ensures ApiServer(parse, checks).user(Some(before), UpdateV1beta1(file, None), Request(Some(user), true)) == Some(r)
  {
    StepUpdates(parse, checks, before, UpdateV1beta1(file, None), Request(Some(user), true), r);
  }

  /**
  Not forging a status is not enough.  A stack runs with one compose file; another file is submitted
  through v1beta1 and, before it is reconciled, submitted again, both times without a status.  The
  stack is then not dirty, a reconcile keeps the workloads of the first file, and the status it
  reports is stored although the second file was never converted.
  */
  lemma ResentFileHidesPendingSpec(parse: Parser, checks: Checks, fileA: string, fileB: string,
                                   a: C.StackSpec, b: C.StackSpec,
                                   user: string, running: C.Status, reported: C.Status)
    requires fileA != fileB && parse(fileA) == Ok(a) && parse(fileB) == Ok(b)
    requires Convert.ByName(a.services) && Convert.ByName(b.services) && Good(Some(running)) && Good(Some(reported))
    ensures var server, req := ApiServer(parse, checks), Request(Some(user), true);
            var steps := FirstSteps(CreateComposeFile(fileA), req, running, user)
                         + ResendSteps(UpdateV1beta1(fileB, None), req) + ReconcileSteps(3, reported, user);
            && IsRun(server, State([], false, Idle, {}), steps)
            && var t := Final(server, State([], false, Idle, {}), steps);
               && t.live && t.history != [] && !Covered(t, Last(t))
               && Last(t).stack == FirstVersion(fileB, b, user, reported)
  {
    var req, create, update := Request(Some(user), true), CreateComposeFile(fileA), UpdateV1beta1(fileB, None);
    var first, pending := FirstVersion(fileA, a, user, PENDING), FirstVersion(fileB, b, user, PENDING);
    var resent := FirstVersion(fileB, b, user, NO_STATUS);
    InOrderIff(first);
    InOrderIff(resent);
    CreateStores(parse, checks, fileA, a, user);
    StatusResult(parse, checks, first, running);
    NewFilePrepared(parse, fileB, b, user, first.(status := Some(running)));
    UpdateStores(parse, checks, fileB, user, first.(status := Some(running)), pending);
    SameFilePrepared(parse, fileB, b, user, pending);
    UpdateStores(parse, checks, fileB, user, pending, resent);
    StatusResult(parse, checks, resent, reported);
    HidesPendingSpec(ApiServer(parse, checks), create, update, req, first, running, pending, resent, reported);
  }

  lemma HidesPendingSpec(server: Server, create: Op, update: Op, req: Request, first: Stack, running: C.Status,
                         pending: Stack, resent: Stack, reported: C.Status)
    requires server.user(None, create, req) == Some(first) && Good(Some(running)) && first.status != Some(running)
    requires server.status(first, running, first.spec.owner) == first.(status := Some(running))
    requires server.user(Some(first.(status := Some(running))), update, req) == Some(pending)
    requires NormalSpec(pending.spec) != NormalSpec(first.spec)
    requires server.user(Some(pending), update, req) == Some(resent) && resent.spec == pending.spec && resent != pending
    requires !C.IsDirty(resent.status) && Good(Some(reported)) && resent.status != Some(reported)
    requires server.status(resent, reported, resent.spec.owner) == resent.(status := Some(reported))
    ensures var s := State([], false, Idle, {});
            var steps := FirstSteps(create, req, running, first.spec.owner) + ResendSteps(update, req)
                         + ReconcileSteps(3, reported, resent.spec.owner);
            && IsRun(server, s, steps)
            && var t := Final(server, s, steps);
               t.live && t.history != [] && !Covered(t, Last(t)) && Last(t).stack == resent.(status := Some(reported))
  {
    var s, start := State([], false, Idle, {}), FirstSteps(create, req, running, first.spec.owner);
    RunsFirst(server, create, req, first, running);
    var s2 := Final(server, s, start);
    ResendsSecond(server, s2, update, req, pending, resent);
    var s4 := Final(server, s2, ResendSteps(update, req));
    UnconvertedReportsSuccess(server, s4, reported, resent);
    RunConcatThree(server, s, start, s2, ResendSteps(update, req), s4, ReconcileSteps(3, reported, resent.spec.owner));
  }
}
