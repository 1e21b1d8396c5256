/**
How the API server prepares, validates and stores a stack (internal/registry/strategy.go:46-162,
internal/registry/strategyprepare.go:17-93).

The dry run of the validation converts the very stack it validates, and StackToStack sorts the
services in place (internal/convert/stack.go:44, internal/conversions/v1alpha3.go:57), so what a
validated request stores has its services sorted by name.
*/
module Registry {
  import opened Wrappers
  import opened Text
  import C = Compose
  import Convert

  const OUT_OF_DATE := "# This compose file is outdated: the stack was updated by other means\n"

  const PENDING := C.Status(C.ReconciliationPending, "Stack is waiting for reconciliation")

  /** v1beta1 stacks hold their status by value: one that is not sent arrives as this. */
  const NO_STATUS := C.Status(C.OtherPhase(""), "")

  datatype Spec = Spec(composeFile: string, stack: Option<C.StackSpec>, owner: string)

  datatype Stack = Stack(spec: Spec, status: Option<C.Status>)

  datatype Api = V1beta1 | V1beta2

  /** Who asks, if known, and whether validation is skipped. */
  datatype Request = Request(user: Option<string>, skipValidation: bool)

  /** Loading a compose file and converting it, left uninterpreted. */
  type Parser = string -> Result<C.StackSpec>

  // ----- Preparation, as functions -----

  function Failed(s: Stack, message: string): Stack { s.(status := Some(C.Status(C.Failure, message))) }

  const NO_OWNER := "can't extract owner information from request"

  function WithOwner(s: Stack, user: string): Stack { s.(spec := s.spec.(owner := user)) }

  function V1beta1Fields(before: Spec, s: Stack): Stack {
    s.(spec := s.spec.(stack := if s.spec.composeFile != before.composeFile then None else before.stack))
  }

  function V1beta2Fields(before: Spec, s: Stack): Stack {
    var outdated := s.spec.stack != before.stack && !HasPrefix(before.composeFile, OUT_OF_DATE)
        && before.composeFile != "";
    s.(spec := s.spec.(composeFile := if outdated then OUT_OF_DATE + before.composeFile else before.composeFile))
  }

  function Fields(api: Api, before: Spec, s: Stack): Stack {
    match api case V1beta1 => V1beta1Fields(before, s) case V1beta2 => V1beta2Fields(before, s)
  }

  /** The stack after the compose file was loaded where needed, and whether preparation goes on. */
  function Loaded(parse: Parser, relaxed: bool, s: Stack): (Stack, bool) {
    if s.spec.stack.Some? then (s, true)
    else
      match parse(s.spec.composeFile)
      case Ok(stack) => (s.(spec := s.spec.(stack := Some(stack))), true)
      case Err(message) => (Failed(s, "parsing error: " + message), relaxed)
  }

  function PreparedForCreate(parse: Parser, req: Request, s: Stack): Stack {
    match req.user
    case None => Failed(s, NO_OWNER)
    case Some(user) =>
      var (loaded, goesOn) := Loaded(parse, req.skipValidation, WithOwner(s, user));
      if goesOn then loaded.(status := Some(PENDING)) else loaded
  }

  function PreparedForUpdate(parse: Parser, api: Api, req: Request, before: Stack, s: Stack): Stack {
    match req.user
    case None => Failed(s, NO_OWNER)
    case Some(user) =>
      var (loaded, goesOn) := Loaded(parse, req.skipValidation, Fields(api, before.spec, WithOwner(s, user)));
      if goesOn && loaded.spec != before.spec then loaded.(status := Some(PENDING)) else loaded
  }

  // ----- Preparation, as the source writes it -----

  class StackObject {
    var spec: Spec
    var status: Option<C.Status>

    constructor (s: Stack)
      ensures Value() == s
    {
      spec := s.spec;
      status := s.status;
    }

    function Value(): Stack
      reads this
    {
      Stack(spec, status)
    }

    method PrepareOwnership(req: Request) returns (error: Option<string>)
      modifies this
      ensures error.None? <==> req.user.Some?
      ensures Value() == if req.user.Some? then WithOwner(old(Value()), req.user.value) else old(Value())
      ensures error.Some? ==> error.value == NO_OWNER
    {
      if req.user.Some? {
        spec := spec.(owner := req.user.value);
        return None;
      }
      return Some(NO_OWNER);
    }

    method PrepareFields(api: Api, before: Spec)
      modifies this
      ensures Value() == Fields(api, before, old(Value()))
    {
      match api
      case V1beta1 =>
        if spec.composeFile != before.composeFile {
          spec := spec.(stack := None);
        } else {
          spec := spec.(stack := before.stack);
        }
      case V1beta2 =>
        spec := spec.(composeFile := before.composeFile);
        var same := spec.stack == before.stack;
        if !same && !HasPrefix(spec.composeFile, OUT_OF_DATE) && spec.composeFile != "" {
          spec := spec.(composeFile := OUT_OF_DATE + spec.composeFile);
        }
    }

    method PrepareFromComposeFile(parse: Parser, relaxed: bool) returns (error: Option<string>)
      modifies this
      ensures var (loaded, goesOn) := Loaded(parse, relaxed, old(Value()));
              && (error.None? <==> goesOn)
              && (goesOn ==> Value() == loaded)
              && (!goesOn ==> Value() == old(Value()) && loaded == Failed(Value(), error.value))
    {
      if spec.stack.None? {
        var config := parse(spec.composeFile);
        if config.Err? {
          if relaxed {
            status := Some(C.Status(C.Failure, "parsing error: " + config.message));
            return None;
          }
          return Some("parsing error: " + config.message);
        }
        spec := spec.(stack := Some(config.value));
      }
      return None;
    }

    method Fail(message: string)
      modifies this
      ensures Value() == Failed(old(Value()), message)
    {
      status := Some(C.Status(C.Failure, message));
    }

    method PrepareForCreate(parse: Parser, req: Request)
      modifies this
      ensures Value() == PreparedForCreate(parse, req, old(Value()))
      ensures spec.composeFile == old(spec.composeFile)
      ensures req.user.None? ==> spec == old(spec) && status == Some(C.Status(C.Failure, NO_OWNER))
      ensures req.user.Some? ==>
                && spec.owner == req.user.value
                && (old(spec.stack).Some? ==> spec.stack == old(spec.stack) && status == Some(PENDING))
                && (old(spec.stack).None? ==>
                      match parse(spec.composeFile)
                      case Ok(stack) => spec.stack == Some(stack) && status == Some(PENDING)
                      case Err(message) =>
                        && spec.stack.None?
                        && status == Some(if req.skipValidation then PENDING
                                          else C.Status(C.Failure, "parsing error: " + message)))
    {
      var error := PrepareOwnership(req);
      if error.Some? {
        Fail(error.value);
        return;
      }
      error := PrepareFromComposeFile(parse, req.skipValidation);
      if error.Some? {
        Fail(error.value);
        return;
      }
      status := Some(PENDING);
    }

    method PrepareForUpdate(parse: Parser, api: Api, req: Request, before: Stack)
      modifies this
      ensures Value() == PreparedForUpdate(parse, api, req, before, old(Value()))
    {
      var error := PrepareOwnership(req);
      if error.Some? {
        Fail(error.value);
        return;
      }
      PrepareFields(api, before.spec);
      error := PrepareFromComposeFile(parse, req.skipValidation);
      if error.Some? {
        Fail(error.value);
        return;
      }
      if spec != before.spec {
        status := Some(PENDING);
      }
    }
  }

  // ----- Validation and storage -----

  /** Services in the order StackToStack leaves them. */
  function Normal(s: C.StackSpec): C.StackSpec { s.(services := Convert.SortByName(s.services)) }

  function Sorted(s: Stack): Stack {
    match s.spec.stack
    case None => s
    case Some(stack) => s.(spec := s.spec.(stack := Some(Normal(stack))))
  }

  /** The checks on names, on the dry run and on collisions, left uninterpreted. */
  type Checks = Stack -> bool

  /** What a create request stores, or None when it is refused. */
  function Created(parse: Parser, checks: Checks, req: Request, s: Stack): Option<Stack> {
    var prepared := PreparedForCreate(parse, req, s);
    if req.skipValidation then Some(prepared)
    else if prepared.status.Some? && prepared.status.value.phase.Failure? then None
    else if prepared.spec.stack.Some? && checks(prepared) then Some(Sorted(prepared))
    else None
  }

  /** What an update request stores, or None when it is refused. */
  function Updated(parse: Parser, checks: Checks, api: Api, req: Request, before: Stack, s: Stack): Option<Stack> {
    var prepared := PreparedForUpdate(parse, api, req, before, s);
    if req.skipValidation then Some(prepared)
    else if prepared.spec.stack.Some? && checks(prepared) then Some(Sorted(prepared))
    else None
  }

  // ----- Requests -----

  /** A request, with the object its client submits. */
  datatype Op =
    | CreateComposeFile(composeFile: string)                          // v1beta1, and the composeFile subresource
    | CreateStructured(stack: Option<C.StackSpec>)                    // v1beta2 and later
    | UpdateV1beta1(composeFile: string, status: Option<C.Status>)
    | UpdateStructured(stack: Option<C.StackSpec>, status: Option<C.Status>)   // v1beta2 and later, and status updates
    | UpdateComposeFile(composeFile: string)                          // the composeFile subresource
    | UpdateScale(scaled: C.StackSpec)                                // the scale subresource, once transformed
    | Remove

  function SubmittedNew(op: Op): Stack
    requires op.CreateComposeFile? || op.CreateStructured?
  {
    match op
    case CreateComposeFile(f) => Stack(Spec(f, None, ""), None)
    case CreateStructured(stack) => Stack(Spec("", stack, ""), None)
  }

  predicate IsUpdate(op: Op) { op.UpdateV1beta1? || op.UpdateStructured? || op.UpdateComposeFile? || op.UpdateScale? }

  function Submitted(op: Op, before: Stack): Stack
    requires IsUpdate(op)
  {
    match op
    case UpdateV1beta1(f, status) => Stack(Spec(f, None, ""), Some(status.GetOr(NO_STATUS)))
    case UpdateStructured(stack, status) => Stack(Spec("", stack, ""), status)
    case UpdateComposeFile(f) => before.(spec := before.spec.(composeFile := f, stack := None))
    case UpdateScale(stack) => before.(spec := before.spec.(stack := Some(stack)))
  }

  function ApiOf(op: Op): Api { if op.UpdateV1beta1? || op.UpdateComposeFile? then V1beta1 else V1beta2 }

  /** The stored stack after a request; a refused request changes nothing. */
  function Step(parse: Parser, checks: Checks, stored: Option<Stack>, op: Op, req: Request): Option<Stack> {
    if op.Remove? then None
    else if op.CreateComposeFile? || op.CreateStructured? then
      if stored.Some? then stored else Created(parse, checks, req, SubmittedNew(op))
    else if stored.None? then stored
    else
      var updated := Updated(parse, checks, ApiOf(op), req, stored.value, Submitted(op, stored.value));
      if updated.None? then stored else updated
  }

  lemma StepUpdates(parse: Parser, checks: Checks, before: Stack, op: Op, req: Request, r: Stack)
    requires IsUpdate(op) && Updated(parse, checks, ApiOf(op), req, before, Submitted(op, before)) == Some(r)
    ensures Step(parse, checks, Some(before), op, req) == Some(r)
  {
  }

  // ----- What a request stores, field by field -----

  /** The stack that is stored of `stack`: itself if validation is skipped, else with its services in order. */
  predicate KeptAs(req: Request, stack: C.StackSpec, stored: C.StackSpec) {
    if req.skipValidation then stored == stack
    else
      && stored.secrets == stack.secrets && stored.configs == stack.configs
      && multiset(stored.services) == multiset(stack.services) && Convert.ByName(stored.services)
  }

  /** What is stored has this file, this owner, this status and this stack, up to the order of its services. */
  predicate Holds(req: Request, stored: Stack, file: string, stack: C.StackSpec, owner: string,
                  status: Option<C.Status>) {
    && stored.spec.composeFile == file && stored.spec.owner == owner && stored.status == status
    && stored.spec.stack.Some? && KeptAs(req, stack, stored.spec.stack.value)
  }

  lemma SortedKept(req: Request, s: Stack)
    requires s.spec.stack.Some?
    ensures var stored := if req.skipValidation then s else Sorted(s);
            Holds(req, stored, s.spec.composeFile, s.spec.stack.value, s.spec.owner, s.status)
  {
    Convert.SortOrders(s.spec.stack.value.services);
  }

  /**
  A create by a known user stores the structured stack that was submitted or, without one, what the
  file loads to, with the file, the user as its owner and the pending status; it is refused if the
  file does not load or a check fails.  If validation is skipped nothing is refused, and a file that
  does not load is stored without a stack: the failure is overwritten by the pending status.
  */
  lemma CreateStores(parse: Parser, checks: Checks, op: Op, req: Request, user: string, file: string,
                     stack: Option<C.StackSpec>)
    requires req.user == Some(user)
    requires (op == CreateComposeFile(file) && stack.None?) || (op == CreateStructured(stack) && file == "")
    ensures var next := Step(parse, checks, None, op, req);
            var pending := Some(C.Status(C.ReconciliationPending, "Stack is waiting for reconciliation"));
            match if stack.Some? then Ok(stack.value) else parse(file)
            case Ok(asked) =>
              && (next.Some? <==> req.skipValidation || checks(Stack(Spec(file, Some(asked), user), pending)))
              && (next.Some? ==> Holds(req, next.value, file, asked, user, pending))
            case Err(_) => next == if req.skipValidation then Some(Stack(Spec(file, None, user), pending)) else None
  {
    var asked := if stack.Some? then Ok(stack.value) else parse(file);
    if asked.Ok? {
      SortedKept(req, Stack(Spec(file, Some(asked.value), user), Some(PENDING)));
    }
  }

  /** A create under a name that is taken changes nothing; one by an unknown user is refused or stored as failed. */
  lemma OtherCreates(parse: Parser, checks: Checks, stored: Option<Stack>, op: Op, req: Request, file: string,
                     stack: Option<C.StackSpec>)
    requires (op == CreateComposeFile(file) && stack.None?) || (op == CreateStructured(stack) && file == "")
    requires stored.Some? || req.user.None?
    ensures Step(parse, checks, stored, op, req) ==
            if stored.Some? then stored
            else if req.skipValidation then
              Some(Stack(Spec(file, stack, ""),
                         Some(C.Status(C.Failure, "can't extract owner information from request"))))
            else None
  {
  }

  /** The stack an update submits in structured form. */
  function StructureSent(op: Op): Option<C.StackSpec> {
    match op
    case UpdateStructured(stack, _) => stack
    case UpdateScale(scaled) => Some(scaled)
    case _ => None
  }

  function StatusSent(op: Op, before: Stack): Option<C.Status> {
    match op
    case UpdateV1beta1(_, status) => if status.Some? then status else Some(C.Status(C.OtherPhase(""), ""))
    case UpdateStructured(_, status) => status
    case _ => before.status
  }

  /** The file after an update: the one submitted, else the old one, marked if the stack it describes changed. */
  function FileAfter(op: Op, before: Stack): string {
    match op
    case UpdateV1beta1(file, _) => file
    case UpdateComposeFile(file) => file
    case _ =>
      var kept := before.spec.composeFile;
      if StructureSent(op) == before.spec.stack || kept == "" || HasPrefix(kept, OUT_OF_DATE) then kept
      else OUT_OF_DATE + kept
  }

  /** The stack after an update: the one submitted, the old one of an unchanged file, else what the file loads to. */
  function StackAfter(parse: Parser, op: Op, before: Stack): Result<C.StackSpec> {
    var sameFile := (op.UpdateV1beta1? || op.UpdateComposeFile?) && op.composeFile == before.spec.composeFile;
    if StructureSent(op).Some? then Ok(StructureSent(op).value)
    else if sameFile && before.spec.stack.Some? then Ok(before.spec.stack.value)
    else parse(FileAfter(op, before))
  }

  function StatusAfter(before: Stack, spec: Spec, same: Option<C.Status>): Option<C.Status> {
    if spec == before.spec then same
    else Some(C.Status(C.ReconciliationPending, "Stack is waiting for reconciliation"))
  }

  lemma UpdatePrepares(parse: Parser, before: Stack, op: Op, req: Request, user: string)
    requires IsUpdate(op) && req.user == Some(user)
    ensures var r := PreparedForUpdate(parse, ApiOf(op), req, before, Submitted(op, before));
            var file := FileAfter(op, before);
            match StackAfter(parse, op, before)
            case Ok(stack) =>
              var spec := Spec(file, Some(stack), user);
              r == Stack(spec, StatusAfter(before, spec, StatusSent(op, before)))
            case Err(message) =>
              var spec := Spec(file, None, user);
              var failed := Some(C.Status(C.Failure, "parsing error: " + message));
              r == Stack(spec, if req.skipValidation then StatusAfter(before, spec, failed) else failed)
  {
  }

  /** What becomes of a prepared update. */
  lemma UpdateOutcome(parse: Parser, checks: Checks, before: Stack, op: Op, req: Request, r: Stack)
    requires IsUpdate(op) && PreparedForUpdate(parse, ApiOf(op), req, before, Submitted(op, before)) == r
    ensures Step(parse, checks, Some(before), op, req) ==
            Some(if req.skipValidation then r else if r.spec.stack.Some? && checks(r) then Sorted(r) else before)
  {
  }

  lemma OutcomeHolds(checks: Checks, before: Stack, req: Request, spec: Spec, status: Option<C.Status>, next: Stack)
    requires var r := Stack(spec, status);
             next == if req.skipValidation then r else if r.spec.stack.Some? && checks(r) then Sorted(r) else before
    ensures if spec.stack.None? then next == if req.skipValidation then Stack(spec, status) else before
            else if req.skipValidation || checks(Stack(spec, status)) then
              Holds(req, next, spec.composeFile, spec.stack.value, spec.owner, status)
            else next == before
  {
    if spec.stack.Some? {
      SortedKept(req, Stack(spec, status));
    }
  }

  /**
  An update by a known user stores this file, this stack and the user as owner; the status is
  pending if any of them changed, else the one submitted.  It is refused, and changes nothing, if
  there is no stack or a check fails, unless validation is skipped.
  */
  lemma UpdateStores(parse: Parser, checks: Checks, before: Stack, op: Op, req: Request, user: string)
    requires IsUpdate(op) && req.user == Some(user)
    ensures var next, file := Step(parse, checks, Some(before), op, req), FileAfter(op, before);
            && next.Some?
            && match StackAfter(parse, op, before)
               case Ok(stack) =>
                 var spec := Spec(file, Some(stack), user);
                 var status := StatusAfter(before, spec, StatusSent(op, before));
                 if req.skipValidation || checks(Stack(spec, status))
                 then Holds(req, next.value, file, stack, user, status) else next.value == before
               case Err(message) =>
                 var spec := Spec(file, None, user);
                 var failed := Some(C.Status(C.Failure, "parsing error: " + message));
                 next.value == if req.skipValidation then Stack(spec, StatusAfter(before, spec, failed)) else before
  {
    UpdatePrepares(parse, before, op, req, user);
    var r := PreparedForUpdate(parse, ApiOf(op), req, before, Submitted(op, before));
    UpdateOutcome(parse, checks, before, op, req, r);
    OutcomeHolds(checks, before, req, r.spec, r.status, Step(parse, checks, Some(before), op, req).value);
  }

  datatype Event = Event(op: Op, req: Request)

  function Run(parse: Parser, checks: Checks, stored: Option<Stack>, events: seq<Event>): Option<Stack> {
    if events == [] then stored
    else
      var n := |events| - 1;
      Step(parse, checks, Run(parse, checks, stored, events[..n]), events[n].op, events[n].req)
  }

  // ----- Coherence -----

  /** The same structured stack, up to the order of services. */
  predicate Same(a: Option<C.StackSpec>, b: Result<C.StackSpec>) {
    match a
    case None => b.Err?
    case Some(s) => b.Ok? && Normal(s) == Normal(b.value)
  }

  /** The structured stack is what the compose file says, unless there is no file or it says it is outdated. */
  predicate Coherent(parse: Parser, s: Stack) {
    s.spec.composeFile == "" || HasPrefix(s.spec.composeFile, OUT_OF_DATE)
        || Same(s.spec.stack, parse(s.spec.composeFile))
  }

  lemma SameNormal(a: C.StackSpec, b: Result<C.StackSpec>)
    ensures Same(Some(Normal(a)), b) <==> Same(Some(a), b)
  {
    Convert.SortIdempotent(a.services);
  }

  /** The sort of the dry run does not matter. */
  lemma SortedCoherent(parse: Parser, s: Stack)
    ensures Coherent(parse, Sorted(s)) <==> Coherent(parse, s)
  {
    if s.spec.stack.Some? { SameNormal(s.spec.stack.value, parse(s.spec.composeFile)); }
  }

  lemma LoadedCoherent(parse: Parser, relaxed: bool, s: Stack)
    requires s.spec.stack.None? || Coherent(parse, s)
    ensures Coherent(parse, Loaded(parse, relaxed, s).0)
  {
  }

  lemma MarkerIsPrefix(f: string)
    ensures HasPrefix(OUT_OF_DATE + f, OUT_OF_DATE)
  {
  }

  lemma FieldsCoherent(parse: Parser, api: Api, before: Stack, s: Stack)
    requires Coherent(parse, before)
    ensures var r := Fields(api, before.spec, s); r.spec.stack.None? || Coherent(parse, r)
  {
    MarkerIsPrefix(before.spec.composeFile);
  }

  lemma PreparedForUpdateCoherent(parse: Parser, api: Api, req: Request, before: Stack, s: Stack)
    requires req.user.Some? && Coherent(parse, before)
    ensures Coherent(parse, PreparedForUpdate(parse, api, req, before, s))
  {
    var t := WithOwner(s, req.user.value);
    FieldsCoherent(parse, api, before, t);
    LoadedCoherent(parse, req.skipValidation, Fields(api, before.spec, t));
  }

  lemma PreparedForCreateCoherent(parse: Parser, req: Request, s: Stack)
    requires req.user.Some? && (s.spec.stack.None? || s.spec.composeFile == "")
    ensures Coherent(parse, PreparedForCreate(parse, req, s))
  {
    LoadedCoherent(parse, req.skipValidation, WithOwner(s, req.user.value));
  }

  lemma StepCoherent(parse: Parser, checks: Checks, stored: Option<Stack>, op: Op, req: Request)
    requires req.user.Some? && (stored.Some? ==> Coherent(parse, stored.value))
    ensures var next := Step(parse, checks, stored, op, req); next.Some? ==> Coherent(parse, next.value)
  {
    if IsUpdate(op) {
      if stored.Some? {
        var prepared := PreparedForUpdate(parse, ApiOf(op), req, stored.value, Submitted(op, stored.value));
        PreparedForUpdateCoherent(parse, ApiOf(op), req, stored.value, Submitted(op, stored.value));
        SortedCoherent(parse, prepared);
      }
    } else if !op.Remove? {
      PreparedForCreateCoherent(parse, req, SubmittedNew(op));
      SortedCoherent(parse, PreparedForCreate(parse, req, SubmittedNew(op)));
    }
  }

  predicate Authenticated(events: seq<Event>) { forall e :: e in events ==> e.req.user.Some? }

  /** Over every run of authenticated requests, compose file and structured stack stay coherent. */
  lemma {:induction false} ComposeFileCoherence(parse: Parser, checks: Checks, events: seq<Event>)
    requires Authenticated(events)
    ensures var stored := Run(parse, checks, None, events); stored.Some? ==> Coherent(parse, stored.value)
  {
    if events != [] {
      var n := |events| - 1;
      ComposeFileCoherence(parse, checks, events[..n]);
      StepCoherent(parse, checks, Run(parse, checks, None, events[..n]), events[n].op, events[n].req);
    }
  }

  // ----- Requests without a user -----

  predicate PlainOrLoads(parse: Parser, file: string, stack: Option<C.StackSpec>) {
    file == "" || HasPrefix(file, OUT_OF_DATE) || Same(stack, parse(file))
  }

  /** The request gets past validation although its user is unknown: only creations look at the failure status. */
  predicate AnonymousStored(checks: Checks, stored: Option<Stack>, op: Op, req: Request) {
    if op.Remove? then false
    else if IsUpdate(op) then
      stored.Some? && (req.skipValidation ||
                       (Submitted(op, stored.value).spec.stack.Some?
                        && checks(Failed(Submitted(op, stored.value), NO_OWNER))))
    else stored.None? && req.skipValidation
  }

  /** What the client sends is coherent as it is, since nothing is loaded for it. */
  predicate SendsCoherent(parse: Parser, stored: Option<Stack>, op: Op) {
    match op
    case CreateComposeFile(f) => PlainOrLoads(parse, f, None)
    case UpdateV1beta1(f, _) => PlainOrLoads(parse, f, None)
    case UpdateComposeFile(f) => PlainOrLoads(parse, f, None)
    case UpdateScale(scaled) => stored.Some? ==> PlainOrLoads(parse, stored.value.spec.composeFile, Some(scaled))
    case _ => true
  }

  /** A request whose user is unknown keeps coherence exactly if it is refused or sends something coherent itself. */
  lemma AnonymousCoherentIff(parse: Parser, checks: Checks, stored: Option<Stack>, op: Op, req: Request)
    requires req.user.None? && (stored.Some? ==> Coherent(parse, stored.value))
    ensures var next := Step(parse, checks, stored, op, req);
            (next.Some? ==> Coherent(parse, next.value)) <==>
            !AnonymousStored(checks, stored, op, req) || SendsCoherent(parse, stored, op)
  {
    if AnonymousStored(checks, stored, op, req) {
      var s := if IsUpdate(op) then Submitted(op, stored.value) else SubmittedNew(op);
      SortedCoherent(parse, Failed(s, NO_OWNER));
    }
  }

  /** A request without a user that skips validation can store a compose file next to no stack at all. */
  lemma AnonymousRequestBreaksCoherence(stack: C.StackSpec)
    ensures var parse: Parser := f => Ok(stack);
            var event := Event(CreateComposeFile("services:"), Request(None, true));
            var stored := Run(parse, s => true, None, [event]);
            stored.Some? && !Coherent(parse, stored.value)
  {
    var parse: Parser := f => Ok(stack);
    var event := Event(CreateComposeFile("services:"), Request(None, true));
    assert [event][..0] == [];
    assert !HasPrefix("services:", OUT_OF_DATE);
  }

  // ----- One marker at most -----

  predicate TwiceMarked(f: string) { HasPrefix(f, OUT_OF_DATE + OUT_OF_DATE) }

  /** The compose file a client submits, if any. */
  predicate SubmitsPlainFile(op: Op) {
    match op
    case CreateComposeFile(f) => !TwiceMarked(f)
    case UpdateV1beta1(f, _) => !TwiceMarked(f)
    case UpdateComposeFile(f) => !TwiceMarked(f)
    case _ => true
  }

  /** A structured update keeps the file, or marks it once if it was not marked. */
  lemma StructuredUpdateMarksOnce(parse: Parser, req: Request, before: Stack, s: Stack)
    requires req.user.Some?
    ensures var f, f' := before.spec.composeFile, PreparedForUpdate(parse, V1beta2, req, before, s).spec.composeFile;
            f' == f || (f != "" && !HasPrefix(f, OUT_OF_DATE) && s.spec.stack != before.spec.stack
                        && f' == OUT_OF_DATE + f)
  {
  }

  lemma PrefixCancels(m: string, f: string)
    ensures HasPrefix(m + f, m + m) <==> HasPrefix(f, m)
  {
    if |m| <= |f| {
      assert (m + f)[..|m| + |m|] == m + f[..|m|];
      assert (m + f[..|m|])[|m|..] == f[..|m|] && (m + m)[|m|..] == m;
    }
  }

  lemma MarkedOnce(f: string)
    requires !HasPrefix(f, OUT_OF_DATE)
    ensures !TwiceMarked(OUT_OF_DATE + f)
  {
    PrefixCancels(OUT_OF_DATE, f);
  }

  lemma PreparedFile(parse: Parser, api: Api, req: Request, before: Stack, s: Stack)
    ensures var f := PreparedForUpdate(parse, api, req, before, s).spec.composeFile;
            || f == s.spec.composeFile || f == before.spec.composeFile
            || (!HasPrefix(before.spec.composeFile, OUT_OF_DATE) && f == OUT_OF_DATE + before.spec.composeFile)
  {
  }

  lemma PreparedMarksOnce(parse: Parser, api: Api, req: Request, before: Stack, s: Stack)
    requires !TwiceMarked(before.spec.composeFile) && !TwiceMarked(s.spec.composeFile)
    ensures !TwiceMarked(PreparedForUpdate(parse, api, req, before, s).spec.composeFile)
  {
    PreparedFile(parse, api, req, before, s);
    if !HasPrefix(before.spec.composeFile, OUT_OF_DATE) { MarkedOnce(before.spec.composeFile); }
  }

  lemma CreatedFile(parse: Parser, req: Request, s: Stack)
    ensures PreparedForCreate(parse, req, s).spec.composeFile == s.spec.composeFile
  {
  }

  lemma NewFilePlain(op: Op)
    requires SubmitsPlainFile(op) && (op.CreateComposeFile? || op.CreateStructured?)
    ensures !TwiceMarked(SubmittedNew(op).spec.composeFile)
  {
  }

  lemma FilePlain(op: Op, before: Stack)
    requires SubmitsPlainFile(op) && IsUpdate(op) && !TwiceMarked(before.spec.composeFile)
    ensures !TwiceMarked(Submitted(op, before).spec.composeFile)
  {
  }

  lemma StepMarksOnce(parse: Parser, checks: Checks, stored: Option<Stack>, op: Op, req: Request)
    requires SubmitsPlainFile(op) && (stored.Some? ==> !TwiceMarked(stored.value.spec.composeFile))
    ensures var next := Step(parse, checks, stored, op, req); next.Some? ==> !TwiceMarked(next.value.spec.composeFile)
  {
    if IsUpdate(op) {
      if stored.Some? {
        FilePlain(op, stored.value);
        PreparedMarksOnce(parse, ApiOf(op), req, stored.value, Submitted(op, stored.value));
      }
    } else if !op.Remove? {
      NewFilePlain(op);
      CreatedFile(parse, req, SubmittedNew(op));
    }
  }

  /** Over every run, no file carries the marker twice unless a client submitted it so. */
  lemma {:induction false} NeverMarkedTwice(parse: Parser, checks: Checks, events: seq<Event>)
    requires forall e :: e in events ==> SubmitsPlainFile(e.op)
    ensures var stored := Run(parse, checks, None, events); stored.Some? ==> !TwiceMarked(stored.value.spec.composeFile)
  {
    if events != [] {
      var n := |events| - 1;
      NeverMarkedTwice(parse, checks, events[..n]);
      StepMarksOnce(parse, checks, Run(parse, checks, None, events[..n]), events[n].op, events[n].req);
    }
  }
}
