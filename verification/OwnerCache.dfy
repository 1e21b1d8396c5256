/**
The stack owner cache (internal/controller/stackownercache.go).  Every operation holds the
mutex from start to end, the API call of getWithError included, so an interleaving of callers
is a sequence of operations.  Operation number `t` takes place at time `t`, and the API server
is a function from a stack key and a time to its answer.
*/
module OwnerCache {

  datatype Config = Config(userName: string, groups: seq<string>, extra: map<string, seq<string>>)

  /** The API server's answer to GET stacks/<key>/owner. */
  datatype Answer = Found(owner: Config) | NotFound | Failed(message: string)

  datatype Entry = Entry(config: Config, dirty: bool)

  datatype Outcome = Granted(config: Config) | Refused(answer: Answer)

  type Server = (string, nat) -> Answer

  // ----- The operations on the map -----

  function WithDirty(data: map<string, Entry>, key: string): map<string, Entry> {
    if key in data then data[key := data[key].(dirty := true)] else data
  }

  predicate Hit(data: map<string, Entry>, key: string, acceptDirty: bool) {
    key in data && (!data[key].dirty || acceptDirty)
  }

  function AfterGet(data: map<string, Entry>, key: string, acceptDirty: bool, answer: Answer): map<string, Entry> {
    if !Hit(data, key, acceptDirty) && answer.Found? then data[key := Entry(answer.owner, false)] else data
  }

  function GetOutcome(data: map<string, Entry>, key: string, acceptDirty: bool, answer: Answer): Outcome {
    if Hit(data, key, acceptDirty) then Granted(data[key].config)
    else match answer
    case Found(owner) => Granted(owner)
    case NotFound => if key in data then Granted(data[key].config) else Refused(answer)
    case Failed(_) => Refused(answer)
  }

  /** What a get answers: a usable entry, else what the server knows, else the entry of a stack that is gone. */
  predicate Answers(data: map<string, Entry>, key: string, acceptDirty: bool, answer: Answer, outcome: Outcome) {
    if key in data && (acceptDirty || !data[key].dirty) then outcome == Granted(data[key].config)
    else if answer.Found? then outcome == Granted(answer.owner)
    else if answer.NotFound? && key in data then outcome == Granted(data[key].config)
    else outcome == Refused(answer)
  }

  /**
  A get is refused exactly when the server gives no owner and the cache has none to fall back on: no
  entry at all, or a dirty one that was not asked for while the stack is not gone.
  */
  lemma RefusedIff(data: map<string, Entry>, key: string, acceptDirty: bool, answer: Answer)
    ensures Answers(data, key, acceptDirty, answer, GetOutcome(data, key, acceptDirty, answer))
    ensures GetOutcome(data, key, acceptDirty, answer).Refused? <==>
            !answer.Found? && (key in data ==> data[key].dirty && !acceptDirty && !answer.NotFound?)
  {
  }

  /** stackOwnerCache itself. */
  class StackOwnerCache {
    var data: map<string, Entry>

    constructor ()
      ensures data == map[]
    {
      data := map[];
    }

    method Remove(key: string)
      modifies this
      ensures data == old(data) - {key}
    {
      data := data - {key};
    }

    method SetDirty(key: string)
      modifies this
      ensures data == WithDirty(old(data), key)
      ensures data.Keys == old(data).Keys
      ensures forall k :: k in data ==>
                data[k].config == old(data)[k].config && data[k].dirty == (old(data)[k].dirty || k == key)
    {
      if key in data {
        var entry := data[key];
        entry := entry.(dirty := true);
        data := data[key := entry];
      }
    }

    /** `answer` is what the getter returns if it is asked. */
    method GetWithError(key: string, acceptDirty: bool, answer: Answer) returns (outcome: Outcome)
      modifies this
      ensures data == AfterGet(old(data), key, acceptDirty, answer)
      ensures outcome == GetOutcome(old(data), key, acceptDirty, answer)
      ensures Answers(old(data), key, acceptDirty, answer, outcome)
      ensures var asked := key in old(data) ==> old(data)[key].dirty && !acceptDirty;
              data == if asked && answer.Found? then old(data)[key := Entry(answer.owner, false)] else old(data)
    {
      if key in data {
        var v := data[key];
        if !v.dirty || acceptDirty {
          return Granted(v.config);
        }
      }
      if !answer.Found? {
        if answer.NotFound? && key in data {
          return Granted(data[key].config);
        }
        return Refused(answer);
      }
      data := data[key := Entry(answer.owner, false)];
      return Granted(answer.owner);
    }
  }

  // ----- Runs -----

  datatype Op = SetDirty(key: string) | Remove(key: string) | Get(key: string, acceptDirty: bool)

  /** The cache after the operations, the first one taking place at time 0. */
  function After(server: Server, ops: seq<Op>): map<string, Entry> {
    if ops == [] then map[]
    else
      var t := |ops| - 1;
      var data := After(server, ops[..t]);
      match ops[t]
      case SetDirty(key) => WithDirty(data, key)
      case Remove(key) => data - {key}
      case Get(key, acceptDirty) => AfterGet(data, key, acceptDirty, server(key, t))
  }

  /** Operation `t` asked the server for the owner of the stack and was answered `config`. */
  predicate FetchedAt(server: Server, ops: seq<Op>, key: string, config: Config, t: nat) {
    && t < |ops| && ops[t].Get? && ops[t].key == key
    && !Hit(After(server, ops[..t]), key, ops[t].acceptDirty) && server(key, t) == Found(config)
  }

  predicate CleanSince(ops: seq<Op>, key: string, t: nat) {
    forall i :: 0 <= i < |ops| && ops[i] == SetDirty(key) ==> i < t
  }

  /** `config` was fetched after the last setDirty of its key. */
  ghost predicate FetchedSinceDirty(server: Server, ops: seq<Op>, key: string, config: Config) {
    exists t: nat :: FetchedAt(server, ops, key, config, t) && CleanSince(ops, key, t)
  }

  ghost predicate FetchedOnce(server: Server, ops: seq<Op>, key: string, config: Config) {
    exists t: nat :: FetchedAt(server, ops, key, config, t)
  }

  lemma FetchedAtKept(server: Server, ops: seq<Op>, op: Op, key: string, config: Config, t: nat)
    requires FetchedAt(server, ops, key, config, t)
    ensures FetchedAt(server, ops + [op], key, config, t)
  {
    assert (ops + [op])[..t] == ops[..t];
  }

  lemma FetchedKept(server: Server, ops: seq<Op>, op: Op, key: string, config: Config)
    ensures FetchedOnce(server, ops, key, config) ==> FetchedOnce(server, ops + [op], key, config)
    ensures FetchedSinceDirty(server, ops, key, config) && op != SetDirty(key)
            ==> FetchedSinceDirty(server, ops + [op], key, config)
  {
    var ops' := ops + [op];
    if t: nat :| FetchedAt(server, ops, key, config, t) {
      FetchedAtKept(server, ops, op, key, config, t);
    }
    if FetchedSinceDirty(server, ops, key, config) && op != SetDirty(key) {
      var t: nat :| FetchedAt(server, ops, key, config, t) && CleanSince(ops, key, t);
      FetchedAtKept(server, ops, op, key, config, t);
      assert CleanSince(ops', key, t);
    }
  }

  /** In every reachable cache an entry that is not dirty was fetched after the last setDirty of its key. */
  lemma {:induction false} CleanEntriesAreFresh(server: Server, ops: seq<Op>, key: string)
    requires key in After(server, ops)
    ensures FetchedOnce(server, ops, key, After(server, ops)[key].config)
    ensures !After(server, ops)[key].dirty ==> FetchedSinceDirty(server, ops, key, After(server, ops)[key].config)
  {
    if ops != [] {
      var t := |ops| - 1;
      var before, op := ops[..t], ops[t];
      assert ops == before + [op];
      var data, entry := After(server, before), After(server, ops)[key];
      if op.Get? && op.key == key && !Hit(data, key, op.acceptDirty) && server(key, t).Found? {
        assert entry == Entry(server(key, t).owner, false);
        assert FetchedAt(server, ops, key, entry.config, t);
        assert CleanSince(ops, key, t);
      } else {
        CleanEntriesAreFresh(server, before, key);
        FetchedKept(server, before, op, key, entry.config);
      }
    }
  }

  /**
  A reconcile of a dirty stack asks with acceptDirty false.  Whatever ran before, the owner it
  is granted was fetched, by this request or an earlier one, after the last event that marked
  the key dirty, unless the server no longer knows the stack: then it is the last owner known.
  */
  lemma DirtyReconcileUsesFreshOwner(server: Server, ops: seq<Op>, key: string, config: Config)
    requires GetOutcome(After(server, ops), key, false, server(key, |ops|)) == Granted(config)
    ensures var now := ops + [Get(key, false)];
            || FetchedSinceDirty(server, now, key, config)
            || (server(key, |ops|).NotFound? && key in After(server, ops) && FetchedOnce(server, ops, key, config))
  {
    var data, get := After(server, ops), Get(key, false);
    var now := ops + [get];
    if key in data {
      CleanEntriesAreFresh(server, ops, key);
      FetchedKept(server, ops, get, key, data[key].config);
    }
    if !Hit(data, key, false) && server(key, |ops|).Found? {
      assert now[..|ops|] == ops;
      assert FetchedAt(server, now, key, config, |ops|);
      assert CleanSince(now, key, |ops|);
    }
  }
}
