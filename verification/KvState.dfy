/**
 The deterministic key-value state machine as a value: what `KVStateMachine` holds, and what one
 committed command does to it.  The mutable object itself is in KvMachine.dfy.
 */
module KvState {
  import opened Wrappers

  type Key = string
  type Byte = b: nat | b < 256
  type Bytes = seq<Byte>

  datatype Versioned = Versioned(value: Bytes, version: nat)

  datatype CasSpec = CasSpec(expectAbsent: bool, expectedVersion: int, expected: Bytes, newValue: Bytes)

  datatype Op = Put(value: Bytes) | Delete | Cas(spec: CasSpec) | Noop | Other

  /** A request as it travels in the log: the operation plus the client and sequence number behind it. */
  datatype Command = Command(op: Op, key: Key, client: string, num: int)

  datatype Result =
    | Wrote(version: nat)
    | Deleted(existed: bool)
    | CasDone(swapped: bool, current: Bytes, version: nat)
    | Plain
    | Stale

  /** One client's latest executed request and the answer it got. */
  datatype Session = Session(client: string, num: int, result: Result)

  datatype Store = Store(live: map<Key, Versioned>, tombstones: map<Key, nat>)

  /** `sessions` is ordered, least recently active first. */
  datatype State = State(store: Store, sessions: seq<Session>)

  const EMPTY := State(Store(map[], map[]), [])

  // ---------------------------------------------------------------- the store

  /** The version a key last had, through deletes; 0 if it was never written. */
  function LastVersion(store: Store, key: Key): nat {
    if key in store.live then store.live[key].version
    else if key in store.tombstones then store.tombstones[key]
    else 0
  }

  function Write(store: Store, key: Key, value: Bytes): (Store, nat) {
    var version := LastVersion(store, key) + 1;
    var tombstones := if key in store.live then store.tombstones else store.tombstones - {key};
    (Store(store.live[key := Versioned(value, version)], tombstones), version)
  }

  predicate CasCondition(store: Store, key: Key, spec: CasSpec) {
    if spec.expectAbsent then key !in store.live
    else if spec.expectedVersion > 0 then
      key in store.live && store.live[key].version == spec.expectedVersion
    else key in store.live && store.live[key].value == spec.expected
  }

  function ApplyOp(store: Store, cmd: Command): (Store, Result) {
    match cmd.op
    case Put(value) =>
      var (store', version) := Write(store, cmd.key, value);
      (store', Wrote(version))
    case Delete =>
      if cmd.key in store.live then
        (Store(store.live - {cmd.key}, store.tombstones[cmd.key := store.live[cmd.key].version]), Deleted(true))
      else (store, Deleted(false))
    case Cas(spec) =>
      if CasCondition(store, cmd.key, spec) then
        var (store', version) := Write(store, cmd.key, spec.newValue);
        (store', CasDone(true, spec.newValue, version))
      else if cmd.key in store.live then
        (store, CasDone(false, store.live[cmd.key].value, store.live[cmd.key].version))
      else (store, CasDone(false, [], 0))
    case Noop => (store, Plain)
    case Other => (store, Plain)
  }

  // ------------------------------------------------------------- the sessions

  predicate Tracked(cmd: Command) {
    cmd.client != "" && cmd.num > 0
  }

  function Find(sessions: seq<Session>, client: string): Option<Session> {
    if sessions == [] then None
    else if sessions[0].client == client then Some(sessions[0])
    else Find(sessions[1..], client)
  }

  /** The answer already known for a request, if its client's session covers it. */
  function SessionResult(sessions: seq<Session>, client: string, num: int): Option<Result> {
    match Find(sessions, client)
    case None => None
    case Some(s) =>
      if num > s.num then None
      else if num == s.num then Some(s.result)
      else Some(Stale)
  }

  function Without(sessions: seq<Session>, client: string): seq<Session> {
    if sessions == [] then []
    else if sessions[0].client == client then Without(sessions[1..], client)
    else [sessions[0]] + Without(sessions[1..], client)
  }

  function Newest(sessions: seq<Session>, max: nat): seq<Session> {
    if |sessions| > max then sessions[|sessions| - max..] else sessions
  }

  function Remember(sessions: seq<Session>, max: nat, s: Session): seq<Session> {
    Newest(Without(sessions, s.client) + [s], max)
  }

  function LookupSession(sessions: seq<Session>, client: string, num: int): Option<Result> {
    if client == "" || num <= 0 then None else SessionResult(sessions, client, num)
  }

  // -------------------------------------------------------------- the machine

  /** Whether the state machine runs the command instead of answering it from a session. */
  predicate Executes(s: State, cmd: Command) {
    Tracked(cmd) ==> SessionResult(s.sessions, cmd.client, cmd.num).None?
  }

  function Apply(s: State, max: nat, cmd: Command): (State, Result) {
    if Executes(s, cmd) then
      var (store, result) := ApplyOp(s.store, cmd);
      var sessions := if Tracked(cmd) then Remember(s.sessions, max, Session(cmd.client, cmd.num, result))
                      else s.sessions;
      (State(store, sessions), result)
    else (s, SessionResult(s.sessions, cmd.client, cmd.num).value)
  }

  /** The state after applying a whole log, oldest command first. */
  function ApplyAll(s: State, max: nat, cmds: seq<Command>): State {
    if cmds == [] then s
    else Apply(ApplyAll(s, max, cmds[..|cmds| - 1]), max, cmds[|cmds| - 1]).0
  }

  lemma {:induction false} ApplyAllConcat(s: State, max: nat, a: seq<Command>, b: seq<Command>)
    ensures ApplyAll(s, max, a + b) == ApplyAll(ApplyAll(s, max, a), max, b)
  {
    if b == [] {
      assert a + b == a;
    } else {
      var n := |b| - 1;
      assert (a + b)[..|a + b| - 1] == a + b[..n];
      ApplyAllConcat(s, max, a, b[..n]);
    }
  }

  function Get(s: State, key: Key): Option<Versioned> {
    if key in s.store.live then Some(s.store.live[key]) else None
  }
}
