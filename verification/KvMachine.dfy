/** The state machine object that every replica feeds its committed entries to. */
module KvMachine {
  import opened Wrappers
  import opened KvState
  import KvSnapshot
  import KvHistory

  class KvStateMachine {
    var live: map<Key, Versioned>
    var tombstones: map<Key, nat>
    var sessions: seq<Session>
    const maxSessions: nat

    constructor (maxSessions: nat)
      ensures View() == EMPTY && this.maxSessions == maxSessions
    {
      live, tombstones, sessions := map[], map[], [];
      this.maxSessions := maxSessions;
    }

    /** The object's contents as a value. */
    function View(): State
      reads this
    {
      State(Store(live, tombstones), sessions)
    }

    /** Apply one committed command; a retry of a remembered request changes nothing. */
    method Apply(cmd: Command) returns (result: Result)
      modifies this
      ensures (View(), result) == KvState.Apply(old(View()), maxSessions, cmd)
    {
      var tracked := cmd.client != "" && cmd.num > 0;
      if tracked {
        var cached := SessionResult(cmd.client, cmd.num);
        if cached.Some? {
          return cached.value;
        }
      }
      result := ApplyOp(cmd);
      if tracked {
        Remember(cmd.client, cmd.num, result);
      }
    }

    method ApplyOp(cmd: Command) returns (result: Result)
      modifies `live, `tombstones
      ensures (View().store, result) == KvState.ApplyOp(old(View()).store, cmd)
      // the command works on its key's register and on no other
      ensures var r := KvHistory.RegisterIn(old(View()).store, cmd.key);
              (KvHistory.RegisterIn(View().store, cmd.key), result) == KvHistory.Operate(r, cmd.op)
      ensures forall key: Key :: key != cmd.key ==>
                KvHistory.RegisterIn(View().store, key) == KvHistory.RegisterIn(old(View()).store, key)
    {
      forall key: Key {
        KvHistory.OperatesOnRegister(View().store, cmd, key);
      }
      hide KvHistory.RegisterIn, KvHistory.Operate;
      match cmd.op
      case Put(value) =>
        var version := Write(cmd.key, value);
        result := Wrote(version);
      case Delete =>
        var existed := cmd.key in live;
        if existed {
          var version := live[cmd.key].version;
          live := live - {cmd.key};
          tombstones := tombstones[cmd.key := version];
        }
        result := Deleted(existed);
      case Cas(spec) =>
        var present := cmd.key in live;
        var condition: bool;
        if spec.expectAbsent {
          condition := !present;
        } else if spec.expectedVersion > 0 {
          condition := present && live[cmd.key].version == spec.expectedVersion;
        } else {
          condition := present && live[cmd.key].value == spec.expected;
        }
        if condition {
          var version := Write(cmd.key, spec.newValue);
          result := CasDone(true, spec.newValue, version);
        } else {
          result := CasDone(false, if present then live[cmd.key].value else [],
                                   if present then live[cmd.key].version else 0);
        }
      case Noop => result := Plain;
      case Other => result := Plain;
    }

    /** Store a value and return its new version, which continues from a deleted key's last one. */
    method Write(key: Key, value: Bytes) returns (version: nat)
      modifies `live, `tombstones
      ensures version == LastVersion(old(View()).store, key) + 1
      ensures live == old(live)[key := Versioned(value, version)]
      ensures tombstones == if key in old(live) then old(tombstones) else old(tombstones) - {key}
    {
      if key in live {
        version := live[key].version + 1;
      } else {
        version := (if key in tombstones then tombstones[key] else 0) + 1;
        tombstones := tombstones - {key};
      }
      live := live[key := Versioned(value, version)];
    }

    method SessionResult(client: string, num: int) returns (r: Option<Result>)
      ensures r == KvState.SessionResult(sessions, client, num)
    {
      var i := 0;
      while i < |sessions| && sessions[i].client != client
        invariant i <= |sessions|
        invariant Find(sessions[i..], client) == Find(sessions, client)
      {
        i := i + 1;
      }
      if i == |sessions| || num > sessions[i].num {
        r := None;
      } else if num == sessions[i].num {
        r := Some(sessions[i].result);
      } else {
        r := Some(Stale);
      }
    }

    /** Move the client to the most recently active end, then evict from the other end down to the bound. */
    method Remember(client: string, num: int, result: Result)
      modifies `sessions
      ensures sessions == KvState.Remember(old(sessions), maxSessions, Session(client, num, result))
    {
      sessions := Without(sessions, client) + [Session(client, num, result)];
      ghost var all := sessions;
      while |sessions| > maxSessions
        invariant |sessions| <= |all| && sessions == all[|all| - |sessions|..]
        invariant |sessions| >= maxSessions || sessions == all
      {
        sessions := sessions[1..];
      }
    }

    method LookupSession(client: string, num: int) returns (r: Option<Result>)
      ensures r == KvState.LookupSession(sessions, client, num)
    {
      if client == "" || num <= 0 {
        r := None;
      } else {
        r := SessionResult(client, num);
      }
    }

    method Get(key: Key) returns (value: Bytes, version: nat, found: bool)
      ensures found <==> KvState.Get(View(), key).Some?
      ensures found ==> KvState.Get(View(), key) == Some(Versioned(value, version))
      ensures !found ==> value == [] && version == 0
    {
      if key in live {
        value, version, found := live[key].value, live[key].version, true;
      } else {
        value, version, found := [], 0, false;
      }
    }

    method Snapshot() returns (blob: KvSnapshot.Blob)
      ensures KvSnapshot.Restore(blob) == Some(View())
    {
      blob := KvSnapshot.Snapshot(View());
      KvSnapshot.RestoreSnapshot(View());
    }

    /**
     Replace the contents by a snapshot's.  A malformed blob raises in the source: nothing has changed if a
     stored value is malformed, but store and tombstones are already replaced if only a session is.
     */
    method Restore(blob: KvSnapshot.Blob) returns (ok: bool)
      modifies this
      ensures ok <==> KvSnapshot.Restore(blob).Some?
      ensures ok ==> View() == KvSnapshot.Restore(blob).value
      ensures !ok ==> sessions == old(sessions)
      ensures !ok && (exists k :: k in blob.store && KvSnapshot.Base64.Decode(blob.store[k].text).None?) ==>
                View() == old(View())
      ensures !ok && (forall k :: k in blob.store ==> KvSnapshot.Base64.Decode(blob.store[k].text).Some?) ==>
                && tombstones == blob.tombstones && live.Keys == blob.store.Keys
                && forall k :: k in live ==>
                     live[k] == Versioned(KvSnapshot.Base64.Decode(blob.store[k].text).value, blob.store[k].version)
    {
      if k :| k in blob.store && KvSnapshot.Base64.Decode(blob.store[k].text).None? {
        return false;
      }
      live := map k | k in blob.store ::
        Versioned(KvSnapshot.Base64.Decode(blob.store[k].text).value, blob.store[k].version);
      tombstones := blob.tombstones;
      var loaded := KvSnapshot.LoadSessions(blob.sessions);
      if loaded.None? {
        return false;
      }
      sessions := loaded.value;
      ok := true;
    }
  }
}
