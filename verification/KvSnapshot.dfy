/**
 Snapshots: the document a state machine writes out and reads back.  The document is the tree that the JSON
 text stands for; byte values inside it are base64 text.
 */
module KvSnapshot {
  import opened Wrappers
  import opened KvState
  import Base64

  /** A value in a result dictionary. */
  datatype Value = Bool(b: bool) | Int(n: int) | Raw(bytes: Bytes) | Text(s: string) | Dict(d: map<string, Value>)

  /** One session in a snapshot; the list order is the eviction order. */
  datatype SavedSession = SavedSession(client: string, num: int, result: map<string, Value>)

  datatype Saved = Saved(text: string, version: nat)

  datatype Blob = Blob(store: map<Key, Saved>, tombstones: map<Key, nat>, sessions: seq<SavedSession>)

  // ------------------------------------------------------ result dictionaries

  function ToDict(r: Result): map<string, Value> {
    match r
    case Wrote(version) => map["success" := Bool(true), "version" := Int(version)]
    case Deleted(existed) => map["success" := Bool(true), "existed" := Bool(existed)]
    case CasDone(swapped, current, version) =>
      map["success" := Bool(true), "swapped" := Bool(swapped), "current" := Raw(current), "version" := Int(version)]
    case Plain => map["success" := Bool(true)]
    case Stale => map["success" := Bool(true), "stale" := Bool(true)]
  }

  function FromDict(d: map<string, Value>): Option<Result> {
    if "stale" in d then Some(Stale)
    else if "existed" in d then
      if d["existed"].Bool? then Some(Deleted(d["existed"].b)) else None
    else if "swapped" in d then
      if d["swapped"].Bool? && "current" in d && d["current"].Raw? && "version" in d && d["version"].Int?
         && d["version"].n >= 0
      then Some(CasDone(d["swapped"].b, d["current"].bytes, d["version"].n)) else None
    else if "version" in d then
      if d["version"].Int? && d["version"].n >= 0 then Some(Wrote(d["version"].n)) else None
    else Some(Plain)
  }

  lemma FromToDict(r: Result)
    ensures FromDict(ToDict(r)) == Some(r)
  {
  }

  /** JSON-safe copy of a result dictionary: bytes become a dictionary holding base64 text. */
  function EncodeResult(d: map<string, Value>): map<string, Value> {
    map k | k in d :: if d[k].Raw? then Dict(map["b64" := Text(Base64.Encode(d[k].bytes))]) else d[k]
  }

  function DecodeValue(v: Value): Option<Value> {
    if v.Dict? && "b64" in v.d then
      if v.d["b64"].Text? then
        match Base64.Decode(v.d["b64"].s) case Some(bytes) => Some(Raw(bytes)) case None => None
      else None
    else Some(v)
  }

  function DecodeResult(d: map<string, Value>): Option<map<string, Value>> {
    if forall k :: k in d ==> DecodeValue(d[k]).Some? then Some(map k | k in d :: DecodeValue(d[k]).value)
    else None
  }

  /** Encoding a result loses nothing, exactly when the result holds no dictionary that already looks encoded. */
  lemma DecodeEncodeResult(d: map<string, Value>)
    ensures DecodeResult(EncodeResult(d)) == Some(d)
       <==> forall k :: k in d ==> !(d[k].Dict? && "b64" in d[k].d)
  {
    var e := EncodeResult(d);
    forall k | k in d && d[k].Raw? ensures DecodeValue(e[k]) == Some(d[k]) {
      Base64.DecodeEncode(d[k].bytes);
    }
    forall k | k in d && d[k].Dict? && "b64" in d[k].d ensures DecodeValue(e[k]) != Some(d[k]) {
    }
    if forall k :: k in d ==> !(d[k].Dict? && "b64" in d[k].d) {
      assert forall k :: k in d ==> DecodeValue(e[k]) == Some(d[k]);
      assert DecodeResult(e).value == d;
    }
    if DecodeResult(e) == Some(d) {
      forall k | k in d ensures DecodeValue(e[k]) == Some(d[k]) {
        assert d[k] == DecodeValue(e[k]).value;
      }
    }
  }

  // ---------------------------------------------------------- whole snapshots

  function SaveSession(s: Session): SavedSession {
    SavedSession(s.client, s.num, EncodeResult(ToDict(s.result)))
  }

  function LoadSession(s: SavedSession): Option<Session> {
    match DecodeResult(s.result)
    case None => None
    case Some(d) => match FromDict(d) case None => None case Some(r) => Some(Session(s.client, s.num, r))
  }

  function SaveSessions(sessions: seq<Session>): seq<SavedSession> {
    if sessions == [] then [] else [SaveSession(sessions[0])] + SaveSessions(sessions[1..])
  }

  function LoadSessions(saved: seq<SavedSession>): Option<seq<Session>> {
    if saved == [] then Some([])
    else
      match (LoadSession(saved[0]), LoadSessions(saved[1..]))
      case (Some(s), Some(rest)) => Some([s] + rest)
      case _ => None
  }

  function Snapshot(s: State): Blob {
    Blob(map k | k in s.store.live :: Saved(Base64.Encode(s.store.live[k].value), s.store.live[k].version),
         s.store.tombstones, SaveSessions(s.sessions))
  }

  /** The state a blob stands for; None where the source would raise on a malformed blob. */
  function Restore(blob: Blob): Option<State> {
    if (forall k :: k in blob.store ==> Base64.Decode(blob.store[k].text).Some?) && LoadSessions(blob.sessions).Some?
    then
      Some(State(Store(map k | k in blob.store :: Versioned(Base64.Decode(blob.store[k].text).value, blob.store[k].version),
                       blob.tombstones),
                 LoadSessions(blob.sessions).value))
    else None
  }

  lemma LoadSaveSession(s: Session)
    ensures LoadSession(SaveSession(s)) == Some(s)
  {
    DecodeEncodeResult(ToDict(s.result));
    FromToDict(s.result);
  }

  lemma {:induction false} LoadSaveSessions(sessions: seq<Session>)
    ensures LoadSessions(SaveSessions(sessions)) == Some(sessions)
  {
    if sessions != [] {
      LoadSaveSession(sessions[0]);
      LoadSaveSessions(sessions[1..]);
      assert SaveSessions(sessions)[1..] == SaveSessions(sessions[1..]);
      assert sessions == [sessions[0]] + sessions[1..];
    }
  }

  /** Store, tombstones, session results and eviction order all come back. */
  lemma RestoreSnapshot(s: State)
    ensures Restore(Snapshot(s)) == Some(s)
  {
    var blob := Snapshot(s);
    forall k | k in blob.store ensures Base64.Decode(blob.store[k].text) == Some(s.store.live[k].value) {
      Base64.DecodeEncode(s.store.live[k].value);
    }
    LoadSaveSessions(s.sessions);
    assert Restore(blob).value.store.live == s.store.live;
  }

  /** A replica fed a snapshot of a log's prefix and then the suffix ends like one fed the whole log. */
  lemma SnapshotTransparent(max: nat, prefix: seq<Command>, suffix: seq<Command>, next: Command)
    ensures var restored := Restore(Snapshot(ApplyAll(EMPTY, max, prefix)));
            && restored.Some?
            && ApplyAll(restored.value, max, suffix) == ApplyAll(EMPTY, max, prefix + suffix)
            && Apply(ApplyAll(restored.value, max, suffix), max, next).1
            == Apply(ApplyAll(EMPTY, max, prefix + suffix), max, next).1
  {
    RestoreSnapshot(ApplyAll(EMPTY, max, prefix));
    ApplyAllConcat(EMPTY, max, prefix, suffix);
  }
}
