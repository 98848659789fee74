/**
 What the store holds, told from the log alone: every key is a register of its own with a count of its writes, and what
 a read finds is what the last command that took effect on the key left there.
 */
module KvHistory {
  import opened Wrappers
  import opened KvState
  import KvVersions

  // -------------------------------------------------------- a key as a register

  /** A register: its value, if it has one, and how often it has been written. */
  datatype Register = Register(value: Option<Bytes>, writes: nat)

  /** Whether a compare-and-swap takes effect on what a read of its key would find. */
  predicate Swaps(found: Option<Versioned>, spec: CasSpec) {
    if spec.expectAbsent then found == None
    else found.Some? && if spec.expectedVersion > 0 then found.value.version == spec.expectedVersion
                        else found.value.value == spec.expected
  }

  function Found(r: Register): Option<Versioned> {
    if r.value.Some? then Some(Versioned(r.value.value, r.writes)) else None
  }

  /** What an operation makes of its key's register, and what the client is told. */
  function Operate(r: Register, op: Op): (Register, Result) {
    match op
    case Put(value) => (Register(Some(value), r.writes + 1), Wrote(r.writes + 1))
    case Delete => (r.(value := None), Deleted(r.value.Some?))
    case Cas(spec) =>
      if Swaps(Found(r), spec)
      then (Register(Some(spec.newValue), r.writes + 1), CasDone(true, spec.newValue, r.writes + 1))
      else if r.value.Some? then (r, CasDone(false, r.value.value, r.writes)) else (r, CasDone(false, [], 0))
    case Noop => (r, Plain)
    case Other => (r, Plain)
  }

  /** The register of `key` after a log, of which only the executed commands on `key` matter. */
  function RegisterAfter(max: nat, cmds: seq<Command>, key: Key): Register {
    if cmds == [] then Register(None, 0)
    else
      var n := |cmds| - 1;
      var r := RegisterAfter(max, cmds[..n], key);
      if cmds[n].key == key && Executes(ApplyAll(EMPTY, max, cmds[..n]), cmds[n]) then Operate(r, cmds[n].op).0 else r
  }

  /** The store with its versions and tombstones is, for every key and any log, such a register. */
  lemma {:induction false} StoreIsRegisters(max: nat, cmds: seq<Command>, key: Key)
    ensures var s, r := ApplyAll(EMPTY, max, cmds), RegisterAfter(max, cmds, key);
            Get(s, key) == Found(r) && LastVersion(s.store, key) == r.writes
  {
    if cmds != [] {
      var n := |cmds| - 1;
      StoreIsRegisters(max, cmds[..n], key);
      RegisterStep(max, ApplyAll(EMPTY, max, cmds[..n]), cmds[n], key, RegisterAfter(max, cmds[..n], key));
    }
  }

  /** The register of a key in a store. */
  function RegisterIn(store: Store, key: Key): Register {
    Register(if key in store.live then Some(store.live[key].value) else None, LastVersion(store, key))
  }

  /** One operation works on the register of its key and on no other. */
  lemma OperatesOnRegister(store: Store, cmd: Command, key: Key)
    ensures var (store', result) := ApplyOp(store, cmd);
            && RegisterIn(store', cmd.key) == Operate(RegisterIn(store, cmd.key), cmd.op).0
            && result == Operate(RegisterIn(store, cmd.key), cmd.op).1
            && (key != cmd.key ==> RegisterIn(store', key) == RegisterIn(store, key))
  {
  }

  lemma RegisterStep(max: nat, s: State, cmd: Command, key: Key, r: Register)
    requires Get(s, key) == Found(r) && LastVersion(s.store, key) == r.writes
    ensures var s' := Apply(s, max, cmd).0;
            var r' := if cmd.key == key && Executes(s, cmd) then Operate(r, cmd.op).0 else r;
            Get(s', key) == Found(r') && LastVersion(s'.store, key) == r'.writes
    ensures cmd.key == key && Executes(s, cmd) ==> Apply(s, max, cmd).1 == Operate(r, cmd.op).1
  {
  }

  /** And the client is told what the register says, whenever its command runs. */
  lemma ResultIsRegisters(max: nat, cmds: seq<Command>, cmd: Command)
    requires Executes(ApplyAll(EMPTY, max, cmds), cmd)
    ensures Apply(ApplyAll(EMPTY, max, cmds), max, cmd).1 == Operate(RegisterAfter(max, cmds, cmd.key), cmd.op).1
  {
    StoreIsRegisters(max, cmds, cmd.key);
    RegisterStep(max, ApplyAll(EMPTY, max, cmds), cmd, cmd.key, RegisterAfter(max, cmds, cmd.key));
  }

  // ------------------------------------------------------------- the last write wins

  /** Command `i` of the log runs and leaves `value` in `key`. */
  predicate WritesAt(max: nat, cmds: seq<Command>, i: nat, key: Key, value: Bytes)
    requires i < |cmds|
  {
    var s := KvVersions.StateAt(EMPTY, max, cmds, i);
    && cmds[i].key == key && Executes(s, cmds[i])
    && (cmds[i].op == Put(value)
        || (cmds[i].op.Cas? && Swaps(Get(s, key), cmds[i].op.spec) && cmds[i].op.spec.newValue == value))
  }

  predicate WrittenAt(max: nat, cmds: seq<Command>, i: nat, key: Key)
    requires i < |cmds|
  {
    (cmds[i].op.Put? && WritesAt(max, cmds, i, key, cmds[i].op.value))
    || (cmds[i].op.Cas? && WritesAt(max, cmds, i, key, cmds[i].op.spec.newValue))
  }

  /** Command `i` of the log runs and removes `key`, if it was there. */
  predicate RemovedAt(max: nat, cmds: seq<Command>, i: nat, key: Key)
    requires i < |cmds|
  {
    cmds[i].key == key && cmds[i].op.Delete? && Executes(KvVersions.StateAt(EMPTY, max, cmds, i), cmds[i])
  }

  ghost predicate Untouched(max: nat, cmds: seq<Command>, i: nat, key: Key) {
    forall j: nat :: i < j < |cmds| ==> !WrittenAt(max, cmds, j, key) && !RemovedAt(max, cmds, j, key)
  }

  /**
   A read finds the value of the last write, if nothing removed the key since; and it finds nothing exactly if every
   write has been followed by a removal.
   */
  lemma {:induction false} LastWriteWins(max: nat, cmds: seq<Command>, key: Key)
    ensures match Get(ApplyAll(EMPTY, max, cmds), key)
            case Some(v) => exists i: nat ::
                              i < |cmds| && WritesAt(max, cmds, i, key, v.value) && Untouched(max, cmds, i, key)
            case None => forall i: nat :: i < |cmds| && WrittenAt(max, cmds, i, key) ==>
                           exists j: nat :: i < j < |cmds| && RemovedAt(max, cmds, j, key)
  {
    hide Apply, Executes, WritesAt, WrittenAt, RemovedAt;
    if cmds != [] {
      var n := |cmds| - 1;
      var before := cmds[..n];
      LastWriteWins(max, before, key);
      forall i: nat | i < n
        ensures WrittenAt(max, cmds, i, key) == WrittenAt(max, before, i, key)
        ensures RemovedAt(max, cmds, i, key) == RemovedAt(max, before, i, key)
      {
        SameInPrefix(max, cmds, i, key, []);
      }
      LastStep(max, cmds, key);
      var found := Get(ApplyAll(EMPTY, max, cmds), key);
      if WrittenAt(max, cmds, n, key) {
        assert WritesAt(max, cmds, n, key, found.value.value) && Untouched(max, cmds, n, key);
      } else if !RemovedAt(max, cmds, n, key) && found.Some? {
        var i: nat :| i < n && WritesAt(max, before, i, key, found.value.value) && Untouched(max, before, i, key);
        SameInPrefix(max, cmds, i, key, found.value.value);
        assert WritesAt(max, cmds, i, key, found.value.value) && Untouched(max, cmds, i, key);
      }
    }
  }

  lemma SameInPrefix(max: nat, cmds: seq<Command>, i: nat, key: Key, value: Bytes)
    requires i + 1 < |cmds|
    ensures var before := cmds[..|cmds| - 1];
            && WritesAt(max, cmds, i, key, value) == WritesAt(max, before, i, key, value)
            && WrittenAt(max, cmds, i, key) == WrittenAt(max, before, i, key)
            && RemovedAt(max, cmds, i, key) == RemovedAt(max, before, i, key)
  {
    assert cmds[..|cmds| - 1][..i] == cmds[..i];
  }

  /** The last command of a log writes the key, removes it, or leaves it alone. */
  lemma LastStep(max: nat, cmds: seq<Command>, key: Key)
    requires cmds != []
    ensures var n := |cmds| - 1; var found := Get(ApplyAll(EMPTY, max, cmds), key);
            && (WrittenAt(max, cmds, n, key) ==> found.Some? && WritesAt(max, cmds, n, key, found.value.value))
            && (RemovedAt(max, cmds, n, key) ==> found == None && !WrittenAt(max, cmds, n, key))
            && (!WrittenAt(max, cmds, n, key) && !RemovedAt(max, cmds, n, key) ==>
                  found == Get(ApplyAll(EMPTY, max, cmds[..n]), key))
  {
    var n := |cmds| - 1;
    StoreIsRegisters(max, cmds[..n], key);
    RegisterStep(max, ApplyAll(EMPTY, max, cmds[..n]), cmds[n], key, RegisterAfter(max, cmds[..n], key));
  }
}
