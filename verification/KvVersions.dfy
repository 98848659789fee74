/**
 Version histories over whole logs: versions are dense, never repeat across deletes and re-creations,
 and a version-based compare-and-swap is immune to the ABA problem.
 */
module KvVersions {
  import opened Wrappers
  import opened KvState

  /** The state a replica is in once it has applied the first `i` commands of a log. */
  function StateAt(s: State, max: nat, cmds: seq<Command>, i: nat): State
    requires i <= |cmds|
  {
    ApplyAll(s, max, cmds[..i])
  }

  lemma StepAt(s: State, max: nat, cmds: seq<Command>, i: nat)
    requires i < |cmds|
    ensures StateAt(s, max, cmds, i + 1) == Apply(StateAt(s, max, cmds, i), max, cmds[i]).0
  {
    assert cmds[..i + 1][..i] == cmds[..i];
  }

  /** The version a client is told `cmd` gave to `key`; None if `cmd` did not write `key`. */
  function VersionGiven(s: State, max: nat, cmd: Command, key: Key): Option<nat> {
    if !Executes(s, cmd) || cmd.key != key then None
    else
      match Apply(s, max, cmd).1
      case Wrote(v) => Some(v)
      case CasDone(true, _, v) => Some(v)
      case _ => None
  }

  /** All versions ever given to `key` while applying a log, in order. */
  function VersionHistory(s: State, max: nat, cmds: seq<Command>, key: Key): seq<nat> {
    if cmds == [] then []
    else
      var n := |cmds| - 1;
      var given := VersionGiven(ApplyAll(s, max, cmds[..n]), max, cmds[n], key);
      VersionHistory(s, max, cmds[..n], key) + (if given.Some? then [given.value] else [])
  }

  /** Key sets are disjoint and every version is at least 1. */
  predicate Sound(store: Store) {
    && store.live.Keys !! store.tombstones.Keys
    && (forall k :: k in store.live ==> store.live[k].version >= 1)
    && (forall k :: k in store.tombstones ==> store.tombstones[k] >= 1)
  }

  lemma {:induction false} SoundForever(s: State, max: nat, cmds: seq<Command>)
    requires Sound(s.store)
    ensures Sound(ApplyAll(s, max, cmds).store)
  {
    if cmds != [] {
      SoundForever(s, max, cmds[..|cmds| - 1]);
    }
  }

  /** One command either gives `key` the next version or leaves its last version alone. */
  lemma OneStep(s: State, max: nat, cmd: Command, key: Key)
    ensures var given := VersionGiven(s, max, cmd, key);
            var before, after := LastVersion(s.store, key), LastVersion(Apply(s, max, cmd).0.store, key);
            && (given.Some? ==> given.value == after == before + 1 && key in Apply(s, max, cmd).0.store.live)
            && (given.None? ==> after == before)
            && (given.None? && key in Apply(s, max, cmd).0.store.live ==>
                  key in s.store.live && Apply(s, max, cmd).0.store.live[key] == s.store.live[key])
  {
  }

  /** Versions given to a key are consecutive: no gap, no repeat, whatever is deleted in between. */
  lemma {:induction false} VersionsDense(s: State, max: nat, cmds: seq<Command>, key: Key)
    ensures var h := VersionHistory(s, max, cmds, key);
            && (forall i :: 0 <= i < |h| ==> h[i] == LastVersion(s.store, key) + 1 + i)
            && LastVersion(ApplyAll(s, max, cmds).store, key) == LastVersion(s.store, key) + |h|
  {
    if cmds != [] {
      var n := |cmds| - 1;
      VersionsDense(s, max, cmds[..n], key);
      OneStep(ApplyAll(s, max, cmds[..n]), max, cmds[n], key);
    }
  }

  lemma {:induction false} LastVersionGrows(s: State, max: nat, cmds: seq<Command>, key: Key, i: nat, j: nat)
    requires i <= j <= |cmds|
    ensures LastVersion(StateAt(s, max, cmds, i).store, key) <= LastVersion(StateAt(s, max, cmds, j).store, key)
    decreases j - i
  {
    if i < j {
      LastVersionGrows(s, max, cmds, key, i, j - 1);
      StepAt(s, max, cmds, j - 1);
      OneStep(StateAt(s, max, cmds, j - 1), max, cmds[j - 1], key);
    }
  }

  /** `key` is live at version `v` after `i` commands. */
  predicate LiveAt(s: State, max: nat, cmds: seq<Command>, i: nat, key: Key, v: nat)
    requires i <= |cmds|
  {
    var store := StateAt(s, max, cmds, i).store;
    key in store.live && store.live[key].version == v
  }

  /** The last command between two sightings of the same live version neither wrote nor deleted the key. */
  lemma SameVersionLastStep(s: State, max: nat, cmds: seq<Command>, key: Key, v: nat, i: nat, j: nat)
    requires i < j <= |cmds|
    requires LiveAt(s, max, cmds, i, key, v) && LiveAt(s, max, cmds, j, key, v)
    ensures LiveAt(s, max, cmds, j - 1, key, v)
    ensures StateAt(s, max, cmds, j - 1).store.live[key] == StateAt(s, max, cmds, j).store.live[key]
    ensures VersionGiven(StateAt(s, max, cmds, j - 1), max, cmds[j - 1], key).None?
  {
    StepAt(s, max, cmds, j - 1);
    OneStep(StateAt(s, max, cmds, j - 1), max, cmds[j - 1], key);
    LastVersionGrows(s, max, cmds, key, i, j - 1);
  }

  /**
   Seeing the same live version at two points of a log means nothing wrote or deleted the key in between:
   at every point `m` in between the key is live with the very same value and version, and the command
   there did not give the key a version.
   */
  lemma {:induction false} SameVersionSameHistory(
      s: State, max: nat, cmds: seq<Command>, key: Key, v: nat, i: nat, m: nat, j: nat)
    requires i <= m <= j <= |cmds|
    requires LiveAt(s, max, cmds, i, key, v) && LiveAt(s, max, cmds, j, key, v)
    ensures LiveAt(s, max, cmds, m, key, v)
    ensures StateAt(s, max, cmds, m).store.live[key] == StateAt(s, max, cmds, j).store.live[key]
    ensures m < j ==> VersionGiven(StateAt(s, max, cmds, m), max, cmds[m], key).None?
    decreases j - m
  {
    if m < j {
      SameVersionLastStep(s, max, cmds, key, v, i, j);
      SameVersionSameHistory(s, max, cmds, key, v, i, m, j - 1);
    }
  }

  /** `cmds[i]` is a compare-and-swap on `key` at version `v` that executes and swaps. */
  predicate VersionCasSwaps(s: State, max: nat, cmds: seq<Command>, i: nat, key: Key, v: nat)
    requires i < |cmds|
  {
    && cmds[i].key == key && cmds[i].op.Cas?
    && !cmds[i].op.spec.expectAbsent && cmds[i].op.spec.expectedVersion == v > 0
    && VersionGiven(StateAt(s, max, cmds, i), max, cmds[i], key).Some?
  }

  /** Of all compare-and-swaps on one key expecting one version, at most one ever swaps. */
  lemma VersionCasSwapsOnce(s: State, max: nat, cmds: seq<Command>, key: Key, v: nat, i: nat, j: nat)
    requires i < |cmds| && j < |cmds|
    requires VersionCasSwaps(s, max, cmds, i, key, v) && VersionCasSwaps(s, max, cmds, j, key, v)
    ensures i == j
  {
    var lo, hi := if i < j then i else j, if i < j then j else i;
    if lo < hi {
      StepAt(s, max, cmds, lo);
      OneStep(StateAt(s, max, cmds, lo), max, cmds[lo], key);
      LastVersionGrows(s, max, cmds, key, lo + 1, hi);
    }
  }
}
