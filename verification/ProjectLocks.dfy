/** The process-wide table of project locks, one per hub URL, and a whole project round under one
    of them (apps/native/src/backend.rs, features.rs). */
module ProjectLocks {
  import opened Wrappers
  import opened Projects

  /** Entries are weak: a lock lives as long as some backend or running job holds it. `key` is the
      parsed URL, `strong` the number of holders of each lock, `keys` the URL each was made for. */
  class LockTable {
    var locks: map<string, nat>
    var strong: map<nat, nat>
    var next: nat
    ghost var keys: map<nat, string>

    ghost predicate Valid()
      reads this
    {
      && strong.Keys == keys.Keys
      && (forall id :: id in strong ==> id < next)
      && (forall key :: key in locks ==> locks[key] in keys && keys[locks[key]] == key)
      && (forall id :: id in strong && strong[id] > 0 ==> keys[id] in locks && locks[keys[id]] == id)
    }

    constructor ()
      ensures Valid() && strong == map[]
    {
      locks, strong, next, keys := map[], map[], 0, map[];
    }

    /** Locks nobody holds any more leave the table. */
    method Prune()
      requires Valid()
      modifies `locks
      ensures Valid()
      ensures forall key :: key in locks ==> locks[key] in strong && strong[locks[key]] > 0
    {
      locks := map k | k in locks && locks[k] in strong && strong[locks[k]] > 0 :: locks[k];
    }

    /** Whoever asks for the same hub while anyone still holds its lock gets that lock, so two
        live rounds on one hub always queue behind each other; otherwise a fresh one. */
    method ProjectWritesFor(key: string) returns (lock: nat)
      requires Valid()
      modifies this
      ensures Valid()
      ensures lock in strong && keys[lock] == key
      ensures forall id :: id in old(strong) && old(strong)[id] > 0 && old(keys)[id] == key ==> id == lock
      ensures lock !in old(strong) || old(strong)[lock] > 0
      ensures strong == old(strong)[lock := (if lock in old(strong) then old(strong)[lock] else 0) + 1]
      ensures forall id :: id in old(keys) ==> id in keys && keys[id] == old(keys)[id]
    {
      Prune();
      if key in locks {
        lock := locks[key];
        strong := strong[lock := strong[lock] + 1];
      } else {
        lock := next;
        next := next + 1;
        locks := locks[key := lock];
        strong := strong[lock := 1];
        keys := keys[lock := key];
      }
    }

    /** A backend or a finished job lets go. */
    method Drop(lock: nat)
      requires Valid() && lock in strong && strong[lock] > 0
      modifies `strong
      ensures Valid() && strong == old(strong)[lock := old(strong)[lock] - 1]
    {
      strong := strong[lock := strong[lock] - 1];
    }
  }

  /** The hub as one guard holder sees it: its map and the guarded revision. */
  class Hub {
    var projects: Registry
    var revision: nat

    constructor (projects: Registry)
      ensures this.projects == projects && revision == 0
    {
      this.projects := projects;
      revision := 0;
    }

    method ProjectSnapshot(config: Registry) returns (snapshot: Snapshot)
      modifies `revision
      ensures revision == old(revision) + 1
      ensures snapshot == Snapshot(revision, config)
    {
      revision := revision + 1;
      snapshot := Snapshot(revision, config);
    }

    /** One round: a snapshot only of a map that holds the change, under a fresh revision; a failed
        round allocates none. The map changes by exactly this patch or not at all. */
    method SaveProject(path: Path, change: Change, outcome: Outcome) returns (result: Option<Snapshot>)
      modifies this
      ensures projects == old(projects) || Some(projects) == Patch(old(projects), path, change)
      ensures (outcome.Taken? || outcome.FailedTaken?) && Patch(old(projects), path, change).Some? ==>
        Some(projects) == Patch(old(projects), path, change)
      ensures outcome.Skipped? || outcome.FailedNotTaken? ==> projects == old(projects)
      ensures result.Some? <==>
        && Patch(old(projects), path, change).Some?
        && ((outcome.Taken? && Readable(change)) || (outcome.Skipped? && Held(old(projects), path, change)))
      ensures result.Some? ==> result.value == Snapshot(old(revision) + 1, projects) && Held(projects, path, change)
      ensures revision == old(revision) + if result.Some? then 1 else 0
    {
      hide Patch, Held;
      var current := projects;
      var partial := Patch(current, path, change);
      if partial.None? {
        return None;
      }
      PatchHolds(current, path, change);
      var saved := current;
      if outcome.Taken? || outcome.FailedTaken? {
        projects := partial.value;
        saved := partial.value;
      }
      if outcome.FailedTaken? || outcome.FailedNotTaken? {
        return None;
      }
      if !Held(saved, path, change) {
        return None;
      }
      var snapshot := ProjectSnapshot(saved);
      result := Some(snapshot);
    }
  }
}
