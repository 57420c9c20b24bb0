/** Project rounds under one lock (features.rs). */
module Projects {
  import opened Wrappers

  // Any number of windows read, patch and save the hub's project map. Each round replaces the whole map
  // under one FIFO lock per hub (backend.rs, features.rs, projects.rs); a controller keeps the newest of
  // what they answered (controller.rs).

  /** A spelling of a directory; two spellings of one directory are `same_dir`. */
  datatype Path = Path(dir: nat, spelling: nat, absolute: bool)

  /** A name and icon; the empty string is an unset field. */
  datatype Identity = Identity(name: string, icon: string, favicon: string, iconFile: string)

  datatype Git = Git(provider: string, remote: string)

  const NAMELESS := Identity("", "", "", "")
  const AUTOMATIC := Git("", "")

  /** One project's entry in the hub's config. `more`: it has fields besides these, and `gitMore` its
      git settings have; neither is ever touched. */
  datatype Entry =
    | Entry(favourite: Option<bool>, lastOpened: Option<int>, identity: Identity, git: Git, gitMore: bool, more: bool)
    | NotAnObject

  const BLANK := Entry(None, None, NAMELESS, AUTOMATIC, false, false)

  type Registry = map<Path, Entry>

  datatype Change = Pin(pinned: bool) | Touch(at: int) | Remove
    | Rename(identity: Identity) | Repository(git: Git) | Settings(identity: Identity, git: Git)

  // ---- git settings ------------------------------------------------------

  const PROVIDERS: set<string> := {"", "github", "azure-devops"}

  predicate Space(c: char) {
    c == ' ' || '\t' <= c <= '\r'
  }

  function Trim(s: string): string
    decreases |s|
  {
    if s == "" then "" else if Space(s[0]) then Trim(s[1..])
    else if Space(s[|s| - 1]) then Trim(s[..|s| - 1]) else s
  }

  /** `GitSettings::parse`: values trimmed, a provider nobody knows read as none. */
  function Parse(git: Git): Git {
    Git(if Trim(git.provider) in PROVIDERS then Trim(git.provider) else "", Trim(git.remote))
  }

  predicate Blank(s: string) {
    forall i :: 0 <= i < |s| ==> s[i] == ' ' || '\t' <= s[i] <= '\r'
  }

  /** Nothing blank at either end. */
  predicate Tight(s: string) {
    s == "" || (!Blank(s[..1]) && !Blank(s[|s| - 1..]))
  }

  lemma {:induction false} TrimFront(front: string, s: string)
    requires Blank(front)
    ensures Trim(front + s) == Trim(s)
    decreases |front|
  {
    if front == "" {
      assert front + s == s;
    } else {
      assert (front + s)[0] == front[0] && (front + s)[1..] == front[1..] + s;
      TrimFront(front[1..], s);
    }
  }

  lemma {:induction false} TrimBack(s: string, back: string)
    requires s != "" && !Space(s[0]) && Blank(back)
    ensures Trim(s + back) == Trim(s)
    decreases |back|
  {
    if back == "" {
      assert s + back == s;
    } else {
      var t, n := s + back, |s + back| - 1;
      assert t[0] == s[0] && t[n] == back[|back| - 1] && Space(t[n]);
      assert t[..n] == s + back[..|back| - 1];
      TrimBack(s, back[..|back| - 1]);
    }
  }

  lemma TrimTakesBlanksOff(front: string, s: string, back: string)
    requires Blank(front) && Blank(back) && Tight(s)
    ensures Trim(front + s + back) == s
  {
    assert front + s + back == front + (s + back);
    TrimFront(front, s + back);
    if s == "" {
      assert s + back == back + "";
      TrimFront(back, "");
    } else {
      assert s[..1][0] == s[0] && s[|s| - 1..][0] == s[|s| - 1];
      TrimBack(s, back);
    }
  }

  lemma {:induction false} TrimIsTight(s: string)
    ensures Tight(Trim(s))
    decreases |s|
  {
    if s != "" {
      if Space(s[0]) {
        TrimIsTight(s[1..]);
      } else if Space(s[|s| - 1]) {
        TrimIsTight(s[..|s| - 1]);
      } else {
        assert s[..1][0] == s[0] && s[|s| - 1..][0] == s[|s| - 1];
      }
    }
  }

  /** Settings read back as they were written exactly when the provider is a known one and the remote has
      no blanks around it; blanks around either never matter. */
  lemma SettingsReadBackIff(git: Git)
    ensures Parse(git) == git <==> git.provider in {"", "github", "azure-devops"} && Tight(git.remote)
  {
    TrimIsTight(git.remote);
    if Tight(git.remote) {
      TrimTakesBlanksOff("", git.remote, "");
      assert "" + git.remote + "" == git.remote;
    }
    if git.provider in PROVIDERS {
      Known(git.provider);
      TrimTakesBlanksOff("", git.provider, "");
      assert "" + git.provider + "" == git.provider;
    }
  }

  lemma Known(provider: string)
    requires provider in PROVIDERS
    ensures Tight(provider)
  {
    var n := |provider| - 1;
    assert provider != "" ==> provider[..1][0] == provider[0] && provider[n..][0] == provider[n];
  }

  lemma BlanksDoNotMatter(front: string, back: string, git: Git)
    requires Blank(front) && Blank(back) && Parse(git) == git
    ensures Parse(Git(front + git.provider + back, front + git.remote + back)) == git
  {
    SettingsReadBackIff(git);
    Known(git.provider);
    TrimTakesBlanksOff(front, git.provider, back);
    TrimTakesBlanksOff(front, git.remote, back);
  }

  /** What is written reads back as it was written: what `GitSettings::normalized` sees to. */
  predicate Readable(change: Change) {
    change.Repository? || change.Settings? ==> Parse(change.git) == change.git
  }

  // ---- the patch ---------------------------------------------------------

  function Aliases(projects: Registry, path: Path): set<Path> {
    set k | k in projects && k.dir == path.dir
  }

  /** Every alias the hub has, or the path itself when it has none. */
  function Targets(projects: Registry, path: Path): set<Path> {
    if Aliases(projects, path) == {} then {path} else Aliases(projects, path)
  }

  function Stamp(e: Entry): Option<int> {
    if e.Entry? then e.lastOpened else None
  }

  /** The latest `lastOpened` among `keys`, and not before `now`. */
  ghost predicate IsLatest(projects: Registry, keys: set<Path>, now: int, at: int) {
    && now <= at
    && (forall k :: k in keys && k in projects && Stamp(projects[k]).Some? ==> Stamp(projects[k]).value <= at)
    && (at == now || exists k :: k in keys && k in projects && Stamp(projects[k]) == Some(at))
  }

  function Latest(projects: Registry, keys: set<Path>, now: int): (at: int)
    ensures IsLatest(projects, keys, now, at)
  {
    var stamps := set k | k in keys && k in projects && Stamp(projects[k]).Some? :: Stamp(projects[k]).value;
    assert forall k :: k in keys && k in projects && Stamp(projects[k]).Some? ==> Stamp(projects[k]).value in stamps;
    Max(stamps, now)
  }

  function Max(stamps: set<int>, now: int): (at: int)
    ensures now <= at && (forall s :: s in stamps ==> s <= at) && (at == now || at in stamps)
  {
    if forall s :: s in stamps ==> s <= now then now
    else
      assert exists s :: s in stamps && now < s;
      Above(stamps, now)
  }

  function Above(stamps: set<int>, now: int): (at: int)
    requires exists s :: s in stamps && now < s
    ensures now <= at && (forall s :: s in stamps ==> s <= at) && at in stamps
  {
    MaxExists(stamps, now);
    var at :| at in stamps && forall s :: s in stamps ==> s <= at;
    at
  }

  lemma MaxExists(stamps: set<int>, now: int)
    requires exists s :: s in stamps && now < s
    ensures exists at :: at in stamps && forall s :: s in stamps ==> s <= at
  {
    var x :| x in stamps && now < x;
    if forall s :: s in stamps - {x} ==> s <= x {
      forall s | s in stamps ensures s <= x {
        if s != x { assert s in stamps - {x}; }
      }
    } else {
      MaxExists(stamps - {x}, x);
      var m :| m in stamps - {x} && forall s :: s in stamps - {x} ==> s <= m;
      assert m in stamps;
      forall s | s in stamps ensures s <= m {
        if s != x { assert s in stamps - {x}; }
      }
    }
  }

  function Write(e: Entry, change: Change, latest: int): Entry
    requires e.Entry?
  {
    match change
    case Pin(pinned) => e.(favourite := Some(pinned))
    case Touch(_) => e.(lastOpened := Some(latest))
    case Rename(identity) => e.(identity := identity)
    case Repository(git) => e.(git := git)
    case Settings(identity, git) => e.(identity := identity, git := git)
    case Remove => e
  }

  /** It has more than a pin and a time, so it may not be forgotten from here. */
  predicate Protected(e: Entry) {
    e.NotAnObject? || e.identity != NAMELESS || e.git != AUTOMATIC || e.gitMore || e.more
  }

  function OrBlank(projects: Registry, k: Path): Entry {
    if k in projects then projects[k] else BLANK
  }

  /** `projects::patch`: the whole map with one directory's entries changed, or a refusal. */
  function Patch(projects: Registry, path: Path, change: Change): Option<Registry> {
    var keys := Targets(projects, path);
    if !path.absolute then None
    else if change == Remove then
      if exists k :: k in Aliases(projects, path) && Protected(projects[k]) then None
      else Some(map k | k in projects && k.dir != path.dir :: projects[k])
    else if exists k :: k in keys && OrBlank(projects, k).NotAnObject? then None
    else
      var latest := if change.Touch? then Latest(projects, keys, change.at) else 0;
      Some(map k | k in projects.Keys + keys ::
             if k in keys then Write(OrBlank(projects, k), change, latest) else projects[k])
  }

  /** `projects::verify`: the hub kept the change. */
  predicate Held(projects: Registry, path: Path, change: Change) {
    var keys := Aliases(projects, path);
    match change
    case Remove => keys == {}
    case Pin(pinned) =>
      keys != {} && forall k :: k in keys ==> projects[k].Entry? && projects[k].favourite == Some(pinned)
    case Touch(at) =>
      keys != {} && forall k :: k in keys ==>
        projects[k].Entry? && projects[k].lastOpened.Some? && projects[k].lastOpened.value >= at
    case Rename(identity) =>
      keys != {} && forall k :: k in keys ==> projects[k].Entry? && projects[k].identity == identity
    case Repository(git) =>
      keys != {} && forall k :: k in keys ==> projects[k].Entry? && Parse(projects[k].git) == git
    case Settings(identity, git) =>
      keys != {} && forall k :: k in keys ==>
        projects[k].Entry? && projects[k].identity == identity && Parse(projects[k].git) == git
  }

  lemma AliasesAfter(projects: Registry, path: Path, change: Change)
    requires Patch(projects, path, change).Some?
    ensures Aliases(Patch(projects, path, change).value, path) ==
      if change == Remove then {} else Targets(projects, path)
  {
  }

  /** A patch that is saved is held exactly when its values read back as written, and touches no other
      directory. */
  lemma PatchHolds(projects: Registry, path: Path, change: Change)
    requires Patch(projects, path, change).Some?
    ensures Held(Patch(projects, path, change).value, path, change) <==> Readable(change)
    ensures forall k: Path :: k.dir != path.dir ==>
      (k in Patch(projects, path, change).value <==> k in projects)
      && (k in projects ==> Patch(projects, path, change).value[k] == projects[k])
  {
    hide Parse;
    AliasesAfter(projects, path, change);
    var after := Patch(projects, path, change).value;
    if change != Remove && !Readable(change) {
      var k :| k in Aliases(after, path);
      assert after[k] == Write(OrBlank(projects, k), change, 0);
    }
  }

  /** Two entries agree on all that `change` does not set. */
  predicate SameButFor(change: Change, was: Entry, now: Entry)
    requires was.Entry? && now.Entry?
  {
    && now.gitMore == was.gitMore && now.more == was.more
    && (change.Pin? || now.favourite == was.favourite)
    && (change.Touch? || now.lastOpened == was.lastOpened)
    && (change.Rename? || change.Settings? || now.identity == was.identity)
    && (change.Repository? || change.Settings? || now.git == was.git)
  }

  /** A patch sets one thing of a project's entries and leaves the rest of each alone; nothing else of
      the map is lost, and the only entry it can add is the directory's own. */
  lemma PatchSparesTheRest(projects: Registry, path: Path, change: Change, k: Path)
    requires Patch(projects, path, change).Some? && change != Remove
    ensures var after := Patch(projects, path, change).value;
      && (k in projects && k.dir != path.dir ==> k in after && after[k] == projects[k])
      && (k in projects && k.dir == path.dir ==>
            k in after && projects[k].Entry? && after[k].Entry? && SameButFor(change, projects[k], after[k]))
      && (k in after && k !in projects ==>
            && k == path && (forall q: Path :: q in projects ==> q.dir != path.dir)
            && after[k].Entry? && SameButFor(change, Entry(None, None, NAMELESS, AUTOMATIC, false, false), after[k]))
  {
  }

  /** A touch records the time of the touch or a later one already known, nothing else. */
  lemma TouchKeepsTheLatest(projects: Registry, path: Path, at: int, k: Path)
    requires Patch(projects, path, Touch(at)).Some? && k in Patch(projects, path, Touch(at)).value && k.dir == path.dir
    ensures var after := Patch(projects, path, Touch(at)).value;
      && after[k].Entry? && after[k].lastOpened.Some? && after[k].lastOpened.value >= at
      && (forall q :: q in projects && q.dir == path.dir && projects[q].Entry? && projects[q].lastOpened.Some? ==>
            projects[q].lastOpened.value <= after[k].lastOpened.value)
      && (after[k].lastOpened.value == at ||
          exists q :: q in projects && q.dir == path.dir && projects[q].Entry?
                      && projects[q].lastOpened == after[k].lastOpened)
  {
    var keys := Targets(projects, path);
    var latest := Latest(projects, keys, at);
    if latest != at {
      var q :| q in keys && q in projects && Stamp(projects[q]) == Some(latest);
      assert projects[q].lastOpened == Some(latest);
    }
  }

  /** The hub holds a change exactly when patching it in again would change nothing; times and git
      settings may also be held by a later time or another spelling. */
  lemma HeldIffNothingIsLeftToDo(projects: Registry, path: Path, change: Change)
    requires Patch(projects, path, change).Some? && Readable(change)
    ensures Patch(projects, path, change).value == projects ==> Held(projects, path, change)
    ensures Held(projects, path, change) && (change.Pin? || change.Rename? || change.Remove?) ==>
      Patch(projects, path, change).value == projects
    ensures Held(projects, path, change) && change.Touch? ==>
      forall k :: k in projects && k.dir == path.dir ==>
        projects[k].Entry? && projects[k].lastOpened.Some? && projects[k].lastOpened.value >= change.at
    ensures Held(projects, path, change) && (change.Repository? || change.Settings?) ==>
      forall k :: k in projects && k.dir == path.dir ==>
        projects[k].Entry? && Parse(projects[k].git) == change.git
        && (change.Settings? ==> projects[k].identity == change.identity)
  {
    hide Parse, Latest;
    PatchHolds(projects, path, change);
    var after := Patch(projects, path, change).value;
    if Held(projects, path, change) && (change.Pin? || change.Rename? || change.Remove?) {
      assert after.Keys == projects.Keys;
      forall k | k in projects ensures after[k] == projects[k] {
        if change != Remove && k.dir == path.dir { assert k in Targets(projects, path); }
      }
    }
  }

  /** What a patch refuses: a directory that is not absolute, an entry that cannot be edited, or the
      removal of a project with anything but a pin and a time. A removal takes nothing else along. */
  lemma PatchRefuses(projects: Registry, path: Path, change: Change)
    ensures Patch(projects, path, change).None? <==>
      || !path.absolute
      || (exists k :: k in projects && k.dir == path.dir &&
            (projects[k].NotAnObject? || (change.Remove? && projects[k] !=
               Entry(projects[k].favourite, projects[k].lastOpened, NAMELESS, AUTOMATIC, false, false))))
    ensures change.Remove? && Patch(projects, path, change).Some? ==>
      Patch(projects, path, change).value == projects - (set k | k in projects && k.dir == path.dir)
  {
    hide Latest;
  }

  /** The two changes set the same thing of a project, or one removes it. */
  predicate Disturbs(change: Change, other: Change) {
    match change
    case Remove => other != Remove
    case Pin(_) => other.Pin? || other.Remove?
    case Touch(_) => other.Remove?
    case Rename(_) => other.Rename? || other.Settings? || other.Remove?
    case Repository(_) => other.Repository? || other.Settings? || other.Remove?
    case Settings(_, _) => other.Rename? || other.Repository? || other.Settings? || other.Remove?
  }

  /** A change the hub holds survives any later patch that does not disturb it; a touch survives
      every later touch. */
  lemma HeldSurvives(projects: Registry, path: Path, change: Change, later: Path, other: Change)
    requires Held(projects, path, change) && Patch(projects, later, other).Some?
    requires later.dir == path.dir ==> !Disturbs(change, other)
    ensures Held(Patch(projects, later, other).value, path, change)
  {
    hide Parse;
    var after := Patch(projects, later, other).value;
    if later.dir == path.dir {
      AliasesAfter(projects, later, other);
      assert Aliases(after, path) == Aliases(after, later);
      assert Aliases(projects, path) == Aliases(projects, later);
    } else {
      PatchHolds(projects, later, other);
      assert Aliases(after, path) == Aliases(projects, path);
    }
  }

  // ---- transactions ------------------------------------------------------

  datatype Kind = ReadRegistry | Save(path: Path, change: Change)

  /** A snapshot carries the revision it was given under the lock. */
  datatype Snapshot = Snapshot(revision: nat, projects: Registry)

  datatype Tx =
    | Waiting(kind: Kind)
    | Holding(kind: Kind)
    | Copied(kind: Kind, copy: Registry)
    | Answered(kind: Kind, answer: Registry)
    | Finished(kind: Kind, result: Option<Snapshot>)

  /** `applied`: the patches the hub took, in order. `snapshots`: what was answered under each
      revision, and how many patches it reflects. `controllers`: what each window's controller
      holds, and every revision it has processed. */
  datatype State = State(
    hub: Registry,
    holder: Option<nat>, queue: seq<nat>, revision: nat,
    txs: map<nat, Tx>,
    controllers: map<nat, (Option<Snapshot>, set<nat>)>,
    applied: seq<(Path, Change)>, snapshots: map<nat, (Registry, nat)>)

  /** How a `config.save` ended: taken; skipped and answered with the old config; or failed, taken
      or not. A save takes effect before the lock is released or not at all. */
  datatype Outcome = Taken | Skipped | FailedTaken | FailedNotTaken

  datatype Step =
    | Begin(tx: nat, kind: Kind)
    | Acquire
    | ReadConfig(ok: bool)
    | SaveConfig(outcome: Outcome)
    | Finish
    | Abandon(tx: nat)
    | Process(controller: nat, tx: nat)

  function Init(hub: Registry, controllers: set<nat>): State {
    State(hub, None, [], 0, map[], map c | c in controllers :: (None, {}), [], map[])
  }

  function Release(s: State, result: Option<Snapshot>): State
    requires s.holder.Some? && s.holder.value in s.txs
  {
    s.(holder := None, txs := s.txs[s.holder.value := Finished(HeldTx(s).kind, result)])
  }

  /** `project_snapshot`: the next revision, allocated under the guard. */
  function Snap(s: State, projects: Registry): State
    requires s.holder.Some? && s.holder.value in s.txs
  {
    var r := s.revision + 1;
    Release(s.(revision := r, snapshots := s.snapshots[r := (projects, |s.applied|)]), Some(Snapshot(r, projects)))
  }

  function HeldTx(s: State): Tx
    requires s.holder.Some? && s.holder.value in s.txs
  {
    s.txs[s.holder.value]
  }

  predicate Enabled(s: State, step: Step) {
    match step
    case Begin(tx, _) => tx !in s.txs
    case Acquire => s.holder.None? && s.queue != []
    case ReadConfig(_) => s.holder.Some? && s.holder.value in s.txs && HeldTx(s).Holding?
    case SaveConfig(_) =>
      s.holder.Some? && s.holder.value in s.txs && HeldTx(s).Copied? && HeldTx(s).kind.Save?
    case Finish =>
      && s.holder.Some? && s.holder.value in s.txs
      && ((HeldTx(s).Copied? && HeldTx(s).kind.ReadRegistry?) || (HeldTx(s).Answered? && HeldTx(s).kind.Save?))
    case Abandon(tx) => tx in s.txs && !s.txs[tx].Finished?
    case Process(c, tx) =>
      c in s.controllers && tx in s.txs && s.txs[tx].Finished? && s.txs[tx].result.Some?
  }

  function Without(queue: seq<nat>, tx: nat): seq<nat> {
    if queue == [] then []
    else (if queue[0] == tx then [] else [queue[0]]) + Without(queue[1..], tx)
  }

  /** The held registry gives way only to a higher revision. */
  function Adopt(held: Option<Snapshot>, snapshot: Snapshot): Option<Snapshot> {
    if snapshot.revision > (if held.Some? then held.value.revision else 0) then Some(snapshot) else held
  }

  function Next(s: State, step: Step): State
    requires Enabled(s, step)
  {
    match step
    case Begin(tx, kind) => s.(txs := s.txs[tx := Waiting(kind)], queue := s.queue + [tx])
    case Acquire =>
      var tx := s.queue[0];
      s.(queue := s.queue[1..], holder := Some(tx),
         txs := if tx in s.txs && s.txs[tx].Waiting? then s.txs[tx := Holding(s.txs[tx].kind)] else s.txs)
    case ReadConfig(ok) =>
      if ok then s.(txs := s.txs[s.holder.value := Copied(HeldTx(s).kind, s.hub)]) else Release(s, None)
    case SaveConfig(outcome) =>
      var tx := HeldTx(s);
      (match Patch(tx.copy, tx.kind.path, tx.kind.change)
       case None => Release(s, None)
       case Some(partial) =>
         var taken := s.(hub := partial, applied := s.applied + [(tx.kind.path, tx.kind.change)]);
         match outcome
         case Taken => taken.(txs := s.txs[s.holder.value := Answered(tx.kind, partial)])
         case Skipped => s.(txs := s.txs[s.holder.value := Answered(tx.kind, s.hub)])
         case FailedTaken => Release(taken, None)
         case FailedNotTaken => Release(s, None))
    case Finish =>
      var tx := HeldTx(s);
      if tx.Copied? then Snap(s, tx.copy)
      else if Held(tx.answer, tx.kind.path, tx.kind.change) then Snap(s, tx.answer)
      else Release(s, None)
    case Abandon(tx) =>
      if s.holder == Some(tx) then Release(s, None)
      else s.(queue := Without(s.queue, tx), txs := s.txs[tx := Finished(s.txs[tx].kind, None)])
    case Process(c, tx) =>
      var snapshot := s.txs[tx].result.value;
      var (held, seen) := s.controllers[c];
      s.(controllers := s.controllers[c := (Adopt(held, snapshot), seen + {snapshot.revision})])
  }

  function Exec(hub: Registry, controllers: set<nat>, steps: seq<Step>): Option<State> {
    if steps == [] then Some(Init(hub, controllers))
    else
      var last := steps[|steps| - 1];
      match Exec(hub, controllers, steps[..|steps| - 1])
      case None => None
      case Some(before) => if Enabled(before, last) then Some(Next(before, last)) else None
  }

  // ---- what every run keeps ----------------------------------------------

  /** The patches folded in order; a refused one would leave the map alone. */
  function Fold(projects: Registry, patches: seq<(Path, Change)>): Registry {
    if patches == [] then projects
    else
      var last := patches[|patches| - 1];
      var before := Fold(projects, patches[..|patches| - 1]);
      match Patch(before, last.0, last.1)
      case None => before
      case Some(after) => after
  }

  /** Nothing is written between a holder's read and its save. */
  ghost predicate HolderInv(s: State) {
    s.holder.Some? ==>
      && s.holder.value in s.txs && !HeldTx(s).Waiting? && !HeldTx(s).Finished?
      && (HeldTx(s).Copied? ==> HeldTx(s).copy == s.hub)
      && (HeldTx(s).Answered? ==> HeldTx(s).answer == s.hub)
  }

  ghost predicate QueueInv(s: State) {
    && (forall i :: 0 <= i < |s.queue| ==> s.queue[i] in s.txs && s.txs[s.queue[i]].Waiting?)
    && (forall i, j :: 0 <= i < j < |s.queue| ==> s.queue[i] != s.queue[j])
    && (forall t :: t in s.txs && !s.txs[t].Waiting? && !s.txs[t].Finished? ==> s.holder == Some(t))
  }

  /** Each patch in turn was one the hub's map at the time admits. */
  predicate Accepted(projects: Registry, patches: seq<(Path, Change)>) {
    patches == [] ||
      var front, last := patches[..|patches| - 1], patches[|patches| - 1];
      Accepted(projects, front) && Patch(Fold(projects, front), last.0, last.1).Some?
  }

  /** The map and the snapshots taken of it, by revision. */
  ghost predicate HistoryInv(s: State, initial: Registry) {
    && s.hub == Fold(initial, s.applied) && Accepted(initial, s.applied)
    && (forall r :: r in s.snapshots <==> 1 <= r <= s.revision)
    && (forall r :: r in s.snapshots ==>
          s.snapshots[r].1 <= |s.applied| && s.snapshots[r].0 == Fold(initial, s.applied[..s.snapshots[r].1]))
    && (forall r, q :: r in s.snapshots && q in s.snapshots && r <= q ==> s.snapshots[r].1 <= s.snapshots[q].1)
  }

  /** A finished transaction answers a recorded state, a save one that holds its change. */
  predicate Recorded(s: State, kind: Kind, result: Option<Snapshot>) {
    result.Some? ==>
      && result.value.revision in s.snapshots && s.snapshots[result.value.revision].0 == result.value.projects
      && (kind.Save? ==> Held(result.value.projects, kind.path, kind.change))
  }

  predicate Told(s: State, t: nat) {
    t in s.txs && s.txs[t].Finished? && s.txs[t].result.Some?
  }

  ghost predicate ResultInv(s: State) {
    && (forall t :: t in s.txs && s.txs[t].Finished? ==> Recorded(s, s.txs[t].kind, s.txs[t].result))
    && (forall t, u :: Told(s, t) && Told(s, u) && t != u ==>
          s.txs[t].result.value.revision != s.txs[u].result.value.revision)
  }

  /** A controller holds the snapshot of the highest revision it has processed. */
  ghost predicate ControllerInv(s: State, held: Option<Snapshot>, seen: set<nat>) {
    && (forall r :: r in seen ==> r in s.snapshots)
    && (held.None? <==> seen == {})
    && (held.Some? ==>
          && held.value.revision in seen && (forall r :: r in seen ==> r <= held.value.revision)
          && s.snapshots[held.value.revision].0 == held.value.projects)
  }

  ghost predicate Inv(s: State, initial: Registry) {
    && HolderInv(s) && QueueInv(s) && HistoryInv(s, initial) && ResultInv(s)
    && (forall c :: c in s.controllers ==> ControllerInv(s, s.controllers[c].0, s.controllers[c].1))
  }

  lemma FoldAppend(projects: Registry, patches: seq<(Path, Change)>, path: Path, change: Change)
    requires Patch(Fold(projects, patches), path, change).Some?
    ensures Fold(projects, patches + [(path, change)]) == Patch(Fold(projects, patches), path, change).value
    ensures Accepted(projects, patches) ==> Accepted(projects, patches + [(path, change)])
  {
    assert (patches + [(path, change)])[..|patches|] == patches;
  }

  lemma {:induction false} WithoutFacts(queue: seq<nat>, tx: nat)
    requires forall i, j :: 0 <= i < j < |queue| ==> queue[i] != queue[j]
    ensures forall t :: t in Without(queue, tx) <==> t in queue && t != tx
    ensures forall i, j :: 0 <= i < j < |Without(queue, tx)| ==> Without(queue, tx)[i] != Without(queue, tx)[j]
  {
    if queue != [] {
      WithoutFacts(queue[1..], tx);
      assert queue == [queue[0]] + queue[1..];
      assert queue[0] !in queue[1..];
    }
  }

  lemma ReleaseKeeps(initial: Registry, s: State)
    requires Inv(s, initial) && s.holder.Some? && s.holder.value in s.txs
    ensures Inv(Release(s, None), initial)
  {
    hide HistoryInv, Fold, Accepted;
    var s' := Release(s, None);
    SameHistory(initial, s, s');
  }

  /** Facts about the map and its snapshots do not depend on the transactions. */
  lemma SameHistory(initial: Registry, s: State, s': State)
    requires HistoryInv(s, initial)
    requires s' == s.(holder := s'.holder, queue := s'.queue, txs := s'.txs, controllers := s'.controllers)
    ensures HistoryInv(s', initial)
  {
  }

  lemma TakenHistory(initial: Registry, s: State, path: Path, change: Change)
    requires HistoryInv(s, initial) && Patch(s.hub, path, change).Some?
    ensures HistoryInv(s.(hub := Patch(s.hub, path, change).value, applied := s.applied + [(path, change)]), initial)
  {
    hide Patch, Fold, Accepted;
    FoldAppend(initial, s.applied, path, change);
    forall r | r in s.snapshots
      ensures (s.applied + [(path, change)])[..s.snapshots[r].1] == s.applied[..s.snapshots[r].1]
    {}
  }

  /** A save that answered a map, or failed: the rest is as it was. */
  lemma SavedKeeps(initial: Registry, s: State, q: State)
    requires Inv(s, initial) && s.holder.Some? && HistoryInv(q, initial)
    requires q == s.(hub := q.hub, applied := q.applied, holder := q.holder, txs := q.txs)
    requires s.holder.value in s.txs
    requires (q.holder == s.holder && q.txs == s.txs[s.holder.value := Answered(HeldTx(s).kind, q.hub)])
          || (q.holder.None? && q.txs == s.txs[s.holder.value := Finished(HeldTx(s).kind, None)])
    ensures Inv(q, initial)
  {
    hide Patch, Held, HistoryInv, Fold, Accepted;
    forall c | c in q.controllers ensures ControllerInv(q, q.controllers[c].0, q.controllers[c].1) {
      assert ControllerInv(s, s.controllers[c].0, s.controllers[c].1);
    }
  }

  lemma {:induction false} SaveKeeps(initial: Registry, s: State, outcome: Outcome)
    requires Inv(s, initial) && Enabled(s, SaveConfig(outcome))
    ensures Inv(Next(s, SaveConfig(outcome)), initial)
  {
    hide Patch, Held, HistoryInv, Fold, Accepted, ResultInv, QueueInv, ControllerInv;
    var tx := HeldTx(s);
    var s' := Next(s, SaveConfig(outcome));
    if Patch(tx.copy, tx.kind.path, tx.kind.change).Some? && (outcome.Taken? || outcome.FailedTaken?) {
      TakenHistory(initial, s, tx.kind.path, tx.kind.change);
      SameHistory(initial, s.(hub := s'.hub, applied := s'.applied), s');
    } else {
      SameHistory(initial, s, s');
    }
    SavedKeeps(initial, s, s');
  }

  lemma SnapHistory(initial: Registry, s: State)
    requires HistoryInv(s, initial)
    ensures var snapshots := s.snapshots[s.revision + 1 := (s.hub, |s.applied|)];
      HistoryInv(s.(revision := s.revision + 1, snapshots := snapshots), initial)
  {
    hide Fold;
    assert s.applied[..|s.applied|] == s.applied;
  }

  lemma SnapKeeps(initial: Registry, s: State)
    requires Inv(s, initial) && s.holder.Some? && s.holder.value in s.txs
    requires HeldTx(s).kind.Save? ==> Held(s.hub, HeldTx(s).kind.path, HeldTx(s).kind.change)
    ensures Inv(Snap(s, s.hub), initial)
  {
    hide Fold, Accepted, HistoryInv, Held;
    var s' := Snap(s, s.hub);
    SnapHistory(initial, s);
    SameHistory(initial, s.(revision := s'.revision, snapshots := s'.snapshots), s');
    assert s.revision + 1 !in s.snapshots by { NewRevision(initial, s); }
    forall c | c in s'.controllers ensures ControllerInv(s', s'.controllers[c].0, s'.controllers[c].1) {
      assert ControllerInv(s, s.controllers[c].0, s.controllers[c].1);
    }
  }

  lemma FinishKeeps(initial: Registry, s: State)
    requires Inv(s, initial) && Enabled(s, Finish)
    ensures Inv(Next(s, Finish), initial)
  {
    hide Fold, Accepted, HistoryInv, Patch, Held, ResultInv, QueueInv, ControllerInv;
    ReleaseKeeps(initial, s);
    if HeldTx(s).Copied? || Held(s.hub, HeldTx(s).kind.path, HeldTx(s).kind.change) { SnapKeeps(initial, s); }
  }

  lemma NewRevision(initial: Registry, s: State)
    requires HistoryInv(s, initial)
    ensures s.revision + 1 !in s.snapshots
    ensures 0 !in s.snapshots
  {
  }

  lemma ProcessKeeps(initial: Registry, s: State, c: nat, tx: nat)
    requires Inv(s, initial) && Enabled(s, Process(c, tx))
    ensures Inv(Next(s, Process(c, tx)), initial)
  {
    hide Fold, Accepted, HistoryInv, Patch, Held;
    var s' := Next(s, Process(c, tx));
    NewRevision(initial, s);
    SameHistory(initial, s, s');
    assert ControllerInv(s, s.controllers[c].0, s.controllers[c].1);
    assert Recorded(s, s.txs[tx].kind, s.txs[tx].result);
    forall d | d in s'.controllers ensures ControllerInv(s', s'.controllers[d].0, s'.controllers[d].1) {
      assert ControllerInv(s, s.controllers[d].0, s.controllers[d].1);
    }
  }

  lemma BeginKeeps(initial: Registry, s: State, step: Step)
    requires Inv(s, initial) && Enabled(s, step) && step.Begin?
    ensures Inv(Next(s, step), initial)
  {
    hide Fold, Accepted, HistoryInv, Patch, Held;
    SameHistory(initial, s, Next(s, step));
  }

  lemma AcquireKeeps(initial: Registry, s: State, step: Step)
    requires Inv(s, initial) && Enabled(s, step) && step.Acquire?
    ensures Inv(Next(s, step), initial)
  {
    hide Fold, Accepted, HistoryInv, Patch, Held;
    SameHistory(initial, s, Next(s, step));
    assert s.queue == [s.queue[0]] + s.queue[1..];
  }

  lemma ReadConfigKeeps(initial: Registry, s: State, step: Step)
    requires Inv(s, initial) && Enabled(s, step) && step.ReadConfig?
    ensures Inv(Next(s, step), initial)
  {
    hide Fold, Accepted, HistoryInv, Patch, Held;
    if step.ok {
      SameHistory(initial, s, Next(s, step));
      SameControllers(s, Next(s, step));
    } else {
      ReleaseKeeps(initial, s);
    }
  }

  lemma SameControllers(s: State, t: State)
    requires t.snapshots == s.snapshots && t.controllers == s.controllers
    requires forall c :: c in s.controllers ==> ControllerInv(s, s.controllers[c].0, s.controllers[c].1)
    ensures forall c :: c in t.controllers ==> ControllerInv(t, t.controllers[c].0, t.controllers[c].1)
  {
    forall c | c in t.controllers ensures ControllerInv(t, t.controllers[c].0, t.controllers[c].1) {
      assert ControllerInv(s, s.controllers[c].0, s.controllers[c].1);
    }
  }

  lemma {:induction false} AbandonKeeps(initial: Registry, s: State, tx: nat)
    requires Inv(s, initial) && Enabled(s, Abandon(tx)) && s.holder != Some(tx)
    ensures Inv(Next(s, Abandon(tx)), initial)
  {
    hide Fold, Accepted, HistoryInv, Patch, Held, Without;
    SameHistory(initial, s, Next(s, Abandon(tx)));
    WithoutFacts(s.queue, tx);
    var queue := Without(s.queue, tx);
    forall i | 0 <= i < |queue| ensures queue[i] in s.queue && queue[i] != tx {
      assert queue[i] in queue;
    }
  }

  lemma StepKeeps(initial: Registry, s: State, step: Step)
    requires Inv(s, initial) && Enabled(s, step)
    ensures Inv(Next(s, step), initial)
  {
    hide Patch, Held, Fold, HistoryInv, ResultInv, QueueInv, ControllerInv;
    match step
    case SaveConfig(outcome) => SaveKeeps(initial, s, outcome);
    case Finish =>
      FinishKeeps(initial, s);
    case Process(c, tx) => ProcessKeeps(initial, s, c, tx);
    case Abandon(tx) =>
      if s.holder == Some(tx) { ReleaseKeeps(initial, s); } else { AbandonKeeps(initial, s, tx); }
    case Begin(_, _) => BeginKeeps(initial, s, step);
    case Acquire => AcquireKeeps(initial, s, step);
    case ReadConfig => ReadConfigKeeps(initial, s, step);
  }

  lemma {:induction false} RunKeeps(hub: Registry, controllers: set<nat>, steps: seq<Step>)
    requires Exec(hub, controllers, steps).Some?
    ensures Inv(Exec(hub, controllers, steps).value, hub)
  {
    hide Next, Inv;
    if steps == [] {
      StartKeeps(hub, controllers);
    } else {
      var before := Exec(hub, controllers, steps[..|steps| - 1]).value;
      RunKeeps(hub, controllers, steps[..|steps| - 1]);
      StepKeeps(hub, before, steps[|steps| - 1]);
    }
  }

  lemma StartKeeps(hub: Registry, controllers: set<nat>)
    ensures Inv(Init(hub, controllers), hub)
  {
  }

  /** No lost update: whatever the interleaving, failures and abandoned jobs, the hub's map is
      every patch it took, folded in lock order, although each save replaced the whole map. */
  lemma {:induction false} NoLostUpdate(hub: Registry, controllers: set<nat>, steps: seq<Step>)
    requires Exec(hub, controllers, steps).Some?
    ensures Exec(hub, controllers, steps).value.hub == Fold(hub, Exec(hub, controllers, steps).value.applied)
  {
    RunKeeps(hub, controllers, steps);
  }

  /** Nothing later undoes `(path, change)`. */
  predicate Undisturbed(patches: seq<(Path, Change)>, path: Path, change: Change) {
    forall i :: 0 <= i < |patches| && patches[i].0.dir == path.dir ==> !Disturbs(change, patches[i].1)
  }

  lemma {:induction false} FoldKeepsChange(
      projects: Registry, before: seq<(Path, Change)>, later: seq<(Path, Change)>, path: Path, change: Change)
    requires Held(Fold(projects, before), path, change) && Undisturbed(later, path, change)
    requires Accepted(projects, before + later)
    ensures Held(Fold(projects, before + later), path, change)
    decreases |later|
  {
    hide Patch, Held;
    var all := before + later;
    if later == [] {
      assert all == before;
    } else {
      var front, last := all[..|all| - 1], later[|later| - 1];
      assert front == before + later[..|later| - 1] && all[|all| - 1] == last;
      FoldKeepsChange(projects, before, later[..|later| - 1], path, change);
      HeldSurvives(Fold(projects, front), path, change, last.0, last.1);
    }
  }

  /** None of these patches to the project's directory sets what `change` would. */
  predicate Unnamed(patches: seq<(Path, Change)>, dir: nat, sets: Change -> bool) {
    forall i :: 0 <= i < |patches| && patches[i].0.dir == dir ==> !sets(patches[i].1)
  }

  function SetsFavourite(): Change -> bool {
    (c: Change) => c.Pin? || c.Remove?
  }

  function SetsTime(): Change -> bool {
    (c: Change) => c.Touch? || c.Remove?
  }

  function SetsIdentity(): Change -> bool {
    (c: Change) => c.Rename? || c.Settings? || c.Remove?
  }

  function SetsGit(): Change -> bool {
    (c: Change) => c.Repository? || c.Settings? || c.Remove?
  }

  function Removes(): Change -> bool {
    (c: Change) => c.Remove?
  }

  /** Through any accepted patches an entry keeps every field that none of them sets. */
  ghost predicate KeepsFields(was: Entry, projects: Registry, k: Path, patches: seq<(Path, Change)>)
    requires was.Entry?
  {
    Unnamed(patches, k.dir, Removes()) ==>
      && k in projects && projects[k].Entry? && projects[k].gitMore == was.gitMore && projects[k].more == was.more
      && (Unnamed(patches, k.dir, SetsFavourite()) ==> projects[k].favourite == was.favourite)
      && (Unnamed(patches, k.dir, SetsTime()) ==> projects[k].lastOpened == was.lastOpened)
      && (Unnamed(patches, k.dir, SetsIdentity()) ==> projects[k].identity == was.identity)
      && (Unnamed(patches, k.dir, SetsGit()) ==> projects[k].git == was.git)
  }

  lemma {:induction false} FoldKeepsFields(projects: Registry, patches: seq<(Path, Change)>, k: Path)
    requires k in projects && projects[k].Entry? && Accepted(projects, patches)
    ensures KeepsFields(projects[k], Fold(projects, patches), k, patches)
    decreases |patches|
  {
    hide Patch;
    if patches != [] {
      var front, last := patches[..|patches| - 1], patches[|patches| - 1];
      FoldKeepsFields(projects, front, k);
      UnnamedFront(patches, k.dir);
      if Unnamed(patches, k.dir, Removes()) {
        assert last == patches[|patches| - 1];
        if last.1 == Remove {
          RemoveElsewhere(Fold(projects, front), last.0, k);
        } else {
          PatchSparesTheRest(Fold(projects, front), last.0, last.1, k);
        }
      }
    }
  }

  lemma RemoveElsewhere(projects: Registry, path: Path, k: Path)
    requires Patch(projects, path, Remove).Some? && k in projects && k.dir != path.dir
    ensures k in Patch(projects, path, Remove).value && Patch(projects, path, Remove).value[k] == projects[k]
  {
  }

  lemma UnnamedFront(patches: seq<(Path, Change)>, dir: nat)
    requires patches != []
    ensures forall sets: Change -> bool {:trigger Unnamed(patches, dir, sets)} ::
      Unnamed(patches, dir, sets) ==> Unnamed(patches[..|patches| - 1], dir, sets)
  {
  }

  /** A field no taken patch names is still what the hub began with, although every save replaced the
      whole map, in any run. */
  lemma {:induction false} UnnamedFieldsAreKept(hub: Registry, controllers: set<nat>, steps: seq<Step>, k: Path)
    requires Exec(hub, controllers, steps).Some? && k in hub && hub[k].Entry?
    ensures var s := Exec(hub, controllers, steps).value; KeepsFields(hub[k], s.hub, k, s.applied)
  {
    hide Fold, Accepted;
    RunKeeps(hub, controllers, steps);
    FoldKeepsFields(hub, Exec(hub, controllers, steps).value.applied, k);
  }

  lemma {:induction false} AcceptedPrefix(projects: Registry, patches: seq<(Path, Change)>, n: nat)
    requires Accepted(projects, patches) && n <= |patches|
    ensures Accepted(projects, patches[..n])
    decreases |patches|
  {
    if n < |patches| {
      assert patches[..|patches| - 1][..n] == patches[..n];
      AcceptedPrefix(projects, patches[..|patches| - 1], n);
    } else {
      assert patches[..n] == patches;
    }
  }

  /** So a change the hub took is still there, however many other windows' rounds replaced the map
      after it, until one of them disturbs it. */
  lemma {:induction false} TakenChangeIsNeverErased(hub: Registry, controllers: set<nat>, steps: seq<Step>, i: nat)
    requires Exec(hub, controllers, steps).Some? && i < |Exec(hub, controllers, steps).value.applied|
    requires var applied := Exec(hub, controllers, steps).value.applied;
      Readable(applied[i].1) && Undisturbed(applied[i + 1..], applied[i].0, applied[i].1)
    ensures var s := Exec(hub, controllers, steps).value; Held(s.hub, s.applied[i].0, s.applied[i].1)
  {
    hide Patch, Held, Fold;
    RunKeeps(hub, controllers, steps);
    var s := Exec(hub, controllers, steps).value;
    var (path, change) := s.applied[i];
    var before := s.applied[..i + 1];
    assert s.applied == before + s.applied[i + 1..];
    AcceptedPrefix(hub, s.applied, i + 1);
    assert before[..i] == s.applied[..i] && before[|before| - 1] == (path, change);
    FoldAppend(hub, s.applied[..i], path, change);
    assert s.applied[..i] + [(path, change)] == before;
    PatchHolds(Fold(hub, s.applied[..i]), path, change);
    FoldKeepsChange(hub, before, s.applied[i + 1..], path, change);
  }

  /** A save whose window was told success holds in its answer, and in the hub's map for as long as no
      patch taken after that answer disturbs it. */
  lemma {:induction false} ToldSaveHolds(hub: Registry, controllers: set<nat>, steps: seq<Step>, t: nat)
      returns (n: nat)
    requires Exec(hub, controllers, steps).Some? && Told(Exec(hub, controllers, steps).value, t)
    requires Exec(hub, controllers, steps).value.txs[t].kind.Save?
    ensures var s := Exec(hub, controllers, steps).value;
      var Save(path, change) := s.txs[t].kind;
      && n <= |s.applied| && s.txs[t].result.value.projects == Fold(hub, s.applied[..n])
      && Held(s.txs[t].result.value.projects, path, change)
      && (Undisturbed(s.applied[n..], path, change) ==> Held(s.hub, path, change))
  {
    hide Patch, Held, Fold, Accepted, Undisturbed;
    RunKeeps(hub, controllers, steps);
    var s := Exec(hub, controllers, steps).value;
    var Save(path, change) := s.txs[t].kind;
    assert Recorded(s, s.txs[t].kind, s.txs[t].result);
    n := s.snapshots[s.txs[t].result.value.revision].1;
    assert s.applied == s.applied[..n] + s.applied[n..];
    if Undisturbed(s.applied[n..], path, change) {
      FoldKeepsChange(hub, s.applied[..n], s.applied[n..], path, change);
    }
  }

  /** Two finished transactions have different revisions, each answers a state the hub really had,
      and the higher revision never the earlier state. */
  lemma {:induction false} RevisionsFollowTheHub(hub: Registry, controllers: set<nat>, steps: seq<Step>, a: nat, b: nat)
      returns (m: nat, n: nat)
    requires Exec(hub, controllers, steps).Some? && a != b
    requires var s := Exec(hub, controllers, steps).value; Told(s, a) && Told(s, b)
    ensures var s := Exec(hub, controllers, steps).value;
      && s.txs[a].result.value.revision != s.txs[b].result.value.revision
      && (s.txs[a].result.value.revision < s.txs[b].result.value.revision ==> m <= n)
      && m <= |s.applied| && s.txs[a].result.value.projects == Fold(hub, s.applied[..m])
      && n <= |s.applied| && s.txs[b].result.value.projects == Fold(hub, s.applied[..n])
  {
    RunKeeps(hub, controllers, steps);
    var s := Exec(hub, controllers, steps).value;
    m := s.snapshots[s.txs[a].result.value.revision].1;
    n := s.snapshots[s.txs[b].result.value.revision].1;
  }

  /** Revisions strictly increase in the order transactions finish: one that finishes later has a
      higher one than every one that had finished. */
  lemma {:induction false} RevisionsStrictlyIncrease(
      hub: Registry, controllers: set<nat>, steps: seq<Step>, more: seq<Step>, a: nat, b: nat)
    requires Exec(hub, controllers, steps).Some? && Exec(hub, controllers, steps + more).Some?
    requires var s, t := Exec(hub, controllers, steps).value, Exec(hub, controllers, steps + more).value;
      Told(s, a) && Told(t, b) && (b !in s.txs || !s.txs[b].Finished?)
    ensures var t := Exec(hub, controllers, steps + more).value;
      Told(t, a) && t.txs[a].result.value.revision < t.txs[b].result.value.revision
  {
    hide Exec;
    Later(hub, controllers, steps, more);
    RunKeeps(hub, controllers, steps);
    KnownRevision(hub, Exec(hub, controllers, steps).value, a);
  }

  lemma KnownRevision(initial: Registry, s: State, t: nat)
    requires Inv(s, initial) && Told(s, t)
    ensures s.txs[t].result.value.revision <= s.revision
  {
    assert Recorded(s, s.txs[t].kind, s.txs[t].result);
  }

  /** What was finished stays as it was, and what finishes later is numbered above it. */
  ghost predicate LaterThan(s: State, t: State) {
    && s.revision <= t.revision
    && (forall i :: i in s.txs && s.txs[i].Finished? ==> i in t.txs && t.txs[i] == s.txs[i])
    && (forall i :: Told(t, i) ==> (i in s.txs && s.txs[i].Finished?) || t.txs[i].result.value.revision > s.revision)
  }

  lemma {:induction false} Later(hub: Registry, controllers: set<nat>, steps: seq<Step>, more: seq<Step>)
    requires Exec(hub, controllers, steps).Some? && Exec(hub, controllers, steps + more).Some?
    ensures LaterThan(Exec(hub, controllers, steps).value, Exec(hub, controllers, steps + more).value)
    decreases |more|
  {
    hide Next, Inv;
    if more == [] {
      assert steps + more == steps;
    } else {
      var all, front := steps + more, more[..|more| - 1];
      assert all[..|all| - 1] == steps + front;
      Later(hub, controllers, steps, front);
      RunKeeps(hub, controllers, steps + front);
      StepLater(hub, Exec(hub, controllers, steps + front).value, all[|all| - 1]);
    }
  }

  lemma StepLater(initial: Registry, s: State, step: Step)
    requires Inv(s, initial) && Enabled(s, step)
    ensures LaterThan(s, Next(s, step))
  {
    hide Patch, Held, HistoryInv, ResultInv, QueueInv, ControllerInv, Without, LaterThan;
    var t := Next(s, step);
    match step
    case Begin(tx, _) => OneMoves(s, t, tx);
    case Acquire =>
      var tx := s.queue[0];
      if tx in s.txs && s.txs[tx].Waiting? { OneMoves(s, t, tx); } else { NoneMoves(s, t); }
    case Abandon(tx) => OneMoves(s, t, tx);
    case Process(_, _) => NoneMoves(s, t);
    case _ => OneMoves(s, t, s.holder.value);
  }

  lemma NoneMoves(s: State, t: State)
    requires t.txs == s.txs && t.revision == s.revision
    ensures LaterThan(s, t)
  {
  }

  lemma OneMoves(s: State, t: State, i: nat)
    requires i in t.txs && t.txs == s.txs[i := t.txs[i]] && s.revision <= t.revision
    requires i !in s.txs || !s.txs[i].Finished?
    requires Told(t, i) ==> t.txs[i].result.value.revision > s.revision
    ensures LaterThan(s, t)
  {
  }

  /** In any completion order a controller holds the answer with the highest revision it has
      processed, and that is a state the hub had. */
  lemma {:induction false} RegistryIsTheNewestProcessed(
      hub: Registry, controllers: set<nat>, steps: seq<Step>, c: nat) returns (n: nat)
    requires Exec(hub, controllers, steps).Some? && c in Exec(hub, controllers, steps).value.controllers
    requires Exec(hub, controllers, steps).value.controllers[c].0.Some?
    ensures var s := Exec(hub, controllers, steps).value;
      var (held, seen) := s.controllers[c];
      && held.value.revision in seen && (forall r :: r in seen ==> r <= held.value.revision)
      && n <= |s.applied| && held.value.projects == Fold(hub, s.applied[..n])
  {
    RunKeeps(hub, controllers, steps);
    var s := Exec(hub, controllers, steps).value;
    assert ControllerInv(s, s.controllers[c].0, s.controllers[c].1);
    n := s.snapshots[s.controllers[c].0.value.revision].1;
  }
}
