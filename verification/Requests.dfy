/** Request slots (controller.rs): one slot a kind of request, writes that are never recalled, and
    queued requests that each keep their own job and receipt. */
module Requests {
  import opened Wrappers

  const MAX_RECEIPTS := 128

  type Key = string

  datatype Request = SetArchive(session: string, archived: bool) | TouchProject(path: string, at: int)
    | RewindFiles(preview: bool) | Ask(key: Key, named: bool)

  const GUARDED: set<Key> := {
    "upload", "project-save", "file-save", "job-action", "host-action", "link-action", "queue-submit", "scratch-mark",
    "project-group-save", "project-group-remove", "task-stop", "git-action", "fork", "rewind-files", "pr-link",
    "pr-action", "session-cleanup", "session-snooze", "session-undo", "session-forget" }

  const QUEUED: set<Key> := {"project-touch", "archive-set", "session-end", "session-seen"}

  /** `Ask` is any request without a constructor of its own. */
  predicate Proper(r: Request) {
    r.Ask? ==> r.key !in {"archive-set", "project-touch", "rewind-files"}
  }

  function KeyOf(r: Request): Key {
    match r
    case SetArchive(_, _) => "archive-set"
    case TouchProject(_, _) => "project-touch"
    case RewindFiles(_) => "rewind-files"
    case Ask(key, _) => key
  }

  /** Whether one named hub method stands behind the request, which a connection may lack. */
  predicate HasMethod(r: Request) {
    match r
    case RewindFiles(_) => true
    case Ask(_, named) => named
    case _ => false
  }

  datatype Outcome = Fine | Failed | Superseded

  datatype Slot = Slot(number: nat, request: Request, loading: bool, failed: bool)

  /** A request under way; `aborted` once another took its slot. */
  datatype Job = Job(epoch: nat, request: Request, aborted: bool)

  datatype Receipt = Receipt(number: nat, request: Request, failed: bool)

  /** A completion as it arrived: which request, accepted and finished in which epoch. */
  datatype Finished = Finished(number: nat, request: Request, accepted: nat, epoch: nat, outcome: Outcome)

  datatype State = State(
    epoch: nat, connected: bool, number: nat, slots: map<Key, Slot>, aborts: map<Key, nat>, jobs: map<nat, Job>,
    archiveReceipts: seq<Receipt>, touchReceipts: seq<Receipt>, finished: seq<Finished>)

  function Init(): State {
    State(0, false, 0, map[], map[], map[], [], [], [])
  }

  /** A write already on its way cannot be recalled; only a rewind preview is. */
  predicate Blocked(s: State, r: Request) {
    var key := KeyOf(r);
    key in GUARDED && key in s.slots && s.slots[key].loading && s.slots[key].request != RewindFiles(true)
  }

  predicate Refused(s: State, r: Request, mayCall: bool, onScreen: bool) {
    !onScreen || (HasMethod(r) && (!mayCall || !s.connected)) || Blocked(s, r)
  }

  function Aborted(jobs: map<nat, Job>, n: nat): map<nat, Job> {
    if n in jobs then jobs[n := jobs[n].(aborted := true)] else jobs
  }

  function Take(s: State, r: Request): State {
    var key, n := KeyOf(r), s.number + 1;
    var jobs := if key !in QUEUED && key in s.aborts then Aborted(s.jobs, s.aborts[key]) else s.jobs;
    s.(number := n,
       aborts := if key in QUEUED then s.aborts else s.aborts[key := n],
       slots := s.slots[key := Slot(n, r, true, false)],
       jobs := jobs[n := Job(s.epoch, r, false)])
  }

  function AskFor(s: State, r: Request, mayCall: bool, onScreen: bool): State {
    if Refused(s, r, mayCall, onScreen) then s else Take(s, r)
  }

  function Newest(receipts: seq<Receipt>, r: Receipt): seq<Receipt> {
    var all := receipts + [r];
    if |all| > MAX_RECEIPTS then all[1..] else all
  }

  /** A completion of an earlier connection, or of a superseded request, changes nothing. */
  predicate Ignored(s: State, n: nat, epoch: nat, r: Request) {
    epoch != s.epoch ||
    (KeyOf(r) !in {"project-touch", "archive-set"} && (KeyOf(r) in s.slots ==> s.slots[KeyOf(r)].number != n))
  }

  function Settle(s: State, n: nat, r: Request, outcome: Outcome): State {
    var receipt := Receipt(n, r, outcome != Fine);
    s.(archiveReceipts := if r.SetArchive? then Newest(s.archiveReceipts, receipt) else s.archiveReceipts,
       touchReceipts := if r.TouchProject? then Newest(s.touchReceipts, receipt) else s.touchReceipts,
       slots := s.slots[KeyOf(r) := Slot(n, r, false, outcome != Fine)])
  }

  function Completed(s: State, n: nat, outcome: Outcome): State
    requires n in s.jobs
  {
    var job := s.jobs[n];
    var t := s.(jobs := s.jobs - {n},
                finished := s.finished + [Finished(n, job.request, job.epoch, s.epoch, outcome)]);
    if Ignored(s, n, job.epoch, job.request) then t else Settle(t, n, job.request, outcome)
  }

  function Idle(slot: Slot): Slot {
    if slot.loading then slot.(loading := false, failed := true) else slot
  }

  function AllIdle(slots: map<Key, Slot>): map<Key, Slot> {
    map k | k in slots :: Idle(slots[k])
  }

  function Disconnect(s: State): State {
    s.(epoch := s.epoch + 1, connected := false, slots := AllIdle(s.slots))
  }

  function Connect(s: State): State {
    s.(epoch := s.epoch + 1, connected := true)
  }

  function Drop(s: State, key: Key): State {
    s.(slots := s.slots - {key}, aborts := s.aborts - {key},
       jobs := if key in s.aborts then Aborted(s.jobs, s.aborts[key]) else s.jobs)
  }

  function DropAll(s: State, keys: seq<Key>): State
    decreases |keys|
  {
    if keys == [] then s else DropAll(Drop(s, keys[0]), keys[1..])
  }

  const SELECT_ORDER: seq<Key> := ["history", "subagent-history", "changes", "diff", "card-diff", "file-preview"]

  // ---- runs --------------------------------------------------------------

  datatype Step = AskStep(request: Request, mayCall: bool, onScreen: bool) | CompleteStep(number: nat, outcome: Outcome)
    | ConnectStep | DisconnectStep | SelectStep | NumberStep

  /** A job answers "superseded" only after it was aborted; a connection starts after one ended. */
  predicate Enabled(s: State, step: Step) {
    match step
    case AskStep(r, _, _) => Proper(r)
    case CompleteStep(n, outcome) => n in s.jobs && (outcome == Superseded ==> s.jobs[n].aborted)
    case ConnectStep => !s.connected
    case _ => true
  }

  function Next(s: State, step: Step): State
    requires Enabled(s, step)
  {
    match step
    case AskStep(r, mayCall, onScreen) => AskFor(s, r, mayCall, onScreen)
    case CompleteStep(n, outcome) => Completed(s, n, outcome)
    case ConnectStep => Connect(s)
    case DisconnectStep => Disconnect(s)
    case SelectStep => DropAll(s, SELECT_ORDER)
    case NumberStep => s.(number := s.number + 1)
  }

  function Exec(s: State, steps: seq<Step>): Option<State>
    decreases |steps|
  {
    if steps == [] then Some(s)
    else if Enabled(s, steps[0]) then Exec(Next(s, steps[0]), steps[1..])
    else None
  }
}
