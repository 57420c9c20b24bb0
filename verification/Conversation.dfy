/** The controller's worker as far as conversations go (apps/native/src/controller.rs): which
    session or child is on screen, the one read it may have in flight, the deltas held behind
    that read, and transcripts held for a quick return.

    A `Step` is one command, bus event or late completion taken by the worker's loop; jobs
    complete in any order. `History` is bookkeeping for the promises only.
*/
module Conversation {
  import opened Wrappers
  import opened Transcripts

  const PAGE := 200
  const MAX_BUFFERED := 64
  const MAX_BUFFERED_BYTES := 2 * 1024 * 1024
  const MAX_HELD_CHILDREN := 8
  const MAX_HELD_BYTES := 16 * 1024 * 1024

  type Session = nat

  datatype Child = Child(parent: Session, agent: nat)

  datatype Screen = Screen(selection: nat, selected: Option<Session>, child: Option<Child>)

  /** The selected conversation's read: in flight or not, and what waits behind it. */
  datatype Reading = Reading(pending: bool, buffered: seq<Delta>, bytes: nat, resync: bool, resetPending: bool)

  datatype Shown = Shown(loading: bool, transcript: Transcript, limit: nat)

  datatype Held = Held(epoch: nat, transcript: Transcript, limit: nat)

  /** Whose rows a screen shows: a session's own, or a child's under it. */
  datatype Owner = Owner(session: Session, child: Option<Child>)

  datatype Job =
    | ReadConversation(epoch: nat, selection: nat, session: Session, limit: nat, resets: nat)
    | ReadChild(epoch: nat, selection: nat, child: Child)

  /** `resets`: resets processed. `since`: plain deltas processed since the newest read was asked
      for. `base`: the last snapshot adopted for what is on screen, unless a later read failed;
      `after`: plain deltas processed since that snapshot was asked for. `adopted`: how many resets
      had been processed when the read last adopted was asked for. `forgot`: since then a read
      failed that had a reset, or a new screen, to bring the transcript past. `last`: what each owner
      showed, settled, when it was last left for a child or a parent. `heard`: the newest snapshot
      received for the child on screen. */
  datatype History = History(
    resets: nat, since: seq<Delta>, base: Option<Snapshot>, after: seq<Delta>, adopted: Option<nat>, forgot: bool,
    last: map<Owner, Held>, heard: Option<Snapshot>)

  datatype State = State(
    epoch: nat, connected: bool, sessions: set<Session>,
    screen: Screen, reading: Reading, shown: Shown,
    childPending: bool, childSeen: Option<(nat, nat)>,
    heldParent: Option<(Session, Held)>, heldChildren: seq<(Child, Held)>,
    jobs: map<nat, Job>, nextJob: nat,
    history: History)

  datatype Reply = Failed | Ok(snapshot: Snapshot)

  datatype Step =
    | Connect
    | Disconnect
    | Fleet(sessions: set<Session>)
    | Select(id: Option<Session>)
    | ViewChild(target: Option<Child>)
    | Poll
    | Refresh
    | LoadOlder(hasOlder: bool)
    | Receive(delta: Delta, size: nat)
    | Complete(job: nat, reply: Reply)

  function Init(): State {
    State(0, false, {}, Screen(0, None, None), Reading(false, [], 0, false, false), Shown(false, EMPTY, PAGE),
          false, None, None, [], map[], 0, History(0, [], None, [], None, false, map[], None))
  }

  predicate Blank(t: Transcript) {
    forall i :: 0 <= i < |t.items| ==> !t.items[i].shown
  }

  function Bytes(t: Transcript): nat {
    ItemBytes(t.items)
  }

  function ItemBytes(items: seq<Item>): nat {
    if items == [] then 0 else items[0].size + ItemBytes(items[1..])
  }

  // ---- reads -------------------------------------------------------------

  function AddJob(s: State, job: Job): State {
    s.(jobs := s.jobs[s.nextJob := job], nextJob := s.nextJob + 1)
  }

  function FetchConversation(s: State): State {
    if !s.connected || s.reading.pending || s.screen.child.Some? || s.screen.selected.None? then s
    else AddJob(s.(reading := Reading(true, [], 0, false, false), history := s.history.(since := [])),
                ReadConversation(s.epoch, s.screen.selection, s.screen.selected.value, s.shown.limit,
                                 s.history.resets))
  }

  function FetchChild(s: State): State {
    if s.screen.child.None? || !s.connected || s.childPending then s
    else AddJob(s.(childPending := true), ReadChild(s.epoch, s.screen.selection, s.screen.child.value))
  }

  /** Whichever the screen shows. */
  function Fetch(s: State): State {
    if s.screen.child.Some? then FetchChild(s) else FetchConversation(s)
  }

  // ---- the screen --------------------------------------------------------

  /** What `select` does before its read: the selection moves on, so every read in flight is stale. */
  function Selected(s: State, id: Option<Session>): State {
    var keep := id.Some? && s.screen.selected == id && s.screen.child.None?;
    var transcript := if keep then s.shown.transcript else EMPTY;
    s.(screen := Screen(s.screen.selection + 1, id, None),
       reading := s.reading.(pending := false, buffered := []),
       shown := Shown(id.Some? && Blank(transcript), transcript, if keep then s.shown.limit else PAGE),
       childPending := false, childSeen := None,
       history := s.history.(base := None, adopted := None, forgot := false, heard := None))
  }

  function SelectScreen(s: State, id: Option<Session>): State {
    FetchConversation(Selected(s, id))
  }

  /** The newest children that fit both bounds; the oldest go first. */
  function Evict(held: seq<(Child, Held)>): seq<(Child, Held)> {
    if |held| > MAX_HELD_CHILDREN || HeldBytes(held) > MAX_HELD_BYTES then Evict(held[1..]) else held
  }

  function HeldBytes(held: seq<(Child, Held)>): nat {
    if held == [] then 0 else Bytes(held[0].1.transcript) + HeldBytes(held[1..])
  }

  function Without(held: seq<(Child, Held)>, child: Child): seq<(Child, Held)> {
    if held == [] then []
    else (if held[0].0 == child then [] else [held[0]]) + Without(held[1..], child)
  }

  function OfEpoch(held: seq<(Child, Held)>, epoch: nat): seq<(Child, Held)> {
    if held == [] then []
    else (if held[0].1.epoch == epoch then [held[0]] else []) + OfEpoch(held[1..], epoch)
  }

  function Find(held: seq<(Child, Held)>, child: Child): Option<nat> {
    if held == [] then None
    else if held[0].0 == child then Some(0)
    else match Find(held[1..], child)
      case None => None
      case Some(i) => Some(i + 1)
  }

  function HoldTranscript(s: State): State {
    if s.shown.loading || s.shown.transcript.upTo.None? then s
    else
      var held := Held(s.epoch, s.shown.transcript, s.shown.limit);
      match s.screen.child
      case Some(child) => s.(heldChildren := Evict(Without(s.heldChildren, child) + [(child, held)]))
      case None =>
        if s.screen.selected.Some? then s.(heldParent := Some((s.screen.selected.value, held))) else s
  }

  /** Only from this connection, and only for that exact owner. */
  function TakeHeld(s: State, target: Option<Child>): (State, Option<Held>) {
    var kept := OfEpoch(s.heldChildren, s.epoch);
    match target
    case Some(child) =>
      (match Find(kept, child)
       case None => (s.(heldChildren := kept), None)
       case Some(i) =>
         if i < |kept| then (s.(heldChildren := kept[..i] + kept[i + 1..]), Some(kept[i].1)) else (s, None))
    case None =>
      var found :=
        if s.heldParent.Some? && s.screen.selected == Some(s.heldParent.value.0)
           && s.heldParent.value.1.epoch == s.epoch
        then Some(s.heldParent.value.1) else None;
      (s.(heldChildren := kept, heldParent := None), found)
  }

  /** Entering `target`, or leaving a child for its parent, with what was held for it. */
  function Entered(s: State, target: Option<Child>): State {
    var (t, held) := TakeHeld(s, target);
    var limit :=
      if target.Some? then t.shown.limit else if held.Some? then held.value.limit else PAGE;
    t.(screen := t.screen.(selection := t.screen.selection + 1, child := target),
       reading := t.reading.(pending := false, buffered := [], bytes := 0),
       shown := Shown(held.None?, if held.Some? then held.value.transcript else EMPTY, limit),
       childPending := false, childSeen := None,
       history := t.history.(base := None, adopted := None, forgot := false, heard := None))
  }

  predicate Settled(s: State) {
    !s.shown.loading && s.shown.transcript.upTo.Some?
  }

  /** Bookkeeping: the settled screen being left. */
  function Noted(s: State): State {
    if !Settled(s) || s.screen.selected.None? then s
    else
      var owner := Owner(s.screen.selected.value, s.screen.child);
      s.(history := s.history.(last := s.history.last[owner := Held(s.epoch, s.shown.transcript, s.shown.limit)]))
  }

  function ShowChild(s: State, target: Option<Child>): State {
    if target == s.screen.child then s
    else if target.Some? && s.screen.selected != Some(target.value.parent) && target.value.parent !in s.sessions then s
    else
      var h := HoldTranscript(Noted(s));
      var p := if target.Some? && h.screen.selected != Some(target.value.parent)
               then SelectScreen(h, Some(target.value.parent)) else h;
      Fetch(Entered(p, target))
  }

  // ---- events ------------------------------------------------------------

  function Connected(s: State): State {
    var c := s.(epoch := s.epoch + 1, connected := true, reading := s.reading.(pending := false));
    var p := SelectScreen(c, s.screen.selected);
    if s.screen.child.Some? then ShowChild(p, s.screen.child) else p
  }

  function Disconnected(s: State): State {
    s.(epoch := s.epoch + 1, connected := false, shown := s.shown.(loading := false))
  }

  /** `conversation_event`, for a delta of the selected conversation. */
  function OnDelta(s: State, d: Delta, size: nat): State {
    if d.ready then
      if s.reading.pending then s.(reading := s.reading.(resync := true)) else FetchConversation(s)
    else if s.reading.pending then
      if d.reset then
        s.(reading := s.reading.(buffered := [], resync := true, resetPending := true),
           history := s.history.(resets := s.history.resets + 1))
      else
        var noted := s.(history := s.history.(since := s.history.since + [d], after := s.history.after + [d]));
        if s.reading.resetPending then noted
        else
          var live := if s.shown.loading then noted
                      else noted.(shown := s.shown.(transcript := Apply(s.shown.transcript, d).0));
          live.(reading := Behind(s.reading, d, size))
    else if d.reset then FetchConversation(ResetSeen(s))
    else if Apply(s.shown.transcript, d).1 == Gap then FetchConversation(Live(s, d))
    else Live(s, d)
  }

  function ResetSeen(s: State): State {
    s.(shown := s.shown.(loading := true), history := s.history.(resets := s.history.resets + 1))
  }

  function Live(s: State, d: Delta): State {
    s.(shown := s.shown.(transcript := Apply(s.shown.transcript, d).0),
       history := s.history.(since := s.history.since + [d], after := s.history.after + [d]))
  }

  /** A delta joins the backlog of the read in flight; a backlog out of bounds is given up for
      another read. */
  function Behind(r: Reading, d: Delta, size: nat): Reading {
    if r.resync then r
    else
      var buffered, bytes := Buffer(r.buffered, d), r.bytes + size;
      if |buffered| > MAX_BUFFERED || bytes > MAX_BUFFERED_BYTES
      then r.(buffered := [], bytes := bytes, resync := true)
      else r.(buffered := buffered, bytes := bytes)
  }

  /** The reply to a read asked for when `asked` resets had been processed. */
  function OnConversation(s: State, asked: nat, reply: Reply): State {
    match reply
    case Failed => Refused(s)
    case Ok(snapshot) =>
      if s.reading.resync then FetchConversation(Again(s))
      else if Replay(FromSnapshot(snapshot), s.reading.buffered).1 then FetchConversation(Adopted(s, asked, snapshot))
      else Adopted(s, asked, snapshot)
  }

  /** Nothing is asked again, whatever was processed behind the read. */
  function Refused(s: State): State {
    s.(reading := s.reading.(pending := false), shown := s.shown.(loading := false),
       history := s.history.(base := None, forgot := s.history.adopted != Some(s.history.resets)))
  }

  /** Only a reset hides the live transcript while it is read again. */
  function Again(s: State): State {
    s.(reading := s.reading.(pending := false), shown := s.shown.(loading := s.reading.resetPending))
  }

  function Adopted(s: State, asked: nat, snapshot: Snapshot): State {
    s.(reading := s.reading.(pending := false, buffered := []),
       shown := s.shown.(loading := false, transcript := Replay(FromSnapshot(snapshot), s.reading.buffered).0),
       history := s.history.(base := Some(snapshot), after := s.history.since, adopted := Some(asked), forgot := false))
  }

  function OnChild(s: State, reply: Reply): State {
    var r := s.(childPending := false, shown := s.shown.(loading := false));
    if s.screen.child.None? then r
    else match reply
      case Failed => r
      case Ok(snapshot) =>
        var seen := Some((snapshot.upTo, |snapshot.items|));
        var h := r.(history := r.history.(heard := Some(snapshot)));
        if seen == s.childSeen && !s.shown.loading then h
        else h.(childSeen := seen, shown := r.shown.(transcript := FromSnapshot(snapshot)))
  }

  /** The fence: a reply asked for on another connection or another selection is dropped. */
  predicate Current(s: State, job: Job) {
    job.epoch == s.epoch && job.selection == s.screen.selection
  }

  function OnReply(s: State, id: nat, reply: Reply): State
    requires id in s.jobs
  {
    var job := s.jobs[id];
    var r := s.(jobs := s.jobs - {id});
    if !Current(s, job) then r
    else if job.ReadConversation? then OnConversation(r, job.resets, reply) else OnChild(r, reply)
  }

  predicate Enabled(s: State, step: Step) {
    match step
    case Receive(_, _) => s.connected && s.screen.child.None? && s.screen.selected.Some?
    case Complete(job, _) => job in s.jobs
    case _ => true
  }

  function Next(s: State, step: Step): State
    requires Enabled(s, step)
  {
    match step
    case Connect => Connected(s)
    case Disconnect => Disconnected(s)
    case Fleet(sessions) => s.(sessions := sessions)
    case Select(id) => SelectScreen(s, id)
    case ViewChild(target) => ShowChild(s, target)
    case Poll => Fetch(s)
    case Refresh =>
      Fetch(s.(shown := s.shown.(loading := s.connected && s.screen.selected.Some?)))
    case LoadOlder(hasOlder) =>
      if hasOlder && !s.reading.pending then
        FetchConversation(s.(shown := s.shown.(limit := s.shown.limit + PAGE)))
      else s
    case Receive(delta, size) => OnDelta(s, delta, size)
    case Complete(job, reply) => OnReply(s, job, reply)
  }

  function Exec(steps: seq<Step>): Option<State> {
    if steps == [] then Some(Init())
    else
      var last := steps[|steps| - 1];
      match Exec(steps[..|steps| - 1])
      case None => None
      case Some(before) => if Enabled(before, last) then Some(Next(before, last)) else None
  }
}
