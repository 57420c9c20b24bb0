/** The panel that follows a task's log. */
module TaskPanel {
  import opened Wrappers
  import opened TaskLog
  import opened TaskFollow
  import opened TaskServer

  // How reads are issued and applied (ui/tasks.rs), through the controller's one slot for them
  // (controller.rs), against a daemon that answers from the file as it is then and says `reset` when it
  // finds the file shorter than the position asked (session/background_tasks.rs of claudemon).

  /** A request as the panel sent it. A slot is loading until it is done; a read that failed leaves none. */
  datatype Slot = Slot(number: nat, offset: Option<nat>, read: Option<Delivery>, done: bool)

  /** `files`: the successive files, the last one on disk. `slot`: the controller's; `view`: the
      panel's copy of it. `ended`: the task ended, and writes no more. `held`, `ds`, `mixed` are
      bookkeeping: the file the log was last taken from, what was applied to the log, and whether an
      answer went where it did not belong. */
  datatype Panel = Panel(
    session: string, task: string, source: string, files: seq<Text>, ended: bool,
    log: Option<State>, sent: seq<Option<nat>>, number: nat, slot: Option<Slot>, view: Option<Slot>, applied: nat,
    held: nat, ds: seq<Delivery>, mixed: bool)

  datatype Step =
    | Grow(more: Text)
    | Rewrite(file: Text)
    | End
    | Open
    | Close
    | Poll
    | Take
    | TakeOther
    | Read(max: nat, status: string, process: Option<Process>, decoded: Text, upTo: nat)
    | Arrive
    | Lose
    | Render
    | Sync

  function Init(session: string, task: string, source: string, file: Text): Panel {
    Panel(session, task, source, [file], false, None, [], 0, None, None, 0, 0, [], false)
  }

  function Fresh(p: Panel): State {
    New(p.session, p.task, p.source)
  }

  function Disk(p: Panel): Text
    requires p.files != []
  {
    p.files[|p.files| - 1]
  }

  // ---- the daemon --------------------------------------------------------

  /** The tail is asked for, or the position is past the end: `reset` tells the second. */
  predicate FromTheTail(file: Text, offset: Option<nat>) {
    offset.None? || offset.value > |file|
  }

  function Start(file: Text, offset: Option<nat>, max: nat): (start: nat)
    ensures start <= |file|
  {
    if FromTheTail(file, offset) then NextBoundary(file, if |file| < max then 0 else |file| - max) else offset.value
  }

  /** `read_output`: whole characters from the start. From inside a character, a position only a
      former file can have given, the bytes are decoded as they come (`decoded`, `upTo`). */
  function Output(
      log: State, file: Text, offset: Option<nat>, max: nat, progress: Progress, decoded: Text, upTo: nat): Reply
  {
    var start := Start(file, offset, max);
    var end := if FromTheTail(file, offset) then |file|
               else LastBoundary(file, if start + max < |file| then start + max else |file|);
    var exact := Boundary(file, start) && start <= end;
    var next := if exact then end else upTo;
    Reply(Some(log.task), Some(log.session), Some(log.source), Some(start), Some(next),
          Some(if exact then Slice(file, start, end) else decoded),
          Some(offset.Some? && offset.value > |file|), Some(|file|), Some(!progress.running && next >= |file|),
          Some(progress.running), Some(progress.status), progress.process)
  }

  // ---- steps -------------------------------------------------------------

  /** The panel's copy holds an answer it has not folded in. */
  predicate News(p: Panel) {
    p.view.Some? && p.view.value.done && p.view.value.number > p.applied
  }

  predicate Enabled(p: Panel, step: Step) {
    match step
    case Grow(_) => !p.ended
    case Rewrite(_) => !p.ended
    case Poll => p.log.Some? && !p.log.value.done
    case Take => p.sent != []
    case Read(max, _, _, _, upTo) => max >= 1 && p.slot.Some? && p.slot.value.read.None? && !p.slot.value.done
    case Arrive => p.slot.Some? && p.slot.value.read.Some?
    case Lose => p.slot.Some? && !p.slot.value.done
    case Sync => News(p)
    case _ => true
  }

  /** The answer goes on where the log ends, but was read from another file than the log holds, or
      from inside a character. */
  predicate Mixes(p: Panel, log: State, d: Delivery) {
    || (Continues(log, d.reply) && d.file != p.held)
    || (!Foreign(log, d.reply) && d.file < |p.files| && d.reply.offset.value <= |p.files[d.file]|
        && !Boundary(p.files[d.file], d.reply.offset.value))
  }

  function Folded(p: Panel, log: State, d: Delivery): Panel {
    p.(log := Some(Applied(log, d.reply)), ds := p.ds + [d], mixed := p.mixed || Mixes(p, log, d),
       held := if Replaces(log, d.reply) || Continues(log, d.reply) then d.file else p.held)
  }

  function Next(p: Panel, step: Step): Panel
    requires p.files != [] && Enabled(p, step)
  {
    match step
    case Grow(more) =>
      ConcatUtf8(Disk(p), more);
      p.(files := p.files[|p.files| - 1 := Disk(p) + more])
    case Rewrite(file) => p.(files := p.files + [file])
    case End => p.(ended := true)
    case Open => p.(log := Some(Fresh(p)), ds := [], mixed := false)
    case Close => p.(log := None)
    case Poll => p.(sent := p.sent + [p.log.value.next])
    case Take =>
      p.(sent := p.sent[1..], number := p.number + 1, slot := Some(Slot(p.number + 1, p.sent[0], None, false)))
    case TakeOther => p.(number := p.number + 1, slot := None)
    case Read(max, status, process, decoded, upTo) =>
      var slot := p.slot.value;
      var reply := Output(Fresh(p), Disk(p), slot.offset, max, Progress(!p.ended, status, process), decoded, upTo);
      p.(slot := Some(slot.(read := Some(Delivery(reply, |p.files| - 1)))))
    case Arrive => p.(slot := Some(p.slot.value.(done := true)))
    case Lose => p.(slot := Some(p.slot.value.(read := None, done := true)))
    case Render => p.(view := p.slot)
    case Sync =>
      var seen := p.(applied := p.view.value.number);
      if p.log.Some? && p.view.value.read.Some? then Folded(seen, p.log.value, p.view.value.read.value) else seen
  }

  // ---- the invariant -----------------------------------------------------

  predicate Known(p: Panel, d: Delivery) {
    && d.file < |p.files| && !Foreign(Fresh(p), d.reply)
    && d.reply.offset.value <= |p.files[d.file]|
    && (Boundary(p.files[d.file], d.reply.offset.value) ==>
          ReadFrom(d.reply, p.files[d.file]) && (d.reply.done == Some(true) ==> LastWord(p, d.file, d.reply.next)))
  }

  /** The task ended, and `next` is the end of the last file it wrote. */
  predicate LastWord(p: Panel, file: nat, next: Option<nat>) {
    p.ended && file == |p.files| - 1 && next == Some(|p.files[file]|)
  }

  /** A slot's number is known, and an answer not yet folded in is of no earlier file than the log's. */
  predicate SlotInv(p: Panel, o: Option<Slot>) {
    o.Some? ==>
      && o.value.number <= p.number
      && (o.value.read.Some? ==>
            && Known(p, o.value.read.value)
            && (o.value.number > p.applied ==> p.held <= o.value.read.value.file))
  }

  /** Of two answers the one with the higher number was read later: a request is taken only once the
      former is answered or superseded. */
  predicate OrderInv(p: Panel) {
    p.view.Some? && p.slot.Some? ==>
      && p.view.value.number <= p.slot.value.number
      && (p.view.value.number < p.slot.value.number && p.view.value.read.Some? && p.slot.value.read.Some? ==>
            p.view.value.read.value.file <= p.slot.value.read.value.file)
  }

  /** What was folded in, in order: while nothing mixed, each answer was of the file held. */
  predicate LogInv(p: Panel) {
    p.log.Some? ==>
      && p.log.value == Fold(Fresh(p), Replies(p.ds))
      && p.log.value.task == p.task && p.log.value.session == p.session && p.log.value.source == p.source
      && (!p.mixed ==> Orderly(Fresh(p), 0, p.files, p.ds))
      && (!p.mixed && p.log.value.next.Some? ==> HeldAfter(Fresh(p), 0, p.ds) == p.held)
      && (!p.mixed && p.log.value.done ==> p.held < |p.files| && LastWord(p, p.held, p.log.value.next))
  }

  predicate Inv(p: Panel) {
    && p.held < |p.files| && p.applied <= p.number
    && SlotInv(p, p.slot) && SlotInv(p, p.view) && OrderInv(p) && LogInv(p)
    && (p.slot.Some? ==> p.slot.value.number == p.number)
  }

  // ---- every step --------------------------------------------------------

  lemma KnownGrows(p: Panel, q: Panel, d: Delivery)
    requires Known(p, d) && Grown(p.files, q.files)
    requires q.task == p.task && q.session == p.session && q.source == p.source
    requires q.ended == p.ended && (p.ended ==> q.files == p.files)
    ensures Known(q, d)
  {
    hide ReadFrom, Utf8;
    var file, later := p.files[d.file], q.files[d.file];
    BoundaryKept(file, later, d.reply.offset.value);
    if Boundary(file, d.reply.offset.value) { ReadFromGrows(d.reply, file, later); }
  }

  lemma BoundaryKept(file: Text, later: Text, i: nat)
    requires file <= later && i <= |file|
    ensures Boundary(later, i) <==> Boundary(file, i)
  {
    if Boundary(file, i) { BoundaryGrows(file, later, i); }
  }

  lemma SlotGrows(p: Panel, q: Panel, o: Option<Slot>)
    requires SlotInv(p, o) && Grown(p.files, q.files)
    requires q.task == p.task && q.session == p.session && q.source == p.source
    requires q.ended == p.ended && (p.ended ==> q.files == p.files)
    requires q.number >= p.number && q.held == p.held && q.applied == p.applied
    ensures SlotInv(q, o)
  {
    hide Known;
    if o.Some? && o.value.read.Some? { KnownGrows(p, q, o.value.read.value); }
  }

  lemma DiskKeeps(p: Panel, q: Panel)
    requires Inv(p) && Grown(p.files, q.files) && q == p.(files := q.files) && !p.ended
    ensures Inv(q)
  {
    hide Known, Orderly, Fold, HeldAfter, Grown;
    SlotGrows(p, q, p.slot);
    SlotGrows(p, q, p.view);
    if p.log.Some? && !p.mixed { OrderlyGrows(Fresh(p), 0, p.files, q.files, p.ds); }
    assert Grown(p.files, q.files) ==> |p.files| <= |q.files| by { ShortGrown(p.files, q.files); }
  }

  lemma ShortGrown(files: seq<Text>, later: seq<Text>)
    ensures Grown(files, later) ==> |files| <= |later|
  {
  }

  /** What the daemon reads now is known of the file on disk. */
  lemma OutputKnown(p: Panel, offset: Option<nat>, max: nat, progress: Progress, decoded: Text, upTo: nat)
    requires p.files != [] && max >= 1 && progress.running == !p.ended
    ensures Known(p, Delivery(Output(Fresh(p), Disk(p), offset, max, progress, decoded, upTo), |p.files| - 1))
  {
    hide Utf8;
    var file := Disk(p);
    var start := Start(file, offset, max);
    var end := if FromTheTail(file, offset) then |file|
               else LastBoundary(file, if start + max < |file| then start + max else |file|);
    if Boundary(file, start) {
      assert start <= end;
      var next := end;
    }
  }

  lemma KnownFile(p: Panel, d: Delivery)
    requires Known(p, d)
    ensures d.file < |p.files|
  {
    hide ReadFrom, Boundary, Foreign;
  }

  lemma SameLog(p: Panel, q: Panel)
    requires LogInv(p) && q.files == p.files && q.task == p.task && q.session == p.session && q.source == p.source
    requires q.ended == p.ended || q.ended
    requires q.log.None? || (q.log == p.log && q.ds == p.ds && q.mixed == p.mixed && q.held == p.held)
    ensures LogInv(q)
  {
    hide Orderly, Fold, HeldAfter;
  }

  lemma ReadKeeps(p: Panel, step: Step)
    requires Inv(p) && Enabled(p, step) && step.Read?
    ensures Inv(Next(p, step))
  {
    hide Output, Known, Orderly, Fold, HeldAfter;
    var progress := Progress(!p.ended, step.status, step.process);
    OutputKnown(p, p.slot.value.offset, step.max, progress, step.decoded, step.upTo);
    SameKnown(p, Next(p, step));
    SameLog(p, Next(p, step));
    if p.view.Some? && p.view.value.read.Some? { KnownFile(p, p.view.value.read.value); }
  }

  lemma SameKnown(p: Panel, q: Panel)
    requires q.files == p.files && q.task == p.task && q.session == p.session && q.source == p.source
    requires q.ended == p.ended || q.ended
    ensures forall d :: Known(p, d) ==> Known(q, d)
    ensures Fresh(q) == Fresh(p)
  {
    hide ReadFrom, Boundary;
  }

  lemma SyncKeeps(p: Panel)
    requires Inv(p) && Enabled(p, Sync)
    ensures Inv(Next(p, Sync))
  {
    hide Known, Orderly, Fold, HeldAfter, Applied, Mixes, Continues, Replaces;
    var q, seen := Next(p, Sync), p.(applied := p.view.value.number);
    SameKnown(p, q);
    SameKnown(p, seen);
    SameLog(p, seen);
    if p.log.Some? && p.view.value.read.Some? {
      KnownFile(p, p.view.value.read.value);
      FoldedKeeps(seen, p.log.value, p.view.value.read.value);
    }
  }

  /** Folding a known answer in keeps the account of what was folded in. */
  lemma FoldedKeeps(p: Panel, log: State, d: Delivery)
    requires LogInv(p) && p.held < |p.files| && p.log == Some(log) && Known(p, d)
    ensures LogInv(Folded(p, log, d))
  {
    hide ReadFrom, Boundary, Orderly, Fold, HeldAfter, Taken, Trimmed;
    FoldSnoc(Fresh(p), 0, p.ds, d);
    if !p.mixed && !Mixes(p, log, d) {
      OrderlySnoc(Fresh(p), 0, p.files, p.ds, d);
    }
  }

  lemma StepKeeps(p: Panel, step: Step)
    requires Inv(p) && Enabled(p, step)
    ensures Inv(Next(p, step))
  {
    hide Output, Known, Orderly, Fold, HeldAfter, Grown;
    match step
    case Grow(more) => DiskKeeps(p, Next(p, step)) by { GrownDisk(p.files, Next(p, step).files); }
    case Rewrite(file) => DiskKeeps(p, Next(p, step)) by { GrownDisk(p.files, Next(p, step).files); }
    case Read(_, _, _, _, _) => ReadKeeps(p, step);
    case End => EndKeeps(p);
    case Sync => SyncKeeps(p);
    case Open => OpenKeeps(p);
    case _ => SameKnown(p, Next(p, step)); SameLog(p, Next(p, step));
  }

  lemma EndKeeps(p: Panel)
    requires Inv(p)
    ensures Inv(Next(p, End))
  {
    hide Known, Orderly, Fold, HeldAfter;
    SameKnown(p, Next(p, End));
    SameLog(p, Next(p, End));
  }

  lemma OpenKeeps(p: Panel)
    requires Inv(p)
    ensures Inv(Next(p, Open))
  {
    hide Known;
    SameKnown(p, Next(p, Open));
  }

  lemma GrownDisk(files: seq<Text>, later: seq<Text>)
    requires |files| <= |later| && forall i :: 0 <= i < |files| ==> files[i] <= later[i]
    ensures Grown(files, later)
  {
  }

  // ---- every run ---------------------------------------------------------

  function Exec(start: Panel, steps: seq<Step>): Option<Panel> {
    if steps == [] then Some(start)
    else
      var last := steps[|steps| - 1];
      match Exec(start, steps[..|steps| - 1])
      case None => None
      case Some(before) => if before.files != [] && Enabled(before, last) then Some(Next(before, last)) else None
  }

  predicate Run(session: string, task: string, source: string, file: Text, steps: seq<Step>) {
    Exec(Init(session, task, source, file), steps).Some?
  }

  function Reached(session: string, task: string, source: string, file: Text, steps: seq<Step>): Panel
    requires Run(session, task, source, file, steps)
  {
    Exec(Init(session, task, source, file), steps).value
  }

  lemma {:induction false} RunKeeps(session: string, task: string, source: string, file: Text, steps: seq<Step>)
    requires Run(session, task, source, file, steps)
    ensures Inv(Reached(session, task, source, file, steps))
  {
    hide Next, Inv;
    var start := Init(session, task, source, file);
    if steps == [] {
      InitInv(session, task, source, file);
    } else {
      RunKeeps(session, task, source, file, steps[..|steps| - 1]);
      StepKeeps(Exec(start, steps[..|steps| - 1]).value, steps[|steps| - 1]);
    }
  }

  lemma InitInv(session: string, task: string, source: string, file: Text)
    ensures Inv(Init(session, task, source, file))
  {
  }

  // ---- what the panel may be trusted for ---------------------------------

  /** One read at a time, answers folded in by rising number: no late read of a former file is ever
      folded in, in any run. */
  lemma {:induction false} NoLateRead(session: string, task: string, source: string, file: Text, steps: seq<Step>)
    requires Run(session, task, source, file, steps)
    requires var p := Reached(session, task, source, file, steps); News(p) && p.view.value.read.Some?
    ensures var p := Reached(session, task, source, file, steps); p.held <= p.view.value.read.value.file < |p.files|
  {
    RunKeeps(session, task, source, file, steps);
  }

  /** Until an answer mixes two files, what was folded in is orderly, and the log is the tail of the
      file it was last taken from. */
  lemma {:induction false} PanelFollowsTheFile(
      session: string, task: string, source: string, file: Text, steps: seq<Step>)
    requires Run(session, task, source, file, steps)
    requires var p := Reached(session, task, source, file, steps); p.log.Some? && !p.mixed
    ensures var p := Reached(session, task, source, file, steps);
      && p.log.value == Fold(Fresh(p), Replies(p.ds)) && Orderly(Fresh(p), 0, p.files, p.ds)
      && p.held < |p.files| && Follows(p.log.value, p.files[p.held])
  {
    hide Orderly, Fold, Follows;
    RunKeeps(session, task, source, file, steps);
    var p := Reached(session, task, source, file, steps);
    NewFollows(p.session, p.task, p.source, p.files[0]);
    EveryRewriteIsFollowed(Fresh(p), 0, p.files, p.ds);
    if p.log.value.next.None? { NothingRead(p.log.value, p.files[HeldAfter(Fresh(p), 0, p.ds)], p.files[p.held]); }
  }

  lemma NothingRead(log: State, file: Text, other: Text)
    requires Follows(log, file) && log.next.None?
    ensures Follows(log, other)
  {
  }

  /** The panel stops reading only when nothing is left to read: a log that says done, unless two files were
      mixed in it, holds the whole end of the last file of a task that ended. */
  lemma {:induction false} DoneMeansRead(session: string, task: string, source: string, file: Text, steps: seq<Step>)
    requires Run(session, task, source, file, steps)
    requires var p := Reached(session, task, source, file, steps); p.log.Some? && !p.mixed && p.log.value.done
    ensures var p := Reached(session, task, source, file, steps);
      && p.ended && p.files != [] && p.log.value.next == Some(|Disk(p)|) && Follows(p.log.value, Disk(p))
  {
    hide Orderly, Fold, Follows;
    RunKeeps(session, task, source, file, steps);
    PanelFollowsTheFile(session, task, source, file, steps);
  }

  /** An answer that goes on where the log ends mixes exactly when the file was rewritten since and the
      daemon did not say so, having found it no shorter than the position asked; then the log follows
      the new file exactly when what is left of the old text is what the new file holds there. */
  lemma {:induction false} UnseenRewrite(session: string, task: string, source: string, file: Text, steps: seq<Step>)
    requires Run(session, task, source, file, steps)
    requires var p := Reached(session, task, source, file, steps); News(p) && p.view.value.read.Some? && p.log.Some?
    requires var p := Reached(session, task, source, file, steps);
      !p.mixed && Continues(p.log.value, p.view.value.read.value.reply)
    ensures var p := Reached(session, task, source, file, steps);
      Next(p, Sync).log == Some(Applied(p.log.value, p.view.value.read.value.reply)) &&
      MixesIff(p, p.log.value, p.view.value.read.value)
  {
    hide Orderly, Fold, Follows, Applied, MixesIff, Continues, Mixes, Replaces;
    RunKeeps(session, task, source, file, steps);
    PanelFollowsTheFile(session, task, source, file, steps);
    var p := Reached(session, task, source, file, steps);
    MixesWhen(p, p.log.value, p.view.value.read.value);
  }

  predicate MixesIff(p: Panel, log: State, d: Delivery) {
    && Continues(log, d.reply) && d.file < |p.files|
    && log.next.value <= |p.files[d.file]| && !Or(d.reply.reset, false)
    && (Mixes(p, log, d) <==> d.file > p.held)
    && var o, k := d.reply.offset.value, Left(log, d.reply);
    (ReadFrom(d.reply, p.files[d.file]) ==>
       && k <= o
       && (Follows(Applied(log, d.reply), p.files[d.file])
           <==> log.text[|log.text| - k..] == p.files[d.file][o - k..o]))
  }

  lemma MixesWhen(p: Panel, log: State, d: Delivery)
    requires Known(p, d) && p.held <= d.file && Continues(log, d.reply) && Follows(log, p.files[p.held])
    ensures MixesIff(p, log, d)
  {
    hide Applied, Left;
    if ReadFrom(d.reply, p.files[d.file]) {
      ContinuedLogFollowsIff(log, d.reply, p.files[p.held], p.files[d.file]);
    }
  }

  // ---- a rewrite nobody sees ---------------------------------------------

  const SHORT: Text := [97, 98]
  const LONGER: Text := [120, 121, 122]
  const LIVE: Progress := Progress(true, "", None)

  lemma {:induction false} ExecStep(start: Panel, steps: seq<Step>, p: Panel, step: Step)
    requires Exec(start, steps) == Some(p) && p.files != [] && Enabled(p, step)
    ensures Exec(start, steps + [step]) == Some(Next(p, step))
  {
    assert (steps + [step])[..|steps|] == steps;
  }

  lemma ExecNone(start: Panel)
    ensures Exec(start, []) == Some(start)
  {
  }

  /** A read asked, taken and served. */
  lemma {:induction false} Asked(start: Panel, steps: seq<Step>, p: Panel) returns (more: seq<Step>, q: Panel)
    requires Exec(start, steps) == Some(p) && p.files != [] && p.log.Some? && p.sent == []
    requires !p.log.value.done && !p.ended
    ensures Exec(start, more) == Some(q)
    ensures q == p.(number := p.number + 1, slot := q.slot) && q.slot.Some? && q.slot.value.number == q.number
    ensures q.slot.value.read ==
      Some(Delivery(Output(Fresh(p), Disk(p), p.log.value.next, 100, LIVE, [], 0), |p.files| - 1))
  {
    hide Output, Applied, Exec;
    var read := Read(100, "", None, [], 0);
    ExecStep(start, steps, p, Poll);
    ExecStep(start, steps + [Poll], Next(p, Poll), Take);
    var taken := Next(Next(p, Poll), Take);
    ExecStep(start, steps + [Poll] + [Take], taken, read);
    more, q := steps + [Poll] + [Take] + [read], Next(taken, read);
  }

  /** A read that was served reaches the panel and is folded in. */
  lemma {:induction false} Answered(start: Panel, steps: seq<Step>, p: Panel) returns (more: seq<Step>, q: Panel)
    requires Exec(start, steps) == Some(p) && p.files != [] && p.log.Some? && p.applied < p.number
    requires p.slot.Some? && p.slot.value.number == p.number && p.slot.value.read.Some?
    ensures Exec(start, more) == Some(q)
    ensures q.files == p.files && q.sent == p.sent && q.applied == q.number && Fresh(q) == Fresh(p)
    ensures q.ended == p.ended
    ensures q.log == Some(Applied(p.log.value, p.slot.value.read.value.reply))
  {
    hide Applied, Mixes, Continues, Replaces, Exec;
    ExecStep(start, steps, p, Arrive);
    ExecStep(start, steps + [Arrive], Next(p, Arrive), Render);
    var seen := Next(Next(p, Arrive), Render);
    ExecStep(start, steps + [Arrive] + [Render], seen, Sync);
    more, q := steps + [Arrive] + [Render] + [Sync], Next(seen, Sync);
  }

  /** A file rewritten to something longer between two reads: the log is of neither. */
  lemma {:induction false} RewriteGoesUnseen() returns (steps: seq<Step>)
    ensures Run("s", "t", "task", SHORT, steps)
    ensures var p := Reached("s", "t", "task", SHORT, steps);
      && p.files == [SHORT, LONGER] && p.log.Some? && p.log.value.text == [97, 98, 122]
      && !Follows(p.log.value, p.files[0]) && !Follows(p.log.value, p.files[1])
  {
    hide Utf8, Output, Applied, Exec, Follows;
    var start := Init("s", "t", "task", SHORT);
    ExecNone(start);
    ExecStep(start, [], start, Open);
    var p: Panel;
    steps, p := Asked(start, [] + [Open], Next(start, Open));
    steps, p := Answered(start, steps, p);
    FirstPart(Next(start, Open));
    ExecStep(start, steps, p, Rewrite(LONGER));
    p := Next(p, Rewrite(LONGER));
    SecondPart(p);
    steps, p := Asked(start, steps + [Rewrite(LONGER)], p);
    steps, p := Answered(start, steps, p);
  }

  lemma FirstPart(p: Panel)
    requires p.files == [SHORT] && p.log == Some(Fresh(p))
    ensures var log := Applied(Fresh(p), Output(Fresh(p), Disk(p), None, 100, LIVE, [], 0));
      log.text == [97, 98] && log.next == Some(2) && !log.truncated && !log.done
      && log.task == p.task && log.session == p.session && log.source == p.source
  {
    hide Utf8, Cut;
    var file := p.files[0];
    assert file[0..2] == file;
  }

  lemma SecondPart(p: Panel)
    requires p.files == [SHORT, LONGER] && p.log.Some?
    requires p.log.value.text == [97, 98] && p.log.value.next == Some(2) && !p.log.value.truncated
    requires p.log.value.task == p.task && p.log.value.session == p.session && p.log.value.source == p.source
    ensures var log := Applied(p.log.value, Output(Fresh(p), Disk(p), Some(2), 100, LIVE, [], 0));
      log.text == [97, 98, 122] && !Follows(log, p.files[0]) && !Follows(log, p.files[1])
  {
    hide Utf8, Cut;
    var file := p.files[1];
    assert file[2..3] == [122] && [97, 98] + [122] == [97, 98, 122];
    assert Start(file, Some(2), 100) == 2 && file[0..3][0] == 120;
  }

  // ---- one round ---------------------------------------------------------

  /** A request taken is for what was asked, under the next number; an answer goes to it, read from the file
      on disk; the panel then sees it and folds it in, once. */
  lemma RequestIsAnswered(p: Panel, max: nat, status: string, process: Option<Process>, decoded: Text, upTo: nat)
    requires p.files != [] && p.log.Some? && !p.log.value.done && p.sent == [] && max >= 1
    ensures Enabled(p, Poll)
    ensures var a := Next(Next(p, Poll), Take);
      && a == p.(number := p.number + 1, slot := Some(Slot(p.number + 1, p.log.value.next, None, false)))
      && Enabled(a, Read(max, status, process, decoded, upTo))
      && Enabled(Next(a, Read(max, status, process, decoded, upTo)), Arrive)
      && var t := Next(Next(a, Read(max, status, process, decoded, upTo)), Arrive);
      var reply := Output(Fresh(p), Disk(p), p.log.value.next, max, Progress(!p.ended, status, process), decoded, upTo);
      t == a.(slot := Some(Slot(a.number, p.log.value.next, Some(Delivery(reply, |p.files| - 1)), true)))
  {
    hide Output;
  }

  lemma AnswerIsFoldedIn(p: Panel, d: Delivery)
    requires p.files != [] && p.log.Some? && p.slot.Some? && p.slot.value.done && p.slot.value.read == Some(d)
    requires p.slot.value.number > p.applied
    ensures Enabled(Next(p, Render), Sync)
    ensures var t := Next(Next(p, Render), Sync);
      t.log == Some(Applied(p.log.value, d.reply)) && t.applied == p.slot.value.number && !Enabled(t, Sync)
  {
    hide Applied, Mixes, Replaces, Continues;
  }

  /** From rest one round of poll, request, read, answer and frame leaves the log with the answer to its own
      next position, read from the file on disk. */
  lemma OneRoundReadsOn(p: Panel, max: nat, status: string, process: Option<Process>, decoded: Text, upTo: nat)
    returns (steps: seq<Step>, t: Panel)
    requires Inv(p) && p.log.Some? && !p.log.value.done && p.sent == [] && max >= 1
    ensures steps == [Poll, Take, Read(max, status, process, decoded, upTo), Arrive, Render, Sync]
    ensures Exec(p, steps) == Some(t) && t.files == p.files && t.sent == [] && !Enabled(t, Sync)
    ensures t.log == Some(Applied(p.log.value,
      Output(Fresh(p), Disk(p), p.log.value.next, max, Progress(!p.ended, status, process), decoded, upTo)))
  {
    hide Output, Applied, Exec, Mixes, Replaces, Continues, Inv;
    assert p.files != [] && p.applied <= p.number by { AppliedBehind(p); }
    RequestIsAnswered(p, max, status, process, decoded, upTo);
    var read := Read(max, status, process, decoded, upTo);
    ExecNone(p);
    ExecStep(p, [], p, Poll);
    ExecStep(p, [] + [Poll], Next(p, Poll), Take);
    var a := Next(Next(p, Poll), Take);
    ExecStep(p, [] + [Poll] + [Take], a, read);
    ExecStep(p, [] + [Poll] + [Take] + [read], Next(a, read), Arrive);
    var b := Next(Next(a, read), Arrive);
    AnswerIsFoldedIn(b, b.slot.value.read.value);
    ExecStep(p, [] + [Poll] + [Take] + [read] + [Arrive], b, Render);
    ExecStep(p, [] + [Poll] + [Take] + [read] + [Arrive] + [Render], Next(b, Render), Sync);
    steps, t := [] + [Poll] + [Take] + [read] + [Arrive] + [Render] + [Sync], Next(Next(b, Render), Sync);
  }

  lemma AppliedBehind(p: Panel)
    requires Inv(p)
    ensures p.files != [] && p.applied <= p.number
  {
  }
}
