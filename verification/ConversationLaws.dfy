/** What each command, event and reply does to the screen, one at a time, and over every run whose
    rows it may show (controller.rs). */
module ConversationLaws {
  import opened Wrappers
  import opened Transcripts
  import opened Conversation
  import opened ConversationProof
  import opened ConversationPromises

  // ---- whose rows --------------------------------------------------------

  /** The rows are what their owner last showed, settled, on this connection; or there are none. */
  predicate OwnRows(s: State) {
    s.shown.transcript == EMPTY ||
    (s.screen.selected.Some? &&
     var owner := Owner(s.screen.selected.value, s.screen.child);
     owner in s.history.last && s.history.last[owner].epoch == s.epoch &&
     s.history.last[owner].transcript == s.shown.transcript)
  }

  /** Selecting again what is selected keeps its rows and window; selecting anything else, or leaving a
      child so, starts empty with the first window; and it is loading until there is something to show. */
  lemma SelectKeepsOnlyItsOwn(s: State, id: Option<Session>)
    ensures var t := Next(s, Step.Select(id));
      var same := id.Some? && id == s.screen.selected && s.screen.child.None?;
      && t.screen.selected == id && t.screen.child.None? && t.screen.selection == s.screen.selection + 1
      && t.shown.transcript == (if same then s.shown.transcript else EMPTY)
      && t.shown.limit == (if same then s.shown.limit else 200)
      && (t.shown.loading <==> id.Some? && forall item :: item in t.shown.transcript.items ==> !item.shown)
  {
    var t := Selected(s, id);
    if Blank(t.shown.transcript) {
      forall item | item in t.shown.transcript.items ensures !item.shown {}
    }
  }

  lemma ShowMoves(s: State, target: Option<Child>)
    requires ShowChild(s, target) != s
    ensures var t := ShowChild(s, target);
      && t.screen.child == target && target != s.screen.child
      && t.screen.selected == if target.Some? then Some(target.value.parent) else s.screen.selected
  {
    hide Evict, Without, OfEpoch, Find;
  }

  lemma NobodysRows(s: State)
    requires s.screen.selected.None? && ShowChild(s, None) != s
    ensures ShowChild(s, None).shown.transcript == EMPTY
  {
    hide Evict, Without, OfEpoch, Find;
  }

  lemma ShowCarries(s: State, target: Option<Child>)
    requires Inv(s) && ShowChild(s, target) != s
    ensures OwnRows(ShowChild(s, target))
  {
    hide ShowChild, Inv;
    ShowMoves(s, target);
    if target.None? && s.screen.selected.None? {
      NobodysRows(s);
    } else {
      EnterShows(s, target);
    }
  }

  lemma ConnectCarries(s: State)
    requires Inv(s) && s.screen.child.Some?
    ensures OwnRows(Connected(s))
  {
    hide ShowChild, Inv, OwnRows;
    var c := s.(epoch := s.epoch + 1, connected := true, reading := s.reading.(pending := false));
    var p := SelectScreen(c, s.screen.selected);
    ConnectedStable(s);
    SelectKeeps(c, s.screen.selected);
    SelectKeepsOnlyItsOwn(c, s.screen.selected);
    assert OwnRows(p) by { EmptyIsOwn(p); }
    if ShowChild(p, s.screen.child) != p { ShowCarries(p, s.screen.child); }
  }

  lemma EmptyIsOwn(s: State)
    requires s.shown.transcript == EMPTY
    ensures OwnRows(s)
  {
  }

  lemma ConnectedStable(s: State)
    requires Inv(s)
    ensures Stable(s.(epoch := s.epoch + 1, connected := true, reading := s.reading.(pending := false)))
  {
    hide FewHeld, Replay, Stands;
  }

  /** In every run, when the screen comes to show another session or child it shows that one's own rows, or
      none: nothing is carried over from what was shown before. */
  lemma {:induction false} NoRowsCarryOver(steps: seq<Step>, step: Step)
    requires Exec(steps).Some? && Enabled(Exec(steps).value, step)
    requires var s, t := Exec(steps).value, Next(Exec(steps).value, step);
      s.screen.selected != t.screen.selected || s.screen.child != t.screen.child
    ensures OwnRows(Next(Exec(steps).value, step))
  {
    hide Exec, Inv, ShowChild, SelectScreen, Fetch, FetchConversation, OnDelta, OnReply, OwnRows;
    var s := Exec(steps).value;
    RunKeeps(steps);
    match step
    case Select(id) =>
      SelectKeepsOnlyItsOwn(s, id);
      EmptyIsOwn(Next(s, step));
    case ViewChild(target) => ShowCarries(s, target);
    case Connect =>
      if s.screen.child.Some? { ConnectCarries(s); } else { SelectKeepsOnlyItsOwn(Reached(s), s.screen.selected); }
    case _ => OwnerStays(s, step);
  }

  function Reached(s: State): State {
    s.(epoch := s.epoch + 1, connected := true, reading := s.reading.(pending := false))
  }

  /** Only selecting, viewing a child and a new connection change whose rows are on screen. */
  lemma OwnerStays(s: State, step: Step)
    requires Enabled(s, step) && !step.Select? && !step.ViewChild? && !step.Connect?
    ensures Next(s, step).screen == s.screen
  {
    hide Replay, Apply, Behind;
  }

  // ---- what is asked for -------------------------------------------------

  /** What the screen shows is being read. */
  predicate Awaited(s: State) {
    s.connected && s.screen.selected.Some? ==> if s.screen.child.Some? then s.childPending else s.reading.pending
  }

  lemma HoldLeaves(s: State)
    ensures var h := HoldTranscript(Noted(s));
      h == s.(heldChildren := h.heldChildren, heldParent := h.heldParent, history := h.history)
  {
    hide Evict, Without;
  }

  lemma EnteredReads(s: State, target: Option<Child>)
    ensures var t := Fetch(Entered(s, target));
      && Awaited(t) && t.connected == s.connected && t.epoch == s.epoch
      && t.screen.selected == s.screen.selected && t.screen.child == target
  {
    hide TakeHeld;
    TakenScreen(s, target);
  }

  lemma SelectReads(s: State, id: Option<Session>)
    ensures var t := SelectScreen(s, id);
      && Awaited(t) && t.connected == s.connected && t.epoch == s.epoch
      && t.screen == Screen(s.screen.selection + 1, id, None)
  {
  }

  lemma ShowReads(s: State, target: Option<Child>)
    ensures var t := ShowChild(s, target);
      && t.connected == s.connected && t.epoch == s.epoch
      && (t != s ==> Awaited(t) && (target.None? ==> t.screen.selected == s.screen.selected))
      && (target.Some? && s.screen.selected == Some(target.value.parent) ==> t.screen.selected == s.screen.selected)
      && (target.Some? && s.screen.selected == Some(target.value.parent) ==> t.screen.child == target)
  {
    hide HoldTranscript, Noted, Entered, Fetch, SelectScreen;
    var h := HoldTranscript(Noted(s));
    HoldLeaves(s);
    if target.Some? { SelectReads(h, Some(target.value.parent)); }
    var p := if target.Some? && h.screen.selected != Some(target.value.parent)
             then SelectScreen(h, Some(target.value.parent)) else h;
    EnteredReads(p, target);
  }

  lemma FetchReads(s: State)
    ensures Awaited(Fetch(s)) && Fetch(s).shown == s.shown && Fetch(s).screen == s.screen
    ensures s.screen.child.None? ==> Awaited(FetchConversation(s))
  {
  }

  /** A poll, a refresh, a selection, a child come to, a new connection, a ready, a reset and a gap each leave
      what is on screen being read; a refresh says so, and older rows are asked for 200 more at a time. */
  lemma CommandsRead(s: State, step: Step)
    requires Enabled(s, step)
    requires step in {Poll, Refresh, Connect} || step.Select? || (step.ViewChild? && Next(s, step) != s) ||
      (step.Receive? && (step.delta.ready || step.delta.reset || Apply(s.shown.transcript, step.delta).1 == Gap))
    ensures Awaited(Next(s, step))
    ensures step == Refresh && s.connected && s.screen.selected.Some? ==> Next(s, step).shown.loading
  {
    hide Fetch, FetchConversation, SelectScreen, ShowChild, Apply;
    match step
    case Poll => FetchReads(s);
    case Refresh => FetchReads(s.(shown := s.shown.(loading := s.connected && s.screen.selected.Some?)));
    case Connect => ConnectReads(s);
    case Select(id) => SelectReads(s, id);
    case ViewChild(target) => ShowReads(s, target);
    case Receive(d, size) =>
      if !s.reading.pending {
        FetchReads(s);
        FetchReads(ResetSeen(s));
        FetchReads(Live(s, d));
      }
  }

  lemma ConnectReads(s: State)
    ensures var t := Connected(s);
      && Awaited(t) && t.connected && t.epoch == s.epoch + 1
      && (s.screen.child.None? || s.screen.selected == Some(s.screen.child.value.parent) ==>
            t.screen.selected == s.screen.selected && t.screen.child == s.screen.child)
  {
    hide SelectScreen, ShowChild, Awaited;
    var c := Reached(s);
    SelectReads(c, s.screen.selected);
    var p := SelectScreen(c, s.screen.selected);
    if s.screen.child.Some? { ShowReads(p, s.screen.child); }
  }

  lemma OlderAsksForMore(s: State, hasOlder: bool)
    ensures var t := Next(s, LoadOlder(hasOlder));
      if hasOlder && !s.reading.pending then
        && t.shown == s.shown.(limit := s.shown.limit + 200)
        && (s.screen.child.None? ==> Awaited(t))
      else t == s
  {
  }

  /** A child is refused only when it is on screen already, or its parent is neither selected nor known. */
  lemma ViewChildIsRefusedIff(s: State, target: Option<Child>)
    ensures ShowChild(s, target) == s <==>
      target == s.screen.child ||
      (target.Some? && s.screen.selected != Some(target.value.parent) && target.value.parent !in s.sessions)
  {
    hide Evict, Without, OfEpoch, Find, Fetch, SelectScreen;
    if !(target == s.screen.child ||
         (target.Some? && s.screen.selected != Some(target.value.parent) && target.value.parent !in s.sessions)) {
      ShowEnters(s, target);
    }
  }

  lemma ShowEnters(s: State, target: Option<Child>)
    requires target != s.screen.child
    requires target.Some? ==> s.screen.selected == Some(target.value.parent) || target.value.parent in s.sessions
    ensures ShowChild(s, target).screen.child == target
  {
    hide Evict, Without, OfEpoch, Find, SelectScreen;
  }

  // ---- what is shown at once ---------------------------------------------

  /** A delta that follows what a settled screen shows is shown at once, behind a read too, unless a reset
      waits behind that read. */
  lemma DeltaIsShownAtOnce(s: State, d: Delta, size: nat)
    requires Enabled(s, Receive(d, size)) && Plain(d) && Apply(s.shown.transcript, d).1 != Gap
    requires s.reading.pending ==> !s.shown.loading && !s.reading.resetPending
    ensures Next(s, Receive(d, size)).shown.transcript == Apply(s.shown.transcript, d).0
  {
    hide Behind;
  }

  /** A reset seen with no read in flight, or a reset behind one when its read is adopted no more, is said:
      the screen is loading until it is read. */
  lemma ResetIsSaid(s: State, d: Delta, size: nat)
    requires Enabled(s, Receive(d, size)) && d.reset && !d.ready
    ensures !s.reading.pending ==> Next(s, Receive(d, size)).shown.loading
    ensures s.reading.pending ==> Next(s, Receive(d, size)).reading.resetPending
  {
  }

  /** A lost connection leaves the rows on screen, loading nothing; a new one reads again what was on screen,
      the child included. */
  lemma ConnectionsKeepTheScreen(s: State)
    ensures var t := Next(s, Disconnect);
      && !t.connected && t.epoch == s.epoch + 1 && !t.shown.loading && t.screen == s.screen
      && t.shown.transcript == s.shown.transcript && t.shown.limit == s.shown.limit
    ensures var t := Next(s, Connect);
      && t.connected && t.epoch == s.epoch + 1
      && (s.screen.child.None? || s.screen.selected == Some(s.screen.child.value.parent) ==>
            t.screen.selected == s.screen.selected && t.screen.child == s.screen.child)
      && (s.screen.child.None? && s.screen.selected.Some? ==> t.shown.transcript == s.shown.transcript)
  {
    hide SelectScreen, ShowChild;
    ConnectReads(s);
    SelectKeepsOnlyItsOwn(Reached(s), s.screen.selected);
  }

  /** Behind a read deltas wait, up to 64 of them and 2 MiB; one too many gives the backlog up for another read. */
  lemma BacklogIsKeptWithinBounds(s: State, d: Delta, size: nat)
    requires Enabled(s, Receive(d, size)) && Plain(d)
    requires s.reading.pending && !s.reading.resync && !s.reading.resetPending
    ensures var r, more := Next(s, Receive(d, size)).reading, Buffer(s.reading.buffered, d);
      if |more| <= 64 && s.reading.bytes + size <= 2_097_152 then
        r.buffered == more && r.bytes == s.reading.bytes + size && !r.resync
      else r.buffered == [] && r.resync
  {
  }

  /** A child's reply replaces its rows, unless it has as many up to the same item as were shown already. */
  lemma ChildReplyIsShown(s: State, id: nat, snapshot: Snapshot)
    requires id in s.jobs && Current(s, s.jobs[id]) && s.jobs[id].ReadChild? && s.screen.child.Some?
    ensures var t := Next(s, Complete(id, Ok(snapshot)));
      && !t.childPending && !t.shown.loading
      && t.shown.transcript == (if s.childSeen == Some((snapshot.upTo, |snapshot.items|)) && !s.shown.loading
                                then s.shown.transcript else Transcript(Some(snapshot.upTo), snapshot.items))
    ensures var t := Next(s, Complete(id, Failed));
      !t.childPending && !t.shown.loading && t.shown.transcript == s.shown.transcript
  {
  }
}
