/** What a conversation keeps. */
module ConversationPromises {
  import opened Wrappers
  import opened Transcripts
  import opened Conversation
  import opened ConversationProof

  /** A reply is adopted only if it was asked for on this connection, for exactly the session or
      the child on screen. */
  lemma {:induction false} AdoptedReplyIsForTheScreen(steps: seq<Step>, id: nat)
    requires Exec(steps).Some? && id in Exec(steps).value.jobs
    requires Current(Exec(steps).value, Exec(steps).value.jobs[id])
    ensures var s := Exec(steps).value; s.jobs[id].epoch == s.epoch && OnScreen(s.screen, s.jobs[id])
  {
    RunKeeps(steps);
  }

  /** While connected each pending flag says exactly whether one current read is outstanding,
      however many stale ones still are. */
  lemma {:induction false} PendingMeansOneRead(steps: seq<Step>)
    requires Exec(steps).Some? && Exec(steps).value.connected
    ensures var s := Exec(steps).value;
      && |CurrentReads(s)| == (if s.reading.pending then 1 else 0)
      && |CurrentChildReads(s)| == (if s.childPending then 1 else 0)
  {
    RunKeeps(steps);
    One(CurrentReads(Exec(steps).value));
    One(CurrentChildReads(Exec(steps).value));
  }

  lemma One(ids: set<nat>)
    requires AtMostOne(ids)
    ensures |ids| == if ids == {} then 0 else 1
  {
    if ids != {} {
      var x :| x in ids;
      assert ids == {x};
    }
  }

  /** While a read is in flight, either another will follow it or the backlog stands for every plain
      delta received since it was asked for. */
  lemma {:induction false} BacklogStandsForEveryDelta(steps: seq<Step>)
    requires Exec(steps).Some? && Exec(steps).value.connected && Exec(steps).value.reading.pending
    ensures var s := Exec(steps).value; s.reading.resync || Stands(s.reading.buffered, s.history.since)
  {
    RunKeeps(steps);
  }

  /** A snapshot that is adopted, rather than read again, was asked for after the last reset. */
  lemma {:induction false} AdoptedSnapshotIsPastEveryReset(steps: seq<Step>, id: nat)
    requires Exec(steps).Some? && Exec(steps).value.connected && id in CurrentReads(Exec(steps).value)
    requires !Exec(steps).value.reading.resync
    ensures Exec(steps).value.jobs[id].resets == Exec(steps).value.history.resets
  {
    RunKeeps(steps);
  }

  /** A reset processed behind a read (`reset_pending`) is followed by another read unless the read
      failed, for nothing guards that branch. A failure forgets a reset exactly when one came
      behind the read, or the read was itself the one a reset or a new screen waited for. */
  lemma {:induction false} FailedReadForgetsTheReset(steps: seq<Step>, id: nat, reply: Reply)
    requires Exec(steps).Some? && Exec(steps).value.connected && id in CurrentReads(Exec(steps).value)
    ensures var s := Exec(steps).value;
      !OnReply(s, id, reply).reading.pending && s.jobs[id].resets < s.history.resets
      <==> reply.Failed? && s.reading.resetPending
    ensures var s := Exec(steps).value;
      reply.Failed? ==>
        (OnReply(s, id, reply).history.forgot
         <==> s.reading.resetPending || s.history.adopted != Some(s.jobs[id].resets))
  {
    RunKeeps(steps);
    ReplyForgets(Exec(steps).value, id, reply);
  }

  lemma ReplyForgets(s: State, id: nat, reply: Reply)
    requires Inv(s) && s.connected && id in CurrentReads(s)
    ensures !OnReply(s, id, reply).reading.pending && s.jobs[id].resets < s.history.resets
      <==> reply.Failed? && s.reading.resetPending
    ensures reply.Failed? ==>
      (OnReply(s, id, reply).history.forgot
       <==> s.reading.resetPending || s.history.adopted != Some(s.jobs[id].resets))
  {
    hide Replay, Stands, FewHeld;
  }

  /** A settled screen is past every reset processed if and only if no failure since its snapshot
      was adopted forgot one. */
  lemma {:induction false} SettledScreenIsPastEveryReset(steps: seq<Step>)
    requires Exec(steps).Some? && Exec(steps).value.connected && !Exec(steps).value.reading.pending
    requires Exec(steps).value.screen.child.None? && Exec(steps).value.screen.selected.Some?
    ensures var s := Exec(steps).value; s.history.adopted == Some(s.history.resets) <==> !s.history.forgot
  {
    RunKeeps(steps);
  }

  /** Between reads, after one that succeeded, nothing was lost: the rows are the snapshot and
      every later plain delta, folded in order without a gap, and no reset came since it was asked
      for. */
  lemma {:induction false} SettledTranscriptMissesNothing(steps: seq<Step>)
    requires Exec(steps).Some? && Exec(steps).value.connected && !Exec(steps).value.reading.pending
    requires Exec(steps).value.screen.child.None? && Exec(steps).value.history.base.Some?
    ensures var s := Exec(steps).value;
      && Replay(FromSnapshot(s.history.base.value), s.history.after) == (s.shown.transcript, false)
      && s.history.adopted == Some(s.history.resets)
  {
    RunKeeps(steps);
  }

  /** With an honest hub those rows are the session's own log, whole from the window to the cursor. */
  lemma {:induction false} SettledTranscriptIsTheLog(steps: seq<Step>, log: seq<Item>, from: nat)
    requires Exec(steps).Some? && Exec(steps).value.connected && !Exec(steps).value.reading.pending
    requires Exec(steps).value.screen.child.None? && Exec(steps).value.history.base.Some?
    requires var base := Exec(steps).value.history.base.value;
      from <= base.upTo <= |log| && base.items == log[from..base.upTo]
    requires forall i :: 0 <= i < |Exec(steps).value.history.after| ==> Honest(log, Exec(steps).value.history.after[i])
    ensures var s := Exec(steps).value;
      && s.shown.transcript.upTo.Some?
      && from <= s.shown.transcript.upTo.value <= |log|
      && s.shown.transcript.items == log[from..s.shown.transcript.upTo.value]
      && forall i :: 0 <= i < |s.history.after| ==> s.history.after[i].upTo <= s.shown.transcript.upTo.value
  {
    SettledTranscriptMissesNothing(steps);
    var s := Exec(steps).value;
    ReplayShowsTheLog(log, from, FromSnapshot(s.history.base.value), s.history.after);
  }

  // ---- whose rows are shown ----------------------------------------------

  /** Entering a child or returning to its parent shows what that very child or session showed, settled,
      when it was last left on this connection; or nothing yet, and says that it is loading. */
  lemma {:induction false} EnteringShowsItsOwn(steps: seq<Step>, target: Option<Child>)
    requires Exec(steps).Some? && Exec(steps).value.screen.child != target
    requires Next(Exec(steps).value, ViewChild(target)).screen.child == target
    requires Next(Exec(steps).value, ViewChild(target)).screen.selected.Some?
    requires Next(Exec(steps).value, ViewChild(target)) != Exec(steps).value
    ensures var t := Next(Exec(steps).value, ViewChild(target));
      var owner := Owner(t.screen.selected.value, target);
      if t.shown.loading then t.shown.transcript == EMPTY
      else
        && owner in t.history.last && t.history.last[owner].epoch == t.epoch
        && t.shown.transcript == t.history.last[owner].transcript
  {
    RunKeeps(steps);
    EnterShows(Exec(steps).value, target);
  }

  lemma EnterShows(s: State, target: Option<Child>)
    requires Inv(s) && s.screen.child != target && ShowChild(s, target).screen.child == target
    requires ShowChild(s, target).screen.selected.Some? && ShowChild(s, target) != s
    ensures var t := ShowChild(s, target);
      var owner := Owner(t.screen.selected.value, target);
      if t.shown.loading then t.shown.transcript == EMPTY
      else
        && owner in t.history.last && t.history.last[owner].epoch == t.epoch
        && t.shown.transcript == t.history.last[owner].transcript
  {
    hide Replay, Stands, Evict, FewHeld, TakeHeld, Bounded, PendingInv, BacklogInv, ResetsInv, SettledInv, PastInv,
      HeardInv, LoadInv;
    var h := HoldTranscript(Noted(s));
    HoldKeeps(s);
    if target.Some? && h.screen.selected != Some(target.value.parent) {
      SelectHolds(h, Some(target.value.parent));
      EnteredShows(SelectScreen(h, Some(target.value.parent)), target);
    } else {
      EnteredShows(h, target);
    }
  }

  lemma SelectHolds(s: State, id: Option<Session>)
    requires Stable(s)
    ensures HeldInv(SelectScreen(s, id)) && SelectScreen(s, id).screen.selected == id
  {
  }

  lemma EnteredShows(s: State, target: Option<Child>)
    requires HeldInv(s) && s.screen.selected.Some?
    requires target.Some? ==> s.screen.selected == Some(target.value.parent)
    ensures var t := Fetch(Entered(s, target));
      && t.screen.child == target && t.screen.selected == s.screen.selected && t.history.last == s.history.last
      && t.epoch == s.epoch
      && var owner := Owner(s.screen.selected.value, target);
      if t.shown.loading then t.shown.transcript == EMPTY
      else
        && owner in t.history.last && t.history.last[owner].epoch == t.epoch
        && t.shown.transcript == t.history.last[owner].transcript
  {
    hide TakeHeld;
    TakenIsTheOwners(s, target);
    TakenScreen(s, target);
  }

  lemma TakenScreen(s: State, target: Option<Child>)
    ensures var t := TakeHeld(s, target).0;
      t == s.(heldChildren := t.heldChildren, heldParent := t.heldParent)
  {
  }

  /** Looking into a child and back shows the session's rows again at once, if they were settled. */
  lemma {:induction false} ReturningShowsTheParent(s: State, child: Child)
    requires Settled(s) && s.screen.child.None? && s.screen.selected == Some(child.parent)
    ensures var back := Next(Next(s, ViewChild(Some(child))), ViewChild(None));
      back.screen.child.None? && back.screen.selected == s.screen.selected && back.shown == s.shown
  {
    hide Evict, OfEpoch, Find, Without, HoldTranscript, TakeHeld, Entered;
    var inside := Next(s, ViewChild(Some(child)));
    var held := Held(s.epoch, s.shown.transcript, s.shown.limit);
    HoldsParent(s, held);
    EnteredKeepsParent(HoldTranscript(Noted(s)), child);
    HoldingAChild(inside);
    TakesParent(HoldTranscript(Noted(inside)), held);
  }

  lemma HoldsParent(s: State, held: Held)
    requires Settled(s) && s.screen.child.None? && s.screen.selected.Some?
    requires held == Held(s.epoch, s.shown.transcript, s.shown.limit)
    ensures var h := HoldTranscript(Noted(s));
      h.heldParent == Some((s.screen.selected.value, held)) && h.screen == s.screen && h.epoch == s.epoch
  {
  }

  lemma EnteredKeepsParent(s: State, child: Child)
    ensures var t := Fetch(Entered(s, Some(child)));
      && t.heldParent == s.heldParent && t.epoch == s.epoch
      && t.screen.selected == s.screen.selected && t.screen.child == Some(child)
  {
    hide OfEpoch, Find;
  }

  lemma HoldingAChild(s: State)
    requires s.screen.child.Some?
    ensures var h := HoldTranscript(Noted(s));
      h.heldParent == s.heldParent && h.epoch == s.epoch && h.screen == s.screen
  {
    hide Evict, Without;
  }

  lemma TakesParent(s: State, held: Held)
    requires s.screen.selected.Some? && s.heldParent == Some((s.screen.selected.value, held)) && held.epoch == s.epoch
    ensures var t := Fetch(Entered(s, None));
      && t.screen.child.None? && t.screen.selected == s.screen.selected
      && t.shown == Shown(false, held.transcript, held.limit)
  {
    hide OfEpoch;
  }

  /** Leaving a child for its parent and coming back shows the child's rows again at once, if they were
      settled and fit the bound by themselves. */
  lemma {:induction false} ReentryShowsTheChild(s: State, child: Child)
    requires Stable(s) && Settled(s) && s.screen.child == Some(child) && s.screen.selected == Some(child.parent)
    requires Bytes(s.shown.transcript) <= MAX_HELD_BYTES
    ensures var back := Next(Next(s, ViewChild(None)), ViewChild(Some(child)));
      && back.screen.child == Some(child) && !back.shown.loading
      && back.shown.transcript == s.shown.transcript
  {
    hide Evict, OfEpoch, Find, Without, HoldTranscript, TakeHeld, Entered, FewHeld, JobsInv;
    var held := Held(s.epoch, s.shown.transcript, s.shown.limit);
    HoldsChild(s, child, held);
    var h := HoldTranscript(Noted(s));
    var outside := Next(s, ViewChild(None));
    EnteredKeepsChild(h, child, held);
    var again := HoldTranscript(Noted(outside));
    HoldKeeps(s);
    assert HeldInv(h);
    HoldingTheParent(outside);
    TakesChild(again, child, held);
  }

  lemma HoldsChild(s: State, child: Child, held: Held)
    requires Settled(s) && s.screen.child == Some(child) && s.screen.selected.Some?
    requires held == Held(s.epoch, s.shown.transcript, s.shown.limit) && Bytes(held.transcript) <= MAX_HELD_BYTES
    ensures var h := HoldTranscript(Noted(s));
      && (child, held) in h.heldChildren && h.screen == s.screen && h.epoch == s.epoch
      && forall other: Held :: (child, other) in h.heldChildren ==> other == held
  {
    hide Evict, HeldBytes, Without, Bytes;
    var all := Without(s.heldChildren, child) + [(child, held)];
    WithoutDropsOnlyTheChild(s.heldChildren, child);
    OneFits(child, held);
    assert all[|all| - 1..] == [(child, held)] && FewHeld(all[|all| - 1..]);
    var dropped := EvictKeepsTheNewest(all);
    assert all[dropped..][|all| - 1 - dropped] == (child, held);
  }

  lemma OneFits(child: Child, held: Held)
    requires Bytes(held.transcript) <= MAX_HELD_BYTES
    ensures FewHeld([(child, held)])
  {
    hide Bytes;
    var one := [(child, held)];
    assert HeldBytes(one) == Bytes(one[0].1.transcript) + HeldBytes(one[1..]) && one[1..] == [];
  }

  lemma EnteredKeepsChild(s: State, child: Child, held: Held)
    requires (child, held) in s.heldChildren && held.epoch == s.epoch
    requires forall other: Held :: (child, other) in s.heldChildren ==> other == held
    ensures var t := Fetch(Entered(s, None));
      && (child, held) in t.heldChildren && t.epoch == s.epoch
      && (forall other: Held :: (child, other) in t.heldChildren ==> other == held)
      && t.screen.selected == s.screen.selected && t.screen.child.None?
  {
    hide TakeHeld;
    TakenLeavesTheRest(s, None);
    TakenScreen(s, None);
  }

  lemma HoldingTheParent(s: State)
    requires s.screen.child.None?
    ensures var h := HoldTranscript(Noted(s));
      h.heldChildren == s.heldChildren && h.epoch == s.epoch && h.screen == s.screen
  {
  }

  lemma TakesChild(s: State, child: Child, held: Held)
    requires (child, held) in s.heldChildren && held.epoch == s.epoch
    requires forall other: Held :: (child, other) in s.heldChildren ==> other == held
    ensures var t := Fetch(Entered(s, Some(child)));
      t.screen.child == Some(child) && !t.shown.loading && t.shown.transcript == held.transcript
  {
    hide TakeHeld;
    TakenIsTheOwners(s, Some(child));
    TakenScreen(s, Some(child));
  }

  // ---- what a screen says ------------------------------------------------

  /** A screen that says it is loading awaits a read; a read asks for the window shown; a child's screen shows
      as many rows, up to the same item, as the newest snapshot received for it. */
  lemma {:induction false} ScreenIsHonest(steps: seq<Step>)
    requires Exec(steps).Some?
    ensures var s := Exec(steps).value; LoadInv(s) && HeardInv(s)
    ensures var s := Exec(steps).value;
      forall id :: id in s.jobs && Current(s, s.jobs[id]) && s.jobs[id].ReadConversation? ==>
        s.jobs[id].limit == s.shown.limit
  {
    RunKeeps(steps);
  }

  // ---- a reset forgotten -------------------------------------------------

  lemma {:induction false} ExecStep(steps: seq<Step>, s: State, step: Step)
    requires Exec(steps) == Some(s) && Enabled(s, step)
    ensures Exec(steps + [step]) == Some(Next(s, step))
  {
    assert (steps + [step])[..|steps|] == steps;
  }

  /** A reset processed behind a read that then fails is not read again: the old generation stays
      on screen, ignoring the new one's deltas, until the next poll. */
  lemma {:induction false} AForgottenReset() returns (steps: seq<Step>)
    ensures Exec(steps).Some?
    ensures var s := Exec(steps).value;
      && s.connected && !s.reading.pending && s.screen.child.None? && s.history.forgot
      && s.history.resets == 1 && s.history.adopted == Some(0) && s.history.base == None
      && s.shown.transcript == FromSnapshot(Snapshot(2, [Item(7, true, 1), Item(8, true, 1)]))
      && s.history.since == [Delta(1, false, false, [Item(9, true, 1)])]
  {
    hide Fetch, OnReply, OnDelta;
    var stale := Snapshot(2, [Item(7, true, 1), Item(8, true, 1)]);
    var newer := Delta(1, false, false, [Item(9, true, 1)]);
    var s0 := Init();
    var s1 := Next(s0, Connect);
    var s2 := Next(s1, Step.Select(Some(1)));
    ExecStep([], s0, Connect);
    ExecStep([Connect], s1, Step.Select(Some(1)));
    steps, s2 := LostAfter([] + [Connect] + [Step.Select(Some(1))], s2, stale, newer);
  }

  lemma {:induction false} LostAfter(before: seq<Step>, s: State, stale: Snapshot, newer: Delta)
    returns (steps: seq<Step>, end: State)
    requires Exec(before) == Some(s)
    requires s.connected && s.reading.pending && s.screen.child.None? && s.screen.selected.Some?
    requires s.jobs ==
      map[0 := ReadConversation(s.epoch, s.screen.selection, s.screen.selected.value, s.shown.limit, 0)]
    requires s.nextJob == 1 && s.history.resets == 0 && !s.reading.resync && s.reading.buffered == []
    requires Plain(newer) && newer.upTo <= stale.upTo
    ensures Exec(steps) == Some(end)
    ensures end.connected && !end.reading.pending && end.screen.child.None?
    ensures end.history.resets == 1 && end.history.base == None && end.history.since == [newer]
    ensures end.history.adopted == Some(0) && end.history.forgot
    ensures end.shown.transcript == FromSnapshot(stale)
  {
    var reset := Delta(0, true, false, []);
    var a := Next(s, Complete(0, Ok(stale)));
    ExecStep(before, s, Complete(0, Ok(stale)));
    var read := before + [Complete(0, Ok(stale))];
    var b := Next(a, Poll);
    ExecStep(read, a, Poll);
    var c := Next(b, Receive(reset, 0));
    ExecStep(read + [Poll], b, Receive(reset, 0));
    var d := Next(c, Complete(1, Failed));
    ExecStep(read + [Poll] + [Receive(reset, 0)], c, Complete(1, Failed));
    end := Next(d, Receive(newer, 0));
    steps := read + [Poll] + [Receive(reset, 0)] + [Complete(1, Failed)] + [Receive(newer, 0)];
    ExecStep(read + [Poll] + [Receive(reset, 0)] + [Complete(1, Failed)], d, Receive(newer, 0));
  }
}
