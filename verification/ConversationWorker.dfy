/** The worker's conversation methods as they change its fields, each proved to be the matching
    function of `Conversation`. */
module ConversationWorker {
  import opened Wrappers
  import opened Transcripts
  import opened Conversation
  import opened ConversationProof

  // ---- transcripts held for a quick return -------------------------------

  lemma {:induction false} WithoutAppend(held: seq<(Child, Held)>, last: (Child, Held), child: Child)
    ensures Without(held + [last], child) == Without(held, child) + if last.0 == child then [] else [last]
  {
    if held == [] {
      assert ([last])[1..] == [];
    } else {
      assert (held + [last])[1..] == held[1..] + [last];
      WithoutAppend(held[1..], last, child);
    }
  }

  // ---- the worker --------------------------------------------------------

  class Worker {
    var epoch: nat
    var connected: bool
    var sessions: set<Session>
    var screen: Screen
    var reading: Reading
    var shown: Shown
    var childPending: bool
    var childSeen: Option<(nat, nat)>
    var heldParent: Option<(Session, Held)>
    var heldChildren: seq<(Child, Held)>
    var jobs: map<nat, Job>
    var nextJob: nat
    var history: History

    ghost function View(): State
      reads this
    {
      State(epoch, connected, sessions, screen, reading, shown, childPending, childSeen, heldParent, heldChildren,
            jobs, nextJob, history)
    }

    /** What `ConversationProof` shows every run keeps: the fences, one read in flight per pending
        flag, a bounded backlog that stands for every delta, a settled transcript without a gap. */
    ghost predicate Valid()
      reads this
    {
      Inv(View())
    }

    constructor ()
      ensures View() == Init() && Valid()
    {
      epoch, connected, sessions, screen := 0, false, {}, Screen(0, None, None);
      reading, shown := Reading(false, [], 0, false, false), Shown(false, EMPTY, PAGE);
      childPending, childSeen, heldParent, heldChildren := false, None, None, [];
      jobs, nextJob, history := map[], 0, History(0, [], None, [], None, false, map[], None);
    }

    /** At most one conversation read at a time, and none behind a child or a lost connection. It may
        be asked for while the screen awaits one (`Ready`), and then restores the invariant. */
    method FetchConversation()
      requires if screen.child.Some? then Valid() else Ready(View())
      modifies `reading, `jobs, `nextJob, `history
      ensures View() == Conversation.FetchConversation(old(View()))
      ensures Valid()
      ensures connected && screen.child.None? && screen.selected.Some? ==> reading.pending
    {
      hide Inv, Ready;
      FetchConversationKeeps(View());
      if !connected || reading.pending || screen.child.Some? {
        return;
      }
      if screen.selected.None? {
        return;
      }
      reading := Reading(true, [], 0, false, false);
      history := history.(since := []);
      jobs := jobs[nextJob := ReadConversation(epoch, screen.selection, screen.selected.value, shown.limit,
                                               history.resets)];
      nextJob := nextJob + 1;
    }

    method FetchChild()
      requires if screen.child.Some? then Ready(View()) else Valid()
      modifies `childPending, `jobs, `nextJob
      ensures View() == Conversation.FetchChild(old(View()))
      ensures Valid()
      ensures connected && screen.child.Some? ==> childPending
    {
      hide Inv, Ready;
      FetchChildKeeps(View());
      if screen.child.None? {
        return;
      }
      if !connected || childPending {
        return;
      }
      childPending := true;
      jobs := jobs[nextJob := ReadChild(epoch, screen.selection, screen.child.value)];
      nextJob := nextJob + 1;
    }

    /** Keep the settled transcript being left: its child's older copy goes, then the oldest. */
    method HoldTranscript()
      requires Valid()
      modifies `heldParent, `heldChildren, `history
      ensures View() == Conversation.HoldTranscript(Noted(old(View())))
      ensures Valid() && |heldChildren| <= MAX_HELD_CHILDREN && HeldBytes(heldChildren) <= MAX_HELD_BYTES
    {
      hide Inv;
      HoldStep(View());
      if shown.loading || shown.transcript.upTo.None? {
        return;
      }
      var held := Held(epoch, shown.transcript, shown.limit);
      if screen.selected.Some? {
        history := history.(last := history.last[Owner(screen.selected.value, screen.child) := held]);
      }
      match screen.child
      case None =>
        if screen.selected.Some? {
          heldParent := Some((screen.selected.value, held));
        }
      case Some(child) =>
        var kept, before := [], heldChildren;
        assert before[..0] == [] && Without([], child) == [];
        for i := 0 to |before|
          invariant kept == Without(before[..i], child)
          modifies {}
        {
          assert before[..i + 1] == before[..i] + [before[i]];
          WithoutAppend(before[..i], before[i], child);
          if before[i].0 != child {
            kept := kept + [before[i]];
          }
        }
        assert before[..|before|] == before;
        kept := kept + [(child, held)];
        ghost var all := kept;
        while |kept| > MAX_HELD_CHILDREN || HeldBytes(kept) > MAX_HELD_BYTES
          invariant Evict(kept) == Evict(all)
          modifies {}
          decreases |kept|
        {
          kept := kept[1..];
        }
        heldChildren := kept;
    }

    /** Select a conversation: the same one is read again behind its rows, another starts blank. */
    method Select(id: Option<Session>)
      requires Valid()
      modifies `screen, `reading, `shown, `childPending, `childSeen, `history, `jobs, `nextJob
      ensures View() == SelectScreen(old(View()), id)
      ensures Valid() && reading.buffered == []
      ensures AllStale(View(), old(jobs))
    {
      hide Inv, Ready, AllStale, Conversation.FetchConversation, Blank;
      SelectFences(View(), id);
      var keep := id.Some? && screen.selected == id && screen.child.None?;
      var transcript, limit := shown.transcript, shown.limit;
      if !keep {
        transcript, limit := EMPTY, PAGE;
      }
      screen := Screen(screen.selection + 1, id, None);
      shown := Shown(id.Some? && Blank(transcript), transcript, limit);
      reading := reading.(pending := false, buffered := []);
      childPending := false;
      childSeen := None;
      history := history.(base := None, adopted := None, forgot := false, heard := None);
      assert View() == Selected(old(View()), id);
      FetchConversation();
    }

    /** A delta of the selected conversation while a read is in flight. */
    method BehindRead(d: Delta, size: nat)
      requires Valid() && connected && reading.pending && !d.ready
      requires screen.child.None? && screen.selected.Some?
      modifies `reading, `shown, `history
      ensures View() == OnDelta(old(View()), d, size)
      ensures Valid() && |reading.buffered| <= MAX_BUFFERED
      ensures reading.resync || (reading.bytes <= MAX_BUFFERED_BYTES && Stands(reading.buffered, history.since))
    {
      hide Inv, Stable, BacklogInv, Apply, Buffer, Stands;
      DeltaKeeps(View(), d, size);
      BehindStands(View(), d, size);
      if d.reset {
        reading := reading.(buffered := [], resync := true, resetPending := true);
        history := history.(resets := history.resets + 1);
        return;
      }
      history := history.(since := history.since + [d], after := history.after + [d]);
      if !reading.resetPending {
        if !shown.loading {
          shown := shown.(transcript := Apply(shown.transcript, d).0);
        }
        if !reading.resync {
          reading := reading.(bytes := reading.bytes + size, buffered := Buffer(reading.buffered, d));
          if |reading.buffered| > MAX_BUFFERED || reading.bytes > MAX_BUFFERED_BYTES {
            reading := reading.(buffered := [], resync := true);
          }
        }
      }
    }

    /** `conversation_event`: applied, held behind the read in flight, or answered with a read. */
    method ConversationEvent(d: Delta, size: nat)
      requires Valid() && Enabled(View(), Receive(d, size))
      modifies `reading, `shown, `history, `jobs, `nextJob
      ensures View() == OnDelta(old(View()), d, size)
      ensures Valid()
      ensures d.reset || d.ready ==> reading.pending && (old(reading.pending) ==> reading.resync)
    {
      hide Inv, Ready, Apply, Buffer;
      if !reading.pending {
        InvReady(View());
        if d.reset && !d.ready { ResetReady(View()); }
        if Plain(d) { LiveReady(View(), d); }
      }
      DeltaKeeps(View(), d, size);
      if d.ready {
        if reading.pending {
          reading := reading.(resync := true);
        } else {
          FetchConversation();
        }
      } else if reading.pending {
        BehindRead(d, size);
      } else if d.reset {
        shown := shown.(loading := true);
        history := history.(resets := history.resets + 1);
        FetchConversation();
      } else {
        var (t, fold) := Apply(shown.transcript, d);
        shown := shown.(transcript := t);
        history := history.(since := history.since + [d], after := history.after + [d]);
        if fold == Gap {
          FetchConversation();
        }
      }
    }

    /** A read came back: dropped when it is not for this screen, else adopted with its backlog or
        read again. A snapshot adopted was asked for after every reset. */
    method CompleteConversation(id: nat, reply: Reply)
      requires Valid() && id in jobs && jobs[id].ReadConversation?
      modifies `reading, `shown, `history, `jobs, `nextJob
      ensures View() == OnReply(old(View()), id, reply)
      ensures Valid()
      ensures old(connected && Current(View(), jobs[id])) && reply.Ok? && !old(reading.resync) ==>
        history.adopted == Some(history.resets) && history.base == Some(reply.snapshot)
      ensures old(connected && Current(View(), jobs[id])) && reply.Ok? && old(reading.resync) ==> reading.pending
    {
      hide Inv, Ready, Apply;
      if Current(View(), jobs[id]) && reply.Ok? { CompleteReady(View(), id, reply.snapshot); }
      ReplyKeeps(View(), id, reply);
      var job := jobs[id];
      jobs := jobs - {id};
      if job.epoch != epoch || job.selection != screen.selection {
        return;
      }
      reading := reading.(pending := false);
      shown := shown.(loading := false);
      match reply
      case Failed =>
        history := history.(base := None, forgot := history.adopted != Some(history.resets));
      case Ok(snapshot) =>
        if reading.resync {
          shown := shown.(loading := shown.loading || reading.resetPending);
          FetchConversation();
          return;
        }
        var t, gap := Drain(FromSnapshot(snapshot), reading.buffered);
        shown := shown.(transcript := t);
        reading := reading.(buffered := []);
        history := history.(base := Some(snapshot), after := history.since, adopted := Some(job.resets),
                            forgot := false);
        if gap {
          FetchConversation();
        }
    }
  }

  /** The backlog folded onto a fresh snapshot, up to the first gap. */
  method Drain(start: Transcript, held: seq<Delta>) returns (t: Transcript, gap: bool)
    ensures (t, gap) == Replay(start, held)
  {
    t, gap := start, false;
    var i := 0;
    while i < |held| && !gap
      invariant 0 <= i <= |held|
      invariant Replay(start, held) == if gap then (t, true) else Replay(t, held[i..])
    {
      var (u, fold) := Apply(t, held[i]);
      assert held[i..][1..] == held[i + 1..];
      t := u;
      gap := fold == Gap;
      i := i + 1;
    }
  }
}
