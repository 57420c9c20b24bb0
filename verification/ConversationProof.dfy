/** What every run keeps of the conversation on screen: the fences that only admit replies asked for it, the
    one read in flight and its backlog, and a transcript that misses nothing (controller.rs). */
module ConversationProof {
  import opened Wrappers
  import opened Transcripts
  import opened Conversation

  // ---- the invariant -----------------------------------------------------

  /** The outstanding reads whose reply would be adopted now. */
  function CurrentReads(s: State): set<nat> {
    set id | id in s.jobs && Current(s, s.jobs[id]) && s.jobs[id].ReadConversation?
  }

  function CurrentChildReads(s: State): set<nat> {
    set id | id in s.jobs && Current(s, s.jobs[id]) && s.jobs[id].ReadChild?
  }

  /** The job asks for exactly what is on screen. */
  predicate OnScreen(screen: Screen, job: Job) {
    match job
    case ReadConversation(_, _, session, _, _) => screen.child == None && screen.selected == Some(session)
    case ReadChild(_, _, child) => screen.child == Some(child)
  }

  ghost predicate JobsInv(s: State) {
    && (s.screen.child.Some? ==> s.screen.selected == Some(s.screen.child.value.parent))
    && (forall id :: id in s.jobs ==>
          && id < s.nextJob
          && s.jobs[id].epoch <= s.epoch && s.jobs[id].selection <= s.screen.selection
          && (s.jobs[id].ReadConversation? ==> s.jobs[id].resets <= s.history.resets)
          && (!s.connected ==> s.jobs[id].epoch < s.epoch)
          && (Current(s, s.jobs[id]) ==>
                && OnScreen(s.screen, s.jobs[id])
                && (s.jobs[id].ReadConversation? ==> s.jobs[id].limit == s.shown.limit)))
  }

  /** The backlog never outgrows its bounds: past them it is given up for another read. */
  predicate Bounded(r: Reading) {
    |r.buffered| <= MAX_BUFFERED && (r.resync || r.bytes <= MAX_BUFFERED_BYTES)
  }

  predicate FewHeld(held: seq<(Child, Held)>) {
    |held| <= MAX_HELD_CHILDREN && HeldBytes(held) <= MAX_HELD_BYTES
  }

  /** What is held for an owner is what it showed, settled, when it was last left. */
  ghost predicate HeldInv(s: State) {
    && (forall c, h :: (c, h) in s.heldChildren ==>
          Owner(c.parent, Some(c)) in s.history.last && s.history.last[Owner(c.parent, Some(c))] == h)
    && (s.heldParent.Some? ==>
          && Owner(s.heldParent.value.0, None) in s.history.last
          && s.history.last[Owner(s.heldParent.value.0, None)] == s.heldParent.value.1)
  }

  /** What moving the fence relies on. */
  ghost predicate Stable(s: State) {
    Bounded(s.reading) && FewHeld(s.heldChildren) && JobsInv(s) && HeldInv(s)
  }

  ghost predicate AtMostOne(ids: set<nat>) {
    forall a, b :: a in ids && b in ids ==> a == b
  }

  ghost predicate PendingInv(s: State) {
    s.connected ==>
      && AtMostOne(CurrentReads(s)) && AtMostOne(CurrentChildReads(s))
      && (s.reading.pending <==> CurrentReads(s) != {})
      && (s.childPending <==> CurrentChildReads(s) != {})
  }

  /** While a read is in flight: another will follow it, or the backlog stands for every plain
      delta since it was asked for and no reset was processed since. */
  ghost predicate BacklogInv(s: State) {
    && (s.connected && s.reading.pending ==>
          s.reading.resync || Stands(s.reading.buffered, s.history.since))
    && (s.connected && s.reading.pending && !s.reading.resync ==>
          && !s.reading.resetPending
          && forall id :: id in CurrentReads(s) ==> s.jobs[id].resets == s.history.resets)
    && (s.connected && s.reading.resetPending && s.reading.pending ==> s.reading.resync)
  }

  /** Between reads, after one that succeeded: the rows are its snapshot and every plain delta
      since it was asked for, folded with no gap. */
  ghost predicate SettledInv(s: State) {
    s.connected && !s.reading.pending && s.screen.child.None? && s.history.base.Some? ==>
      Replay(FromSnapshot(s.history.base.value), s.history.after) == (s.shown.transcript, false)
  }

  /** What is known of resets at any time: nobody has seen more than were processed, and while a
      failure counts as forgotten the transcript is behind. */
  ghost predicate ResetsInv(s: State) {
    && (s.history.adopted.Some? ==> s.history.adopted.value <= s.history.resets)
    && (s.history.forgot ==> s.history.adopted != Some(s.history.resets) && s.history.base == None)
    && (s.history.base.Some? ==> s.screen.selected.Some?)
    && (s.connected && s.reading.pending ==>
          forall id :: id in CurrentReads(s) ==>
            && (s.reading.resetPending <==> s.jobs[id].resets < s.history.resets)
            && (s.history.adopted.Some? ==> s.history.adopted.value <= s.jobs[id].resets))
  }

  /** Between reads the transcript is past every reset, unless a failure forgot one. */
  ghost predicate PastInv(s: State) {
    s.connected && !s.reading.pending && s.screen.child.None? && s.screen.selected.Some? ==>
      (s.history.adopted == Some(s.history.resets) <==> !s.history.forgot)
  }

  /** A child's screen shows as many rows, up to the same item, as the newest snapshot received for it. */
  ghost predicate HeardInv(s: State) {
    s.screen.child.Some? ==>
      match s.history.heard
      case None => s.childSeen.None?
      case Some(snapshot) =>
        && s.childSeen == Some((snapshot.upTo, |snapshot.items|))
        && s.shown.transcript.upTo == Some(snapshot.upTo) && |s.shown.transcript.items| == |snapshot.items|
  }

  /** A screen that says it is loading awaits a read. */
  predicate LoadInv(s: State) {
    s.connected && s.shown.loading && s.screen.selected.Some? ==>
      if s.screen.child.Some? then s.childPending else s.reading.pending
  }

  ghost predicate Inv(s: State) {
    Stable(s) && PendingInv(s) && BacklogInv(s) && ResetsInv(s) && SettledInv(s) && PastInv(s)
      && HeardInv(s) && LoadInv(s)
  }

  // ---- reads -------------------------------------------------------------

  /** Enough for a read to restore the invariant: what it leaves alone is settled. */
  ghost predicate Ready(s: State) {
    && Stable(s) && PendingInv(s) && BacklogInv(s) && ResetsInv(s) && HeardInv(s)
    && (!s.connected || (if s.screen.child.Some? then s.childPending
                         else s.reading.pending || s.screen.selected.None?) ==>
          SettledInv(s) && PastInv(s) && LoadInv(s))
  }

  lemma FetchConversationKeeps(s: State)
    requires if s.screen.child.Some? then Inv(s) else Ready(s)
    ensures Inv(FetchConversation(s))
  {
    var s' := FetchConversation(s);
    if s' != s {
      assert s.nextJob !in s.jobs;
      assert CurrentReads(s') == CurrentReads(s) + {s.nextJob};
      assert CurrentChildReads(s') == CurrentChildReads(s);
      assert Stands([], []);
    }
  }

  lemma FetchChildKeeps(s: State)
    requires if s.screen.child.Some? then Ready(s) else Inv(s)
    ensures Inv(FetchChild(s))
  {
    var s' := FetchChild(s);
    if s' != s {
      assert s.nextJob !in s.jobs;
      assert CurrentReads(s') == CurrentReads(s);
      assert CurrentChildReads(s') == CurrentChildReads(s) + {s.nextJob};
    }
  }

  lemma FetchKeeps(s: State)
    requires Ready(s)
    ensures Inv(Fetch(s))
  {
    if s.screen.child.Some? { FetchChildKeeps(s); } else { FetchConversationKeeps(s); }
  }

  // ---- moving the fence --------------------------------------------------

  /** None of these outstanding reads is for the present screen. */
  ghost predicate AllStale(s: State, jobs: map<nat, Job>) {
    forall id :: id in jobs ==> id in s.jobs && !Current(s, s.jobs[id])
  }

  /** A new selection or a new epoch makes every outstanding read stale. */
  lemma Fenced(s: State, s': State)
    requires JobsInv(s) && s'.jobs == s.jobs
    requires s'.epoch >= s.epoch && s'.screen.selection >= s.screen.selection
    requires s'.epoch > s.epoch || s'.screen.selection > s.screen.selection
    ensures AllStale(s', s.jobs)
    ensures CurrentReads(s') == {} && CurrentChildReads(s') == {}
  {
  }

  lemma SelectKeeps(s: State, id: Option<Session>)
    requires Stable(s)
    ensures Inv(SelectScreen(s, id))
    ensures SelectScreen(s, id).screen == Screen(s.screen.selection + 1, id, None)
  {
    hide Replay, Stands;
    Fenced(s, Selected(s, id));
    FetchConversationKeeps(Selected(s, id));
  }

  /** Eviction keeps the longest run of newest children that fits both bounds. */
  lemma {:induction false} EvictKeepsTheNewest(held: seq<(Child, Held)>) returns (dropped: nat)
    ensures dropped <= |held| && Evict(held) == held[dropped..]
    ensures FewHeld(Evict(held))
    ensures forall k :: 0 <= k < dropped ==> !FewHeld(held[k..])
  {
    if FewHeld(held) {
      dropped := 0;
      assert held[0..] == held;
    } else {
      var d := EvictKeepsTheNewest(held[1..]);
      dropped := d + 1;
      assert held[1..][d..] == held[dropped..];
      forall k | 0 <= k < dropped
        ensures !FewHeld(held[k..])
      {
        if k == 0 { assert held[0..] == held; } else { assert held[k..] == held[1..][k - 1..]; }
      }
    }
  }

  lemma {:induction false} OfEpochSmaller(held: seq<(Child, Held)>, epoch: nat)
    ensures |OfEpoch(held, epoch)| <= |held| && HeldBytes(OfEpoch(held, epoch)) <= HeldBytes(held)
  {
    hide Bytes;
    if held != [] {
      OfEpochSmaller(held[1..], epoch);
      var rest := OfEpoch(held[1..], epoch);
      assert ([held[0]] + rest)[1..] == rest && [] + rest == rest;
    }
  }

  lemma {:induction false} TakenSmaller(held: seq<(Child, Held)>, i: nat)
    requires i < |held|
    ensures HeldBytes(held[..i] + held[i + 1..]) <= HeldBytes(held)
  {
    hide Bytes;
    if i == 0 {
      assert held[..0] + held[1..] == held[1..];
    } else {
      TakenSmaller(held[1..], i - 1);
      assert (held[..i] + held[i + 1..])[1..] == held[1..][..i - 1] + held[1..][i..];
    }
  }

  /** The settled screen being left is held, and noted. */
  lemma HoldKeeps(s: State)
    requires Stable(s)
    ensures Stable(HoldTranscript(Noted(s)))
  {
    hide Evict, HeldBytes, Without;
    if s.screen.child.Some? && Settled(s) {
      var child := s.screen.child.value;
      var held := Held(s.epoch, s.shown.transcript, s.shown.limit);
      var all := Without(s.heldChildren, child) + [(child, held)];
      WithoutDropsOnlyTheChild(s.heldChildren, child);
      var dropped := EvictKeepsTheNewest(all);
      assert forall e :: e in Evict(all) ==> e in all;
    }
  }

  /** A child is held at most once, and nobody else's transcript is lost by holding it. */
  lemma {:induction false} WithoutDropsOnlyTheChild(held: seq<(Child, Held)>, child: Child)
    ensures forall e :: e in Without(held, child) <==> e in held && e.0 != child
  {
    if held != [] {
      WithoutDropsOnlyTheChild(held[1..], child);
      assert held == [held[0]] + held[1..];
    }
  }

  lemma {:induction false} OfEpochIn(held: seq<(Child, Held)>, epoch: nat)
    ensures forall e :: e in OfEpoch(held, epoch) <==> e in held && e.1.epoch == epoch
  {
    if held != [] {
      OfEpochIn(held[1..], epoch);
      assert held == [held[0]] + held[1..];
    }
  }

  lemma {:induction false} FindFinds(held: seq<(Child, Held)>, child: Child)
    ensures Find(held, child).Some? ==> Find(held, child).value < |held| && held[Find(held, child).value].0 == child
    ensures Find(held, child).None? ==> forall e :: e in held ==> e.0 != child
  {
    if held != [] {
      FindFinds(held[1..], child);
      assert held == [held[0]] + held[1..];
    }
  }

  /** Only from this connection, and only for that exact owner: what is taken for a child was held for that
      child, for the session for that session; and whenever there is such a one, one is taken. */
  lemma TakenIsTheOwners(s: State, target: Option<Child>)
    ensures TakeHeld(s, target).1.Some? && target.Some? ==>
      (target.value, TakeHeld(s, target).1.value) in s.heldChildren
    ensures TakeHeld(s, target).1.Some? && target.None? ==>
      s.screen.selected.Some? && s.heldParent == Some((s.screen.selected.value, TakeHeld(s, target).1.value))
    ensures TakeHeld(s, target).1.Some? ==> TakeHeld(s, target).1.value.epoch == s.epoch
    ensures TakeHeld(s, target).1.None? && target.Some? ==>
      forall h: Held :: (target.value, h) in s.heldChildren ==> h.epoch != s.epoch
    ensures TakeHeld(s, target).1.None? && target.None? && s.screen.selected.Some? ==>
      forall h: Held :: s.heldParent == Some((s.screen.selected.value, h)) ==> h.epoch != s.epoch
  {
    hide OfEpoch, Find;
    OfEpochIn(s.heldChildren, s.epoch);
    var kept := OfEpoch(s.heldChildren, s.epoch);
    if target.Some? {
      FindFinds(kept, target.value);
      if Find(kept, target.value).Some? { assert kept[Find(kept, target.value).value] in kept; }
    }
  }

  /** Taking loses nothing that is held but what is taken and what is of an earlier connection. */
  lemma TakenLeavesTheRest(s: State, target: Option<Child>)
    ensures forall e :: e in TakeHeld(s, target).0.heldChildren ==> e in s.heldChildren
    ensures forall e :: e in s.heldChildren && e.1.epoch == s.epoch && Some(e.0) != target ==>
      e in TakeHeld(s, target).0.heldChildren
  {
    hide OfEpoch, Find;
    OfEpochIn(s.heldChildren, s.epoch);
    var kept := OfEpoch(s.heldChildren, s.epoch);
    if target.Some? {
      FindFinds(kept, target.value);
      if Find(kept, target.value).Some? {
        var i := Find(kept, target.value).value;
        assert kept == kept[..i] + [kept[i]] + kept[i + 1..];
      }
    }
  }

  lemma TakeKeeps(s: State, target: Option<Child>)
    requires FewHeld(s.heldChildren)
    ensures FewHeld(TakeHeld(s, target).0.heldChildren)
  {
    hide HeldBytes, OfEpoch, Find;
    OfEpochSmaller(s.heldChildren, s.epoch);
    var kept := OfEpoch(s.heldChildren, s.epoch);
    if target.Some? && Find(kept, target.value).Some? && Find(kept, target.value).value < |kept| {
      TakenSmaller(kept, Find(kept, target.value).value);
    }
  }

  lemma SelectFences(s: State, id: Option<Session>)
    requires Inv(s)
    ensures Ready(Selected(s, id)) && SelectScreen(s, id).reading.buffered == []
    ensures AllStale(SelectScreen(s, id), s.jobs)
  {
    hide Replay, Stands, FewHeld;
    Fenced(s, Selected(s, id));
  }

  lemma HoldStep(s: State)
    requires Inv(s)
    ensures Inv(HoldTranscript(Noted(s))) && FewHeld(HoldTranscript(Noted(s)).heldChildren)
  {
    hide Replay, Stands, Evict, FewHeld, Without, HeldInv;
    HoldKeeps(s);
    SameJobs(s, HoldTranscript(Noted(s)));
  }

  lemma EnterKeeps(s: State, target: Option<Child>)
    requires Stable(s)
    requires target.Some? ==> s.screen.selected == Some(target.value.parent)
    ensures Ready(Entered(s, target))
  {
    hide Replay, Stands, OfEpoch, Find, FewHeld;
    TakeKeeps(s, target);
    TakenLeavesTheRest(s, target);
    Fenced(s, Entered(s, target));
  }

  lemma ShowChildKeeps(s: State, target: Option<Child>)
    requires Inv(s)
    ensures Inv(ShowChild(s, target))
  {
    hide Replay, Stands, Evict, Entered, FewHeld;
    if target == s.screen.child { return; }
    var h := HoldTranscript(Noted(s));
    HoldKeeps(s);
    if target.Some? && h.screen.selected != Some(target.value.parent) {
      SelectKeeps(h, Some(target.value.parent));
      EnterKeeps(SelectScreen(h, Some(target.value.parent)), target);
      FetchKeeps(Entered(SelectScreen(h, Some(target.value.parent)), target));
    } else {
      EnterKeeps(h, target);
      FetchKeeps(Entered(h, target));
    }
  }

  lemma ConnectKeeps(s: State)
    requires Inv(s)
    ensures Inv(Connected(s))
  {
    hide Replay, Stands, ShowChild, SelectScreen;
    var c := s.(epoch := s.epoch + 1, connected := true, reading := s.reading.(pending := false));
    Fenced(s, c);
    SelectKeeps(c, s.screen.selected);
    if s.screen.child.Some? {
      ShowChildKeeps(SelectScreen(c, s.screen.selected), s.screen.child);
    }
  }

  lemma DisconnectKeeps(s: State)
    requires Inv(s)
    ensures Inv(Disconnected(s))
  {
    hide Replay, Stands;
    Fenced(s, Disconnected(s));
  }

  // ---- deltas ------------------------------------------------------------

  lemma SameJobs(s: State, s': State)
    requires s'.jobs == s.jobs && s'.epoch == s.epoch && s'.screen == s.screen
    ensures CurrentReads(s') == CurrentReads(s) && CurrentChildReads(s') == CurrentChildReads(s)
  {
  }

  lemma BehindKeeps(s: State, d: Delta, size: nat)
    requires Inv(s) && s.connected && s.reading.pending && Plain(d)
    ensures Inv(OnDelta(s, d, size))
  {
    hide Replay, Buffer, Apply;
    var s' := OnDelta(s, d, size);
    SameJobs(s, s');
    if !s.reading.resync {
      BufferStands(s.reading.buffered, s.history.since, d);
    }
  }

  lemma BehindStands(s: State, d: Delta, size: nat)
    requires Inv(s) && s.connected && s.reading.pending && !d.ready
    ensures var r := OnDelta(s, d, size).reading;
      && |r.buffered| <= MAX_BUFFERED
      && (r.resync || (r.bytes <= MAX_BUFFERED_BYTES && Stands(r.buffered, OnDelta(s, d, size).history.since)))
  {
    hide Apply, Buffer, FewHeld, Replay;
    if Plain(d) { BehindKeeps(s, d, size); }
  }

  /** With no read in flight a delta extends the fold, or a gap asks for another read. */
  lemma LiveReady(s: State, d: Delta)
    requires Inv(s) && s.connected && !s.reading.pending && Plain(d)
    requires s.screen.child.None? && s.screen.selected.Some?
    ensures Ready(Live(s, d))
    ensures Apply(s.shown.transcript, d).1 != Gap ==> Inv(Live(s, d))
  {
    hide Buffer, Apply, FewHeld;
    SameJobs(s, Live(s, d));
    if s.history.base.Some? {
      ReplayAppend(FromSnapshot(s.history.base.value), s.history.after, [d]);
      ReplayOne(s.shown.transcript, d);
    }
  }

  lemma ResetReady(s: State)
    requires Inv(s) && s.connected && !s.reading.pending && s.screen.child.None? && s.screen.selected.Some?
    ensures Ready(ResetSeen(s))
  {
    hide Replay, Stands, FewHeld;
    SameJobs(s, ResetSeen(s));
  }

  lemma DeltaKeeps(s: State, d: Delta, size: nat)
    requires Inv(s) && Enabled(s, Receive(d, size))
    ensures Inv(OnDelta(s, d, size))
  {
    hide Replay, Stands, Buffer, Apply, FewHeld;
    if s.reading.pending {
      if Plain(d) { BehindKeeps(s, d, size); } else { SameJobs(s, OnDelta(s, d, size)); }
    } else if d.ready {
      FetchConversationKeeps(s);
    } else if d.reset {
      ResetReady(s);
      FetchConversationKeeps(ResetSeen(s));
    } else {
      LiveReady(s, d);
      if Apply(s.shown.transcript, d).1 == Gap { FetchConversationKeeps(Live(s, d)); }
    }
  }

  // ---- completions -------------------------------------------------------

  /** A current read is over: what follows it may ask again, and what it adopts is settled. */
  lemma CompleteReady(s: State, id: nat, snapshot: Snapshot)
    requires Inv(s) && id in s.jobs && Current(s, s.jobs[id]) && s.jobs[id].ReadConversation?
    ensures s.screen.child.None? && s.screen.selected.Some?
    ensures var done := s.(jobs := s.jobs - {id});
      && (s.reading.resync ==> Ready(Again(done)))
      && (!s.reading.resync ==> Ready(Adopted(done, s.jobs[id].resets, snapshot)))
      && (s.connected && !s.reading.resync ==> s.jobs[id].resets == s.history.resets)
  {
    hide Replay, Apply, FewHeld;
    var done := s.(jobs := s.jobs - {id});
    assert id in CurrentReads(s) && CurrentReads(done) == CurrentReads(s) - {id};
    assert CurrentChildReads(done) == CurrentChildReads(s);
    SameJobs(done, Again(done));
    SameJobs(done, Adopted(done, s.jobs[id].resets, snapshot));
  }

  lemma CompleteConversationKeeps(s: State, id: nat, reply: Reply)
    requires Inv(s) && s.connected && id in CurrentReads(s)
    ensures Inv(OnConversation(s.(jobs := s.jobs - {id}), s.jobs[id].resets, reply))
  {
    hide Replay, Apply, FewHeld;
    var done := s.(jobs := s.jobs - {id});
    match reply
    case Failed =>
      assert CurrentReads(done) == CurrentReads(s) - {id};
      assert CurrentChildReads(done) == CurrentChildReads(s);
      SameJobs(done, Refused(done));
    case Ok(snapshot) =>
      CompleteReady(s, id, snapshot);
      if s.reading.resync {
        FetchConversationKeeps(Again(done));
      } else if Replay(FromSnapshot(snapshot), s.reading.buffered).1 {
        FetchConversationKeeps(Adopted(done, s.jobs[id].resets, snapshot));
      }
  }

  /** What a child's reply does not touch. */
  lemma ChildHolds(s: State, s': State, id: nat)
    requires Inv(s) && s.connected && id in CurrentChildReads(s) && s'.shown.limit == s.shown.limit
    requires s' == s.(jobs := s.jobs - {id}, childPending := false, childSeen := s'.childSeen, shown := s'.shown,
                      history := s.history.(heard := s'.history.heard))
    ensures Stable(s') && SettledInv(s') && PastInv(s')
  {
  }

  lemma CompleteChildKeeps(s: State, id: nat, reply: Reply)
    requires Inv(s) && s.connected && id in CurrentChildReads(s)
    ensures Inv(OnChild(s.(jobs := s.jobs - {id}), reply))
  {
    hide Replay, Apply, Stands, FewHeld, Bounded, Settled, HeldInv, SettledInv, PastInv;
    var s' := OnChild(s.(jobs := s.jobs - {id}), reply);
    ChildHolds(s, s', id);
    assert CurrentReads(s') == CurrentReads(s);
    assert CurrentChildReads(s') == CurrentChildReads(s) - {id};
  }

  /** While disconnected nothing current is claimed, so any reply may be taken. */
  lemma CompleteOfflineKeeps(s: State, id: nat, reply: Reply)
    requires Inv(s) && !s.connected && id in s.jobs
    ensures Inv(OnReply(s, id, reply))
  {
    hide Replay, Apply, Stands, FewHeld;
  }

  lemma ReplyKeeps(s: State, id: nat, reply: Reply)
    requires Inv(s) && id in s.jobs
    ensures Inv(OnReply(s, id, reply))
  {
    hide Replay, Apply, Stands, OnConversation, OnChild;
    if !s.connected {
      CompleteOfflineKeeps(s, id, reply);
    } else if !Current(s, s.jobs[id]) {
      var r := s.(jobs := s.jobs - {id});
      assert CurrentReads(r) == CurrentReads(s);
      assert CurrentChildReads(r) == CurrentChildReads(s);
    } else if s.jobs[id].ReadConversation? {
      CompleteConversationKeeps(s, id, reply);
    } else {
      CompleteChildKeeps(s, id, reply);
    }
  }

  // ---- every run ---------------------------------------------------------

  lemma FleetKeeps(s: State, sessions: set<Session>)
    requires Inv(s)
    ensures Inv(s.(sessions := sessions))
  {
    SameJobs(s, s.(sessions := sessions));
  }

  lemma RefreshReady(s: State)
    requires Inv(s)
    ensures Ready(s.(shown := s.shown.(loading := s.connected && s.screen.selected.Some?)))
  {
    SameJobs(s, s.(shown := s.shown.(loading := s.connected && s.screen.selected.Some?)));
  }

  /** A wider window is only asked for when no read is out. */
  lemma WiderReady(s: State)
    requires Inv(s) && !s.reading.pending
    ensures var t := s.(shown := s.shown.(limit := s.shown.limit + PAGE));
      if s.screen.child.Some? then Inv(t) else Ready(t)
  {
    var t := s.(shown := s.shown.(limit := s.shown.limit + PAGE));
    SameJobs(s, t);
    forall id | id in t.jobs && Current(t, t.jobs[id]) ensures !t.jobs[id].ReadConversation? {
      assert Current(s, s.jobs[id]);
      assert s.jobs[id].ReadConversation? ==> id in CurrentReads(s);
    }
  }

  lemma StepKeeps(s: State, step: Step)
    requires Inv(s) && Enabled(s, step)
    ensures Inv(Next(s, step))
  {
    hide Inv, Connected, Disconnected, SelectScreen, ShowChild, Fetch, FetchConversation, OnDelta, OnReply;
    match step
    case Connect => ConnectKeeps(s);
    case Disconnect => DisconnectKeeps(s);
    case Fleet(sessions) => FleetKeeps(s, sessions);
    case Select(id) => SelectStep(s, id);
    case ViewChild(target) => ShowChildKeeps(s, target);
    case Poll => FetchStep(s);
    case Refresh =>
      RefreshReady(s);
      FetchKeeps(s.(shown := s.shown.(loading := s.connected && s.screen.selected.Some?)));
    case LoadOlder(hasOlder) =>
      if hasOlder && !s.reading.pending { OlderStep(s); }
    case Receive(delta, size) => DeltaKeeps(s, delta, size);
    case Complete(job, reply) => ReplyKeeps(s, job, reply);
  }

  lemma SelectStep(s: State, id: Option<Session>)
    requires Inv(s)
    ensures Inv(SelectScreen(s, id))
  {
    SelectKeeps(s, id);
  }

  lemma InvReady(s: State)
    requires Inv(s)
    ensures Ready(s)
  {
  }

  lemma FetchStep(s: State)
    requires Inv(s)
    ensures Inv(Fetch(s))
  {
    FetchKeeps(s);
  }

  lemma OlderStep(s: State)
    requires Inv(s) && !s.reading.pending
    ensures Inv(FetchConversation(s.(shown := s.shown.(limit := s.shown.limit + PAGE))))
  {
    WiderReady(s);
    FetchConversationKeeps(s.(shown := s.shown.(limit := s.shown.limit + PAGE)));
  }

  lemma {:induction false} RunKeeps(steps: seq<Step>)
    requires Exec(steps).Some?
    ensures Inv(Exec(steps).value)
  {
    hide Next;
    if steps != [] {
      RunKeeps(steps[..|steps| - 1]);
      StepKeeps(Exec(steps[..|steps| - 1]).value, steps[|steps| - 1]);
    }
  }
}
