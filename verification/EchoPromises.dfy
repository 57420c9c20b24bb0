/** Every message sent is accounted for. */
module EchoPromises {
  import opened Wrappers
  import opened Echo

  // In every run, tidy or not.

  predicate Waits(pending: seq<Pending>, n: nat) {
    exists i :: 0 <= i < |pending| && pending[i].number == n
  }

  predicate Acked(acks: seq<Ack>, n: nat) {
    exists i :: 0 <= i < |acks| && acks[i].number == n
  }

  predicate Rising(pending: seq<Pending>, low: int) {
    (forall i, j :: 0 <= i < j < |pending| ==> pending[i].number < pending[j].number) &&
    forall i :: 0 <= i < |pending| ==> low < pending[i].number
  }

  /** A waiting send is as it was sent. */
  predicate AsSent(pending: seq<Pending>, sent: seq<(nat, string)>) {
    forall p :: p in pending ==> p.number < |sent| && sent[p.number] == (p.session, p.text)
  }

  /** The row that acknowledged a send repeats it in its own session. */
  predicate Echoed(rows: seq<Row>, a: Ack, sent: seq<(nat, string)>) {
    && a.number < |sent| && a.session == sent[a.number].0
    && a.row < |rows| && rows[a.row] == Row(true, sent[a.number].1)
  }

  ghost predicate Accounted(s: State) {
    && |s.sent| == s.next && |s.pending| <= 32 && Rising(s.pending, -1) && AsSent(s.pending, s.sent)
    && (forall a :: a in s.acks ==> Echoed(Rows(s, a.session), a, s.sent))
    && (forall i, j :: 0 <= i < j < |s.acks| ==> s.acks[i].number != s.acks[j].number)
    && (forall n: nat :: Waits(s.pending, n) <==> n < s.next && !Acked(s.acks, n) && n !in s.failed)
    && (s.busy.Some? ==> s.busy.value < s.next)
    && (forall n :: n in s.failed ==> n < s.next)
  }

  lemma WaitsCons(p: Pending, pending: seq<Pending>, n: nat)
    ensures Waits([p] + pending, n) <==> p.number == n || Waits(pending, n)
  {
    var all := [p] + pending;
    if Waits(pending, n) {
      var i :| 0 <= i < |pending| && pending[i].number == n;
      assert all[i + 1].number == n;
    }
    if p.number == n { assert all[0].number == n; }
  }

  lemma AckedCons(a: Ack, acks: seq<Ack>, n: nat)
    ensures Acked([a] + acks, n) <==> a.number == n || Acked(acks, n)
  {
    var all := [a] + acks;
    if Acked(acks, n) {
      var i :| 0 <= i < |acks| && acks[i].number == n;
      assert all[i + 1].number == n;
    }
    if a.number == n { assert all[0].number == n; }
  }

  lemma {:induction false} AckedConcat(a: seq<Ack>, b: seq<Ack>, n: nat)
    ensures Acked(a + b, n) <==> Acked(a, n) || Acked(b, n)
  {
    if a == [] {
      assert a + b == b;
    } else {
      assert a + b == [a[0]] + (a[1..] + b) && a == [a[0]] + a[1..];
      AckedConcat(a[1..], b, n);
      AckedCons(a[0], a[1..] + b, n);
      AckedCons(a[0], a[1..], n);
    }
  }

  lemma NotWaiting(pending: seq<Pending>, low: nat)
    requires Rising(pending, low)
    ensures forall n: nat :: n <= low ==> !Waits(pending, n)
  {
  }

  /** A frame takes each send it acknowledges off the list, and no other. */
  lemma {:induction false} FrameSplits(
      rows: seq<Row>, session: nat, pending: seq<Pending>, consumed: int, low: int, n: nat)
    requires -1 <= consumed && Rising(pending, low)
    ensures var o := Reconcile(rows, session, pending, consumed);
      && Rising(o.kept, low) && |o.kept| + |o.acks| == |pending|
      && (Waits(pending, n) <==> Waits(o.kept, n) || Acked(o.acks, n)) && !(Waits(o.kept, n) && Acked(o.acks, n))
      && (forall i, j :: 0 <= i < j < |o.acks| ==> o.acks[i].number < o.acks[j].number)
      && (forall i :: 0 <= i < |o.acks| ==> low < o.acks[i].number)
    decreases |pending|
  {
    hide Match, Kept;
    if pending != [] {
      var p := pending[0];
      var ix, next := Match(rows, session, p, consumed), After(rows, session, p, consumed);
      FrameSplits(rows, session, pending[1..], next, p.number, n);
      var rest := Reconcile(rows, session, pending[1..], next);
      assert pending == [p] + pending[1..];
      WaitsCons(p, pending[1..], n);
      NotWaiting(pending[1..], p.number);
      if ix >= 0 {
        AckedCons(Ack(p.number, session, ix), rest.acks, n);
      } else {
        KeptIsItself(rows, session, p, consumed);
        WaitsCons(Kept(rows, session, p, consumed), rest.kept, n);
      }
    }
  }

  lemma KeptIsItself(rows: seq<Row>, session: nat, p: Pending, consumed: int)
    requires -1 <= consumed
    ensures var q := Kept(rows, session, p, consumed);
      q.number == p.number && q.session == p.session && q.text == p.text
  {
  }

  lemma {:induction false} FrameEchoes(
      rows: seq<Row>, session: nat, pending: seq<Pending>, consumed: int, sent: seq<(nat, string)>)
    requires -1 <= consumed && AsSent(pending, sent)
    ensures var o := Reconcile(rows, session, pending, consumed);
      AsSent(o.kept, sent) && forall a :: a in o.acks ==> a.session == session && Echoed(rows, a, sent)
    decreases |pending|
  {
    if pending != [] {
      var p := pending[0];
      assert p in pending;
      FrameEchoes(rows, session, pending[1..], After(rows, session, p, consumed), sent);
    }
  }

  lemma {:induction false} DroppingWaits(pending: seq<Pending>, number: nat, n: nat)
    ensures Waits(Dropping(pending, number), n) <==> Waits(pending, n) && n != number
    decreases |pending|
  {
    hide Waits;
    if pending == [] {
      NoneWait(n);
    } else {
      DroppingWaits(pending[1..], number, n);
      assert pending == [pending[0]] + pending[1..];
      WaitsCons(pending[0], pending[1..], n);
      WaitsCons(pending[0], Dropping(pending[1..], number), n);
      assert [] + Dropping(pending[1..], number) == Dropping(pending[1..], number);
    }
  }

  lemma NoneWait(n: nat)
    ensures !Waits([], n)
  {
  }

  lemma {:induction false} DroppingRises(pending: seq<Pending>, number: nat, low: int)
    requires Rising(pending, low)
    ensures Rising(Dropping(pending, number), low)
    decreases |pending|
  {
    if pending != [] {
      DroppingRises(pending[1..], number, pending[0].number);
    }
  }

  lemma {:induction false} DroppingShrinks(pending: seq<Pending>, number: nat)
    ensures |Dropping(pending, number)| <= |pending|
  {
    if pending != [] { DroppingShrinks(pending[1..], number); }
  }

  lemma FrameAccounts(s: State)
    requires Accounted(s)
    ensures Accounted(Next(s, Frame))
  {
    hide Reconcile, Rows, Rising;
    var rows, t := Rows(s, s.selected), Next(s, Frame);
    var o := Reconcile(rows, s.selected, s.pending, -1);
    forall n: nat
      ensures Waits(o.kept, n) <==> n < s.next && !Acked(s.acks + o.acks, n) && n !in s.failed
    {
      FrameSplits(rows, s.selected, s.pending, -1, -1, n);
      AckedConcat(s.acks, o.acks, n);
    }
    FrameSplits(rows, s.selected, s.pending, -1, -1, 0);
    FrameEchoes(rows, s.selected, s.pending, -1, s.sent);
    forall i, j | 0 <= i < j < |t.acks| ensures t.acks[i].number != t.acks[j].number {
      if i < |s.acks| <= j {
        assert t.acks[j] == o.acks[j - |s.acks|];
        FrameSplits(rows, s.selected, s.pending, -1, -1, t.acks[j].number);
        assert Acked(o.acks, t.acks[j].number);
        assert Acked(s.acks, t.acks[i].number);
      }
    }
    RowsStay(s, t);
  }

  lemma RowsStay(s: State, t: State)
    requires s.rows == t.rows
    ensures forall k :: Rows(t, k) == Rows(s, k)
  {
  }

  lemma SendAccounts(s: State, text: string)
    requires Accounted(s) && Enabled(s, Send(text))
    ensures Accounted(Next(s, Send(text)))
  {
    hide Rows, Anchor;
    var t := Next(s, Send(text));
    RowsStay(s, t);
    var p := t.pending[|s.pending|];
    forall i | 0 <= i < |s.pending| ensures s.pending[i].number < s.next {
      assert Waits(s.pending, s.pending[i].number);
    }
    forall n: nat ensures Waits(t.pending, n) <==> Waits(s.pending, n) || n == s.next {
      if Waits(s.pending, n) {
        var i :| 0 <= i < |s.pending| && s.pending[i].number == n;
        assert t.pending[i].number == n;
      }
      assert t.pending[|s.pending|].number == s.next;
    }
    forall i | 0 <= i < |s.acks| ensures s.acks[i].number < s.next { assert s.acks[i] in s.acks; }
    assert !Acked(s.acks, s.next);
  }

  lemma SentAccounts(s: State, ok: bool)
    requires Accounted(s) && Enabled(s, Sent(ok))
    ensures Accounted(Next(s, Sent(ok)))
  {
    hide Rows, Dropping, Rising, Waits;
    var t := Next(s, Sent(ok));
    RowsStay(s, t);
    if !ok {
      forall n: nat ensures Waits(t.pending, n) <==> Waits(s.pending, n) && n != s.busy.value {
        DroppingWaits(s.pending, s.busy.value, n);
      }
      DroppingRises(s.pending, s.busy.value, -1);
      DroppingIn(s.pending, s.busy.value);
      DroppingShrinks(s.pending, s.busy.value);
    }
  }

  lemma StepAccounts(s: State, step: Step)
    requires Accounted(s) && Enabled(s, step)
    ensures Accounted(Next(s, step))
  {
    hide Waits, Rising;
    match step
    case Append(session, row) =>
      forall a | a in s.acks ensures Echoed(Rows(Next(s, step), a.session), a, s.sent) {
        assert Echoed(Rows(s, a.session), a, s.sent);
      }
    case Send(text) => SendAccounts(s, text);
    case Sent(ok) => SentAccounts(s, ok);
    case Frame => FrameAccounts(s);
    case Show(_) => RowsStay(s, Next(s, step));
  }

  lemma {:induction false} RunAccounts(steps: seq<Step>)
    requires Exec(Init(), steps).Some?
    ensures Accounted(Exec(Init(), steps).value)
  {
    hide Next, Accounted;
    if steps == [] {
      NothingSent();
    } else {
      RunAccounts(steps[..|steps| - 1]);
      StepAccounts(Exec(Init(), steps[..|steps| - 1]).value, steps[|steps| - 1]);
    }
  }

  lemma NothingSent()
    ensures Accounted(Init())
  {
  }

  /** Whatever the run, a message waits until a row that repeats it in its session acknowledges it, or its
      own action fails; it is acknowledged once, and at most 32 wait. */
  lemma EverySendIsAccountedFor(steps: seq<Step>, n: nat)
    requires Exec(Init(), steps).Some? && n < |Exec(Init(), steps).value.sent|
    ensures var s := Exec(Init(), steps).value;
      && (Waits(s.pending, n) <==> !Acked(s.acks, n) && n !in s.failed) && |s.pending| <= 32
      && (forall i, j :: 0 <= i < j < |s.acks| ==> s.acks[i].number != s.acks[j].number)
      && (forall a :: a in s.acks && a.number == n ==>
            && a.session == s.sent[n].0 && a.row < |Rows(s, a.session)|
            && Rows(s, a.session)[a.row] == Row(true, s.sent[n].1))
  {
    hide Exec;
    RunAccounts(steps);
  }

  /** Only a failed action gives a message up, and only its own. */
  lemma OnlyItsFailureGivesUp(s: State, step: Step, n: nat)
    requires Accounted(s) && Enabled(s, step) && n < s.next && n !in s.failed
    ensures n in Next(s, step).failed <==> step == Sent(false) && s.busy == Some(n)
  {
  }

  /** A frame leaves alone what it does not look at: another session's send, and one whose anchor is gone. */
  lemma {:induction false} FrameLeavesTheOthers(
      rows: seq<Row>, session: nat, pending: seq<Pending>, consumed: int, p: Pending)
    requires -1 <= consumed && p in pending
    requires p.session != session || (p.before.Some? && p.before.value >= |rows|)
    ensures p in Reconcile(rows, session, pending, consumed).kept
    decreases |pending|
  {
    if p != pending[0] {
      FrameLeavesTheOthers(rows, session, pending[1..], After(rows, session, pending[0], consumed), p);
    }
  }

  /** A message goes to the session shown, and waits there for its echo. */
  lemma SendGoesToTheSessionShown(s: State, session: nat, text: string)
    requires Accounted(s) && s.busy.None? && |s.pending| < 32
    ensures Enabled(Next(s, Show(session)), Send(text))
    ensures var t := Next(Next(s, Show(session)), Send(text));
      t.sent == s.sent + [(session, text)] && Waits(t.pending, s.next)
  {
    hide LastYou, Accounted;
    var t := Next(Next(s, Show(session)), Send(text));
    assert t.pending[|s.pending|].number == s.next;
  }

  // ---- nothing is left waiting -------------------------------------------

  predicate AckAt(acks: seq<Ack>, session: nat, row: int) {
    exists i :: 0 <= i < |acks| && acks[i].session == session && acks[i].row == row
  }

  /** An anchor is where it was set, or moved to a row that acknowledged another send. */
  predicate Anchored(p: Pending, acks: seq<Ack>, lastSeen: seq<int>) {
    p.number < |lastSeen| && (Boundary(p) == lastSeen[p.number] || AckAt(acks, p.session, Boundary(p)))
  }

  predicate AnchoredAll(pending: seq<Pending>, acks: seq<Ack>, lastSeen: seq<int>) {
    forall i :: 0 <= i < |pending| ==> Anchored(pending[i], acks, lastSeen)
  }

  lemma AckAtConcat(a: seq<Ack>, b: seq<Ack>, session: nat, row: int)
    requires AckAt(a, session, row) || AckAt(b, session, row)
    ensures AckAt(a + b, session, row)
  {
    if AckAt(a, session, row) {
      var i :| 0 <= i < |a| && a[i].session == session && a[i].row == row;
      assert (a + b)[i] == a[i];
    } else {
      var i :| 0 <= i < |b| && b[i].session == session && b[i].row == row;
      assert (a + b)[|a| + i] == b[i];
    }
  }

  lemma AnchorsGrow(pending: seq<Pending>, acks: seq<Ack>, more: seq<Ack>, lastSeen: seq<int>)
    requires AnchoredAll(pending, acks, lastSeen)
    ensures AnchoredAll(pending, acks + more, lastSeen)
  {
    hide AckAt;
    forall i | 0 <= i < |pending| ensures Anchored(pending[i], acks + more, lastSeen) {
      var p := pending[i];
      if AckAt(acks, p.session, Boundary(p)) { AckAtConcat(acks, more, p.session, Boundary(p)); }
    }
  }

  lemma KeptAnchored(
      rows: seq<Row>, session: nat, p: Pending, consumed: int, acks: seq<Ack>, more: seq<Ack>, lastSeen: seq<int>)
    requires -1 <= consumed && Anchored(p, acks, lastSeen) && (consumed >= 0 ==> AckAt(acks, session, consumed))
    ensures Anchored(Kept(rows, session, p, consumed), acks + more, lastSeen)
  {
    hide AckAt;
    var q := Kept(rows, session, p, consumed);
    if AckAt(acks, q.session, Boundary(q)) { AckAtConcat(acks, more, q.session, Boundary(q)); }
  }

  lemma AnchoredCons(q: Pending, rest: seq<Pending>, acks: seq<Ack>, lastSeen: seq<int>)
    requires Anchored(q, acks, lastSeen) && AnchoredAll(rest, acks, lastSeen)
    ensures AnchoredAll([q] + rest, acks, lastSeen)
  {
    hide Anchored;
  }

  lemma AnchoredTail(pending: seq<Pending>, acks: seq<Ack>, lastSeen: seq<int>)
    requires pending != [] && AnchoredAll(pending, acks, lastSeen)
    ensures Anchored(pending[0], acks, lastSeen) && AnchoredAll(pending[1..], acks, lastSeen)
  {
    hide Anchored;
  }

  lemma {:induction false} FrameAnchors(
      rows: seq<Row>, session: nat, pending: seq<Pending>, consumed: int, acks: seq<Ack>, lastSeen: seq<int>)
    requires -1 <= consumed && AnchoredAll(pending, acks, lastSeen)
    requires consumed >= 0 ==> AckAt(acks, session, consumed)
    ensures var o := Reconcile(rows, session, pending, consumed);
      AnchoredAll(o.kept, acks + o.acks, lastSeen)
    decreases |pending|
  {
    hide AckAt, Anchored, AnchoredAll, Match, Kept;
    if pending == [] {
      assert acks + [] == acks && AnchoredAll([], acks, lastSeen);
    } else {
      var p := pending[0];
      var ix, next := Match(rows, session, p, consumed), After(rows, session, p, consumed);
      var one := if ix >= 0 then [Ack(p.number, session, ix)] else [];
      if ix >= 0 { assert AckAt(one, session, ix) by { Single(p.number, session, ix); } }
      AnchoredTail(pending, acks, lastSeen);
      AnchorsGrow(pending[1..], acks, one, lastSeen);
      if next >= 0 { AckAtConcat(acks, one, session, next); }
      FrameAnchors(rows, session, pending[1..], next, acks + one, lastSeen);
      var o := Reconcile(rows, session, pending, consumed);
      var rest := Reconcile(rows, session, pending[1..], next);
      assert acks + one + rest.acks == acks + o.acks;
      if ix < 0 {
        KeptAnchored(rows, session, p, consumed, acks, o.acks, lastSeen);
        AnchoredCons(Kept(rows, session, p, consumed), rest.kept, acks + o.acks, lastSeen);
      }
    }
  }

  lemma Single(number: nat, session: nat, row: nat)
    ensures AckAt([Ack(number, session, row)], session, row)
  {
    assert [Ack(number, session, row)][0].row == row;
  }

  predicate AllAnchored(s: State) {
    |s.lastSeen| == s.next && AnchoredAll(s.pending, s.acks, s.lastSeen)
  }

  lemma {:induction false} DroppingAnchors(pending: seq<Pending>, number: nat, acks: seq<Ack>, lastSeen: seq<int>)
    requires AnchoredAll(pending, acks, lastSeen)
    ensures AnchoredAll(Dropping(pending, number), acks, lastSeen)
  {
    hide Anchored;
    if pending != [] { DroppingAnchors(pending[1..], number, acks, lastSeen); }
  }

  lemma SendAnchors(s: State, text: string)
    requires AllAnchored(s)
    ensures AllAnchored(Next(s, Send(text)))
  {
    hide AckAt, LastYou;
    var t := Next(s, Send(text));
    LastYouBounds(Rows(s, s.selected));
    forall i | 0 <= i < |t.pending| ensures Anchored(t.pending[i], t.acks, t.lastSeen) {
      if i < |s.pending| { assert Anchored(s.pending[i], s.acks, s.lastSeen); }
    }
  }

  lemma LastYouBounds(rows: seq<Row>)
    ensures LastYou(rows) >= -1
  {
  }

  lemma AnchorsStay(s: State, step: Step)
    requires AllAnchored(s) && Enabled(s, step)
    ensures AllAnchored(Next(s, step))
  {
    hide AnchoredAll, Reconcile, LastYou;
    match step
    case Send(text) => SendAnchors(s, text);
    case Sent(ok) => DroppingAnchors(s.pending, s.busy.value, s.acks, s.lastSeen);
    case Frame => FrameAnchors(Rows(s, s.selected), s.selected, s.pending, -1, s.acks, s.lastSeen);
    case _ =>
  }

  lemma {:induction false} RunAnchors(steps: seq<Step>)
    requires Exec(Init(), steps).Some?
    ensures AllAnchored(Exec(Init(), steps).value)
  {
    hide Next, AllAnchored;
    if steps == [] {
      assert AllAnchored(Init()) by { NoAnchors(); }
    } else {
      RunAnchors(steps[..|steps| - 1]);
      AnchorsStay(Exec(Init(), steps[..|steps| - 1]).value, steps[|steps| - 1]);
    }
  }

  lemma NoAnchors()
    ensures AllAnchored(Init())
  {
  }

  /** After a frame of a run whose sends were tidy, a message on screen waits although a row after its
      sending repeats it only when a row at or after that one acknowledged another message. */
  lemma TidyFramesMissNothing(steps: seq<Step>, p: Pending, k: nat)
    requires Exec(Init(), steps).Some? && TidySends(Init(), steps)
    requires var s := Next(Exec(Init(), steps).value, Frame);
      && p in s.pending && p.session == s.selected && p.number < |s.lastSeen|
      && s.lastSeen[p.number] < k < |Rows(s, s.selected)| && Rows(s, s.selected)[k] == Row(true, p.text)
    ensures var s := Next(Exec(Init(), steps).value, Frame);
      exists i :: 0 <= i < |s.acks| && s.acks[i].session == p.session && k <= s.acks[i].row
  {
    hide Exec, Reconcile, LastYou, TidySends, Ordered;
    var s := Exec(Init(), steps).value;
    var rows, t := Rows(s, s.selected), Next(s, Frame);
    RunKeeps(steps);
    RunAnchors(steps);
    AnchorsStay(s, Frame);
    assert SessionInv(s, s.selected);
    KeptStillWait(rows, s.selected, s.pending, -1);
    assert Waiting(rows, p) && Echoes(rows, p, k);
    var i :| 0 <= i < |t.pending| && t.pending[i] == p;
    assert Anchored(t.pending[i], t.acks, t.lastSeen);
  }
}
