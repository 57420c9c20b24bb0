/** Where echo matching goes wrong (controller.rs). */
module EchoLimits {
  import opened Wrappers
  import opened Echo

  // Tidiness is exact: a send from any untidy state can be acknowledged by a row shown before it was
  // sent, and with room for two more a row can acknowledge two sends.

  lemma {:induction false} Split(rows: seq<Row>, session: nat, a: seq<Pending>, b: seq<Pending>, consumed: int)
    requires -1 <= consumed
    ensures var x := Reconcile(rows, session, a, consumed);
      var y := Reconcile(rows, session, b, x.consumed);
      Reconcile(rows, session, a + b, consumed) == Outcome(x.kept + y.kept, x.acks + y.acks, y.consumed)
    decreases |a|
  {
    if a == [] {
      assert a + b == b;
    } else {
      assert (a + b)[1..] == a[1..] + b;
      Split(rows, session, a[1..], b, After(rows, session, a[0], consumed));
    }
  }

  lemma Single(rows: seq<Row>, session: nat, p: Pending, consumed: int)
    requires -1 <= consumed
    ensures Reconcile(rows, session, [p], consumed) ==
      if Match(rows, session, p, consumed) >= 0
      then Outcome([], [Ack(p.number, session, Match(rows, session, p, consumed))], Match(rows, session, p, consumed))
      else Outcome([Kept(rows, session, p, consumed)], [], consumed)
  {
    assert [p][1..] == [];
  }

  /** A row nobody waits for changes nothing. */
  lemma {:induction false} StrangeRow(rows: seq<Row>, row: Row, session: nat, pending: seq<Pending>, consumed: int)
    requires -1 <= consumed < |rows| || consumed == -1
    requires forall p :: p in pending && p.session == session ==> p.text != row.text && Boundary(p) < |rows|
    ensures Reconcile(rows + [row], session, pending, consumed) == Reconcile(rows, session, pending, consumed)
    decreases |pending|
  {
    if pending != [] {
      var p := pending[0];
      assert p in pending;
      if p.session == session {
        FindAppend(rows, p, Start(p, consumed), row);
      }
      StrangeRow(rows, row, session, pending[1..], After(rows, session, p, consumed));
    }
  }

  // ---- a text nobody has used --------------------------------------------

  function Repeat(n: nat): string {
    if n == 0 then "" else Repeat(n - 1) + "d"
  }

  lemma {:induction false} RepeatLength(n: nat)
    ensures |Repeat(n)| == n
  {
    if n > 0 { RepeatLength(n - 1); }
  }

  lemma {:induction false} Bound(texts: seq<string>) returns (n: nat)
    ensures forall t :: t in texts ==> |t| < n
  {
    n := 0;
    if texts != [] {
      var m := Bound(texts[1..]);
      n := if |texts[0]| < m then m else |texts[0]| + 1;
      assert texts == [texts[0]] + texts[1..];
    }
  }

  lemma NewText(rows: seq<Row>, pending: seq<Pending>) returns (text: string)
    ensures forall i :: 0 <= i < |rows| ==> rows[i].text != text
    ensures forall p :: p in pending ==> p.text != text
  {
    var texts := seq(|rows|, i requires 0 <= i < |rows| => rows[i].text)
               + seq(|pending|, i requires 0 <= i < |pending| => pending[i].text);
    var n := Bound(texts);
    text := Repeat(n);
    RepeatLength(n);
    forall i | 0 <= i < |rows| ensures rows[i].text != text {
      assert texts[i] == rows[i].text;
      assert texts[i] in texts;
    }
    forall p | p in pending ensures p.text != text {
      var i :| 0 <= i < |pending| && pending[i] == p;
      assert texts[|rows| + i] == p.text;
      assert texts[|rows| + i] in texts;
    }
  }

  // ---- three frames ------------------------------------------------------

  /** The first frame: `x` finds nothing and its boundary falls back to `c`; `y` takes row `n`. */
  lemma FirstFrame(rows: seq<Row>, row: Row, session: nat, pending: seq<Pending>, x: Pending, y: Pending)
    requires Sorted(rows, session, pending) && Ordered(rows, session, pending, -1)
    requires row.you && forall p :: p in pending ==> p.text != row.text
    requires var c := Reconcile(rows, session, pending, -1).consumed; 0 <= c < LastYou(rows)
    requires x.session == session == y.session && Boundary(x) == LastYou(rows) == Boundary(y)
    requires x.text != row.text && y.text == row.text
    ensures var o := Reconcile(rows, session, pending, -1);
      Reconcile(rows + [row], session, pending + [x, y], -1) ==
        Outcome(o.kept + [x.(before := Some(o.consumed))], o.acks + [Ack(y.number, session, |rows|)], |rows|)
  {
    hide Reconcile, Ordered;
    var more := rows + [row];
    var o := Reconcile(rows, session, pending, -1);
    forall p | p in pending && p.session == session ensures Boundary(p) < |rows| {}
    StrangeRow(rows, row, session, pending, -1);
    Split(more, session, pending, [x, y], -1);
    NewestTwo(rows, row, session, x, y, o.consumed);
  }

  lemma NewestTwo(rows: seq<Row>, row: Row, session: nat, x: Pending, y: Pending, c: int)
    requires 0 <= c < LastYou(rows) && row.you
    requires x.session == session == y.session && Boundary(x) == LastYou(rows) == Boundary(y)
    requires x.text != row.text && y.text == row.text
    ensures Reconcile(rows + [row], session, [x, y], c) ==
      Outcome([x.(before := Some(c))], [Ack(y.number, session, |rows|)], |rows|)
  {
    hide Reconcile;
    var more := rows + [row];
    assert [x, y] == [x] + [y];
    Split(more, session, [x], [y], c);
    Single(more, session, x, c);
    Single(more, session, y, c);
    assert Match(more, session, x, c) < 0;
    assert Find(more, y, LastYou(rows) + 1) == |rows| by {
      assert Echoes(more, y, |rows|);
    }
  }

  /** A later frame in which only the last two sends can find anything. */
  lemma LaterFrame(rows: seq<Row>, session: nat, quiet: seq<Pending>, x: Pending, z: Pending)
    requires forall p :: p in quiet && p.session == session ==> Waiting(rows, p)
    requires x.session == session == z.session && Boundary(x) < |rows| && Boundary(z) == |rows| - 1
    requires exists k :: Boundary(x) < k < |rows| && Echoes(rows, x, k)
    ensures var r := Find(rows, x, Boundary(x) + 1);
      && Boundary(x) < r < |rows|
      && Reconcile(rows, session, quiet + [x, z], -1) ==
           Outcome(quiet + [z.(before := Some(r))], [Ack(x.number, session, r)], r)
  {
    forall i | 0 <= i < |quiet| && quiet[i].session == session ensures Waiting(rows, quiet[i]) {
      assert quiet[i] in quiet;
    }
    QuietFrame(rows, session, quiet);
    Split(rows, session, quiet, [x, z], -1);
    assert [x, z] == [x] + [z];
    var r := Find(rows, x, Boundary(x) + 1);
    Split(rows, session, [x], [z], -1);
    Single(rows, session, x, -1);
    Single(rows, session, z, r);
  }

  lemma LastFrame(rows: seq<Row>, session: nat, quiet: seq<Pending>, z: Pending)
    requires forall p :: p in quiet && p.session == session ==> Waiting(rows, p)
    requires z.session == session && Boundary(z) < |rows| - 1
    requires Echoes(rows, z, |rows| - 1) && forall k :: 0 <= k < |rows| - 1 ==> !Echoes(rows, z, k)
    ensures Reconcile(rows, session, quiet + [z], -1) ==
      Outcome(quiet, [Ack(z.number, session, |rows| - 1)], |rows| - 1)
  {
    forall i | 0 <= i < |quiet| && quiet[i].session == session ensures Waiting(rows, quiet[i]) {
      assert quiet[i] in quiet;
    }
    QuietFrame(rows, session, quiet);
    Split(rows, session, quiet, [z], -1);
    Single(rows, session, z, -1);
    assert quiet + [] == quiet;
  }

  // ---- the run -----------------------------------------------------------

  lemma {:induction false} Then(from: State, steps: seq<Step>, s: State, step: Step)
    requires Exec(from, steps) == Some(s) && Enabled(s, step)
    ensures Exec(from, steps + [step]) == Some(Next(s, step))
  {
    assert (steps + [step])[..|steps|] == steps;
  }

  /** Two sends and a row: what they leave, before any frame. */
  lemma {:induction false} TwoSends(s: State, text: string, other: string, row: Row)
    returns (steps: seq<Step>, end: State)
    requires s.busy.None? && |s.pending| + 2 <= MAX_PENDING
    ensures |steps| == 5 && steps[0] == Send(text) && Exec(s, steps) == Some(end)
    ensures var anchor := Anchor(Rows(s, s.selected));
      end == s.(rows := s.rows[s.selected := Rows(s, s.selected) + [row]],
                pending := s.pending + [Pending(s.next, s.selected, text, anchor),
                                        Pending(s.next + 1, s.selected, other, anchor)],
                next := s.next + 2,
                lastSeen := s.lastSeen + [LastYou(Rows(s, s.selected)), LastYou(Rows(s, s.selected))],
                sent := s.sent + [(s.selected, text), (s.selected, other)])
  {
    hide LastYou;
    var a := Next(s, Send(text));
    var b := Next(a, Sent(true));
    var c := Next(b, Send(other));
    var d := Next(c, Sent(true));
    end := Next(d, Append(s.selected, row));
    Then(s, [], s, Send(text));
    Then(s, [] + [Send(text)], a, Sent(true));
    Then(s, [] + [Send(text)] + [Sent(true)], b, Send(other));
    Then(s, [] + [Send(text)] + [Sent(true)] + [Send(other)], c, Sent(true));
    Then(s, [] + [Send(text)] + [Sent(true)] + [Send(other)] + [Sent(true)], d, Append(s.selected, row));
    steps := [] + [Send(text)] + [Sent(true)] + [Send(other)] + [Sent(true)] + [Append(s.selected, row)];
    assert d.pending == s.pending + [Pending(s.next, s.selected, text, Anchor(Rows(s, s.selected)))]
                        + [Pending(s.next + 1, s.selected, other, Anchor(Rows(s, s.selected)))];
  }

  /** With a waiting send whose echo is already shown before the newest "You" row, sending once
      more can end with one row acknowledging two sends. */
  lemma {:induction false} UntidySendCanDoubleAcknowledge(s: State) returns (steps: seq<Step>, first: int, second: int)
    requires Inv(s) && s.busy.None? && |s.pending| + 2 <= MAX_PENDING && !Tidy(s)
    ensures steps != [] && steps[0].Send? && Exec(s, steps).Some?
    ensures var acks := Exec(s, steps).value.acks;
      && 0 <= first < second < |acks|
      && acks[first].session == acks[second].session && acks[first].row == acks[second].row
      && acks[first].number != acks[second].number
  {
    hide Ordered, LastYou, Reconcile, Waiting, Sorted, Spent, Used, OneRowOneSend, Numbered;
    var k, rows := s.selected, Rows(s, s.selected);
    assert SessionInv(s, k);
    var o := Reconcile(rows, k, s.pending, -1);
    KeptFacts(rows, k, s.pending, -1, -1);
    var last := LastYou(rows);
    LastYouFacts(rows);
    var d := NewText(rows, s.pending);
    var row := Row(true, d);
    var more := rows + [row];
    LastYouAppend(rows, row);

    var s5: State;
    steps, s5 := TwoSends(s, rows[last].text, d, row);
    var x, y := Pending(s.next, k, rows[last].text, Some(last)), Pending(s.next + 1, k, d, Some(last));
    FirstFrame(rows, row, k, s.pending, x, y);
    var x' := x.(before := Some(o.consumed));
    Then(s, steps, s5, Frame);
    steps := steps + [Frame];
    var s6 := Next(s5, Frame);
    assert s6.pending == o.kept + [x'] && s6.acks == s.acks + (o.acks + [Ack(y.number, k, |rows|)]);

    forall p | p in o.kept && p.session == k ensures Waiting(more, p) {
      StillWaiting(rows, row, s.pending, k, p);
    }
    KeptCount(rows, k, s.pending, -1);
    Then(s, steps, s6, Send(d));
    var s7 := Next(s6, Send(d));
    Then(s, steps + [Send(d)], s7, Sent(true));
    var s8 := Next(s7, Sent(true));
    var z := Pending(s.next + 2, k, d, Some(|rows|));
    assert s8.pending == o.kept + [x', z];
    assert Echoes(more, x', last);
    LaterFrame(more, k, o.kept, x', z);
    var r := Find(more, x', Boundary(x') + 1);
    var z' := z.(before := Some(r));
    Then(s, steps + [Send(d)] + [Sent(true)], s8, Frame);
    var s9 := Next(s8, Frame);
    LastFrame(more, k, o.kept, z');
    Then(s, steps + [Send(d)] + [Sent(true)] + [Frame], s9, Frame);
    var s10 := Next(s9, Frame);
    steps := steps + [Send(d)] + [Sent(true)] + [Frame] + [Frame];
    first := |s.acks| + |o.acks|;
    second := first + 2;
    assert s10.acks ==
      s.acks + (o.acks + [Ack(y.number, k, |rows|)]) + [Ack(x'.number, k, r)] + [Ack(z.number, k, |rows|)];
  }

  /** One send from an untidy state, two frames and nothing else: the send is acknowledged by a row
      that was on screen before it left. */
  lemma {:induction false} UntidySendIsAcknowledgedEarly(s: State) returns (text: string, end: State)
    requires Inv(s) && Enabled(s, Send("")) && !Tidy(s)
    ensures Exec(s, [Send(text), Sent(true), Frame, Frame]) == Some(end)
    ensures end.acks != []
    ensures var ack := end.acks[|end.acks| - 1];
      ack.number == s.next && ack.session == s.selected && ack.row <= LastYou(Rows(s, s.selected))
  {
    hide Ordered, LastYou, Reconcile, Waiting;
    var k, rows := s.selected, Rows(s, s.selected);
    assert SessionInv(s, k);
    var o := Reconcile(rows, k, s.pending, -1);
    KeptFacts(rows, k, s.pending, -1, -1);
    var last := LastYou(rows);
    LastYouFacts(rows);
    text := rows[last].text;
    var x := Pending(s.next, k, text, Some(last));
    var s2 := Next(Next(s, Send(text)), Sent(true));
    Then(s, [], s, Send(text));
    Then(s, [] + [Send(text)], Next(s, Send(text)), Sent(true));
    FallsBack(rows, k, s.pending, x);
    var s3 := Next(s2, Frame);
    Then(s, [] + [Send(text)] + [Sent(true)], s2, Frame);
    Caught(rows, k, o.kept, x.(before := Some(o.consumed)), last);
    end := Next(s3, Frame);
    Then(s, [] + [Send(text)] + [Sent(true)] + [Frame], s3, Frame);
    assert [] + [Send(text)] + [Sent(true)] + [Frame] + [Frame] == [Send(text), Sent(true), Frame, Frame];
  }

  /** The newest send finds nothing after the last row, and its boundary falls back to what the
      others consumed. */
  lemma FallsBack(rows: seq<Row>, session: nat, pending: seq<Pending>, x: Pending)
    requires x.session == session && Boundary(x) == LastYou(rows)
    requires 0 <= Reconcile(rows, session, pending, -1).consumed < LastYou(rows)
    ensures var o := Reconcile(rows, session, pending, -1);
      Reconcile(rows, session, pending + [x], -1) ==
        Outcome(o.kept + [x.(before := Some(o.consumed))], o.acks, o.consumed)
  {
    hide Reconcile;
    var o := Reconcile(rows, session, pending, -1);
    Split(rows, session, pending, [x], -1);
    Single(rows, session, x, o.consumed);
    assert forall k :: LastYou(rows) < k ==> !Echoes(rows, x, k);
  }

  /** With the others waiting, it is acknowledged by the first echo after where it fell back to. */
  lemma Caught(rows: seq<Row>, session: nat, quiet: seq<Pending>, x: Pending, last: nat)
    requires forall p :: p in quiet && p.session == session ==> Waiting(rows, p)
    requires x.session == session && Boundary(x) < last && Echoes(rows, x, last)
    ensures var o := Reconcile(rows, session, quiet + [x], -1);
      |o.acks| == 1 && o.acks[0].number == x.number && o.acks[0].session == session && o.acks[0].row <= last
  {
    hide Reconcile, Waiting;
    forall i | 0 <= i < |quiet| && quiet[i].session == session ensures Waiting(rows, quiet[i]) {
      assert quiet[i] in quiet;
    }
    QuietFrame(rows, session, quiet);
    Split(rows, session, quiet, [x], -1);
    Single(rows, session, x, -1);
  }

  // ---- from the start ----------------------------------------------------

  lemma {:induction false} ExecConcat(from: State, a: seq<Step>, b: seq<Step>)
    requires Exec(from, a).Some?
    ensures Exec(from, a + b) == Exec(Exec(from, a).value, b)
    decreases |b|
  {
    hide Next, Enabled;
    if b == [] {
      assert a + b == a;
    } else {
      assert (a + b)[..|a + b| - 1] == a + b[..|b| - 1];
      ExecConcat(from, a, b[..|b| - 1]);
    }
  }

  /** One message and its echo, then a row from elsewhere before any frame: reached by tidy sends, and
      untidy. */
  lemma {:induction false} UntidyIsReached() returns (steps: seq<Step>, s: State)
    ensures Exec(Init(), steps) == Some(s) && TidySends(Init(), steps)
    ensures Inv(s) && s.busy.None? && |s.pending| == 1 && !Tidy(s)
  {
    hide Inv, Exec, TidySends, LastYou;
    StartFacts();
    var s1 := TidyThen([], Init(), Send("a"));
    var sent := [] + [Send("a")];
    var s2 := TidyThen(sent, s1, Sent(true));
    var shown := sent + [Sent(true)];
    var s3 := TidyThen(shown, s2, Append(0, Row(true, "a")));
    var echoed := shown + [Append(0, Row(true, "a"))];
    s := TidyThen(echoed, s3, Append(0, Row(true, "b")));
    steps := echoed + [Append(0, Row(true, "b"))];
    RunKeeps(steps);
    var rows := Rows(s, 0);
    assert rows == [Row(true, "a"), Row(true, "b")];
    var p := Pending(0, 0, "a", None);
    LastYouAppend([], Row(true, "a"));
    assert s.pending == [p];
    Single(rows, 0, p, -1);
    assert Echoes(rows, p, 0) && LastYou(rows) == 1 by { LastYouAppend(rows[..1], rows[1]); }
  }

  lemma StartFacts()
    ensures Exec(Init(), []) == Some(Init()) && TidySends(Init(), []) && Tidy(Init())
    ensures LastYou([]) == -1
  {
  }

  lemma {:induction false} TidyThen(steps: seq<Step>, s: State, step: Step) returns (next: State)
    requires Exec(Init(), steps) == Some(s) && TidySends(Init(), steps)
    requires Enabled(s, step) && (step.Send? ==> Tidy(s))
    ensures next == Next(s, step)
    ensures Exec(Init(), steps + [step]) == Some(next) && TidySends(Init(), steps + [step])
  {
    assert (steps + [step])[..|steps|] == steps;
    next := Next(s, step);
  }

  /** A run from the start in which one row acknowledges two sends. */
  lemma {:induction false} OneRowAcknowledgesTwoSends() returns (steps: seq<Step>)
    ensures Exec(Init(), steps).Some? && !OneRowOneSend(Exec(Init(), steps).value.acks)
  {
    hide Inv, Tidy, Next, Enabled;
    var before, s := UntidyIsReached();
    var after, first, second := UntidySendCanDoubleAcknowledge(s);
    ExecConcat(Init(), before, after);
    steps := before + after;
  }

  lemma LastYouFacts(rows: seq<Row>)
    ensures -1 <= LastYou(rows) < |rows| && (LastYou(rows) >= 0 ==> rows[LastYou(rows)].you)
  {
  }

  /** Kept sends have texts of sends that were pending, so the new row is not theirs either. */
  lemma StillWaiting(rows: seq<Row>, row: Row, pending: seq<Pending>, session: nat, p: Pending)
    requires Waiting(rows, p)
    requires p in Reconcile(rows, session, pending, -1).kept
    requires forall q :: q in pending ==> q.text != row.text
    ensures Waiting(rows + [row], p)
  {
    KeptTexts(rows, session, pending, -1);
    forall k | Boundary(p) < k ensures !Echoes(rows + [row], p, k) {
      if 0 <= k < |rows| { assert Echoes(rows + [row], p, k) == Echoes(rows, p, k); }
    }
  }

  lemma {:induction false} KeptTexts(rows: seq<Row>, session: nat, pending: seq<Pending>, consumed: int)
    requires -1 <= consumed
    ensures forall p :: p in Reconcile(rows, session, pending, consumed).kept ==>
      exists q :: q in pending && q.text == p.text
    decreases |pending|
  {
    if pending != [] {
      var next := After(rows, session, pending[0], consumed);
      KeptTexts(rows, session, pending[1..], next);
      forall p | p in Reconcile(rows, session, pending[1..], next).kept
        ensures exists q :: q in pending && q.text == p.text
      {
        var q :| q in pending[1..] && q.text == p.text;
        assert q in pending;
      }
      assert pending[0] in pending;
    }
  }

  /** Something was consumed, so a frame leaves at least one send fewer. */
  lemma {:induction false} KeptCount(rows: seq<Row>, session: nat, pending: seq<Pending>, consumed: int)
    requires -1 <= consumed
    ensures var o := Reconcile(rows, session, pending, consumed);
      |o.kept| + |o.acks| == |pending| && (o.consumed != consumed ==> |o.acks| > 0)
    decreases |pending|
  {
    if pending != [] {
      KeptCount(rows, session, pending[1..], After(rows, session, pending[0], consumed));
    }
  }
}
