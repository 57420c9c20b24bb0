/** Sent messages and their echoes (controller.rs). */
module Echo {
  import opened Wrappers

  // Rows are append-only and an anchor is a row's index. The boundary a frame leaves behind can
  // move back past rows already used, so one row can acknowledge two sends; `Tidy` says exactly
  // which states a send may safely start from.

  const MAX_PENDING := 32

  datatype Row = Row(you: bool, text: string)

  /** `before` anchors the last row the echo must come after. */
  datatype Pending = Pending(number: nat, session: nat, text: string, before: Option<nat>)

  datatype Ack = Ack(number: nat, session: nat, row: nat)

  function Boundary(p: Pending): int {
    if p.before.Some? then p.before.value else -1
  }

  predicate Echoes(rows: seq<Row>, p: Pending, ix: int) {
    0 <= ix < |rows| && rows[ix].you && rows[ix].text == p.text
  }

  /** The first echo of `p` at or after `start`, or -1. */
  function Find(rows: seq<Row>, p: Pending, start: int): (ix: int)
    requires 0 <= start
    ensures ix == -1 || (start <= ix && Echoes(rows, p, ix))
    ensures forall k :: start <= k < (if ix == -1 then |rows| else ix) ==> !Echoes(rows, p, k)
    decreases |rows| - start
  {
    if start >= |rows| then -1
    else if Echoes(rows, p, start) then start
    else Find(rows, p, start + 1)
  }

  function Start(p: Pending, consumed: int): int {
    if Boundary(p) < consumed then consumed + 1 else Boundary(p) + 1
  }

  /** Whether this frame looks at `p`: it belongs to the session shown and its anchor is found. */
  predicate Looked(rows: seq<Row>, session: nat, p: Pending) {
    p.session == session && Boundary(p) < |rows|
  }

  /** The row that acknowledges `p` in a frame that already consumed rows up to `consumed`. */
  function Match(rows: seq<Row>, session: nat, p: Pending, consumed: int): int
    requires -1 <= consumed
  {
    if Looked(rows, session, p) then Find(rows, p, Start(p, consumed)) else -1
  }

  function After(rows: seq<Row>, session: nat, p: Pending, consumed: int): int
    requires -1 <= consumed
  {
    var ix := Match(rows, session, p, consumed);
    if ix >= 0 then ix else consumed
  }

  /** What an unacknowledged send keeps: the consumed boundary, when there is one. */
  function Kept(rows: seq<Row>, session: nat, p: Pending, consumed: int): Pending {
    if Looked(rows, session, p) && consumed >= 0 then p.(before := Some(consumed)) else p
  }

  datatype Outcome = Outcome(kept: seq<Pending>, acks: seq<Ack>, consumed: int)

  function Reconcile(rows: seq<Row>, session: nat, pending: seq<Pending>, consumed: int): (o: Outcome)
    requires -1 <= consumed
    ensures consumed <= o.consumed
  {
    if pending == [] then Outcome([], [], consumed)
    else
      var p := pending[0];
      var ix := Match(rows, session, p, consumed);
      var rest := Reconcile(rows, session, pending[1..], After(rows, session, p, consumed));
      if ix >= 0 then rest.(acks := [Ack(p.number, session, ix)] + rest.acks)
      else rest.(kept := [Kept(rows, session, p, consumed)] + rest.kept)
  }

  method Search(rows: seq<Row>, p: Pending, start: int) returns (ix: int)
    requires 0 <= start
    ensures ix == Find(rows, p, start)
  {
    ix := start;
    while ix < |rows| && !(rows[ix].you && rows[ix].text == p.text)
      invariant start <= ix
      invariant Find(rows, p, ix) == Find(rows, p, start)
      decreases |rows| - ix
    {
      ix := ix + 1;
    }
    if ix >= |rows| {
      ix := -1;
    }
  }

  /** One send against the rows not yet consumed. */
  method Settle(rows: seq<Row>, session: nat, p: Pending, consumed: int) returns (ix: int)
    requires -1 <= consumed
    ensures ix == Match(rows, session, p, consumed)
  {
    if p.session != session || (p.before.Some? && p.before.value >= |rows|) {
      return -1;
    }
    var start := if p.before.Some? then p.before.value + 1 else 0;
    if start < consumed + 1 {
      start := consumed + 1;
    }
    ix := Search(rows, p, start);
  }

  /** The loop over the pending list, one `retain_mut`. */
  method ReconcileMessages(rows: seq<Row>, session: nat, pending: seq<Pending>)
    returns (kept: seq<Pending>, acks: seq<Ack>)
    ensures Reconcile(rows, session, pending, -1).kept == kept
    ensures Reconcile(rows, session, pending, -1).acks == acks
  {
    hide Match;
    kept, acks := [], [];
    var consumed := -1;
    assert pending[0..] == pending;
    for i := 0 to |pending|
      invariant -1 <= consumed
      invariant var rest := Reconcile(rows, session, pending[i..], consumed);
        var all := Reconcile(rows, session, pending, -1);
        all.kept == kept + rest.kept && all.acks == acks + rest.acks
    {
      assert pending[i..][0] == pending[i] && pending[i..][1..] == pending[i + 1..];
      var p := pending[i];
      var ix := Settle(rows, session, p, consumed);
      if ix >= 0 {
        acks := acks + [Ack(p.number, session, ix)];
        consumed := ix;
      } else {
        var moves := p.session == session && Boundary(p) < |rows| && consumed >= 0;
        kept := kept + [if moves then p.(before := Some(consumed)) else p];
      }
    }
  }

  // ---- one frame takes every echo it can ---------------------------------

  /** If each send of the session has an echo after its anchor, in send order, one frame clears
      them all: taking the first echo each time never costs a later send its own. */
  lemma {:induction false} GreedyClearsAll(
      rows: seq<Row>, session: nat, pending: seq<Pending>, consumed: int, echoes: seq<int>)
    requires -1 <= consumed && |echoes| == |pending|
    requires forall i :: 0 <= i < |pending| ==>
      pending[i].session == session && Echoes(rows, pending[i], echoes[i]) && Boundary(pending[i]) < echoes[i]
    requires forall i, j :: 0 <= i < j < |echoes| ==> echoes[i] < echoes[j]
    requires forall i :: 0 <= i < |echoes| ==> consumed < echoes[i]
    ensures Reconcile(rows, session, pending, consumed).kept == []
    ensures |Reconcile(rows, session, pending, consumed).acks| == |pending|
    decreases |pending|
  {
    if pending != [] {
      var p := pending[0];
      assert Looked(rows, session, p);
      var ix := Match(rows, session, p, consumed);
      assert 0 <= ix <= echoes[0];
      GreedyClearsAll(rows, session, pending[1..], ix, echoes[1..]);
    }
  }

  // ---- runs --------------------------------------------------------------

  /** `busy` is the send in flight: only one action runs at a time, so only the newest can fail.
      The last three are bookkeeping: the newest "You" row, or -1, when each message was sent, the
      session and text it was sent with, and the messages whose action failed. */
  datatype State = State(rows: map<nat, seq<Row>>, selected: nat, pending: seq<Pending>, busy: Option<nat>,
                         next: nat, acks: seq<Ack>, lastSeen: seq<int>, sent: seq<(nat, string)>, failed: set<nat>)

  datatype Step = Append(session: nat, row: Row) | Send(text: string) | Sent(ok: bool) | Frame | Show(session: nat)

  function Init(): State {
    State(map[], 0, [], None, 0, [], [], [], {})
  }

  function Rows(s: State, session: nat): seq<Row> {
    if session in s.rows then s.rows[session] else []
  }

  /** The last "You" row, or -1. */
  function LastYou(rows: seq<Row>): (ix: int)
    ensures -1 <= ix < |rows| && (ix >= 0 ==> rows[ix].you)
    ensures forall k :: ix < k < |rows| ==> !rows[k].you
  {
    if rows == [] then -1
    else if rows[|rows| - 1].you then |rows| - 1
    else LastYou(rows[..|rows| - 1])
  }

  function Anchor(rows: seq<Row>): Option<nat> {
    if LastYou(rows) >= 0 then Some(LastYou(rows)) else None
  }

  predicate Enabled(s: State, step: Step) {
    match step
    case Send(_) => s.busy.None? && |s.pending| < MAX_PENDING
    case Sent(_) => s.busy.Some?
    case _ => true
  }

  function Dropping(pending: seq<Pending>, number: nat): seq<Pending> {
    if pending == [] then []
    else (if pending[0].number == number then [] else [pending[0]]) + Dropping(pending[1..], number)
  }

  function Next(s: State, step: Step): State {
    match step
    case Append(session, row) => s.(rows := s.rows[session := Rows(s, session) + [row]])
    case Send(text) =>
      s.(pending := s.pending + [Pending(s.next, s.selected, text, Anchor(Rows(s, s.selected)))],
         busy := Some(s.next), next := s.next + 1, lastSeen := s.lastSeen + [LastYou(Rows(s, s.selected))],
         sent := s.sent + [(s.selected, text)])
    case Sent(ok) =>
      if s.busy.None? || ok then s.(busy := None)
      else s.(busy := None, pending := Dropping(s.pending, s.busy.value), failed := s.failed + {s.busy.value})
    case Frame =>
      var o := Reconcile(Rows(s, s.selected), s.selected, s.pending, -1);
      s.(pending := o.kept, acks := s.acks + o.acks)
    case Show(session) => s.(selected := session)
  }

  /** The sends waiting here would consume nothing now, or exactly up to the newest "You" row: a
      frame has caught up with the rows before another message goes out. */
  predicate Tidy(s: State) {
    var o := Reconcile(Rows(s, s.selected), s.selected, s.pending, -1);
    o.consumed == -1 || o.consumed == LastYou(Rows(s, s.selected))
  }

  function Exec(from: State, steps: seq<Step>): Option<State> {
    if steps == [] then Some(from)
    else
      var last := steps[|steps| - 1];
      match Exec(from, steps[..|steps| - 1])
      case None => None
      case Some(before) => if Enabled(before, last) then Some(Next(before, last)) else None
  }

  /** Every send of the run left from a tidy state. */
  predicate TidySends(from: State, steps: seq<Step>) {
    if steps == [] then true
    else
      var front, last := steps[..|steps| - 1], steps[|steps| - 1];
      && TidySends(from, front)
      && (Exec(from, front).Some? && last.Send? ==> Tidy(Exec(from, front).value))
  }

  predicate OneRowOneSend(acks: seq<Ack>) {
    forall i, j :: 0 <= i < j < |acks| && acks[i].session == acks[j].session ==> acks[i].row != acks[j].row
  }

  // ---- tidy sends are enough ---------------------------------------------

  /** A frame on these rows would move no boundary back. */
  predicate Ordered(rows: seq<Row>, session: nat, pending: seq<Pending>, consumed: int)
    requires -1 <= consumed
  {
    if pending == [] then true
    else
      && (pending[0].session == session && consumed >= 0 ==> Boundary(pending[0]) <= consumed)
      && Ordered(rows, session, pending[1..], After(rows, session, pending[0], consumed))
  }

  /** Boundaries are "You" rows, in send order. */
  predicate Sorted(rows: seq<Row>, session: nat, pending: seq<Pending>) {
    && (forall i :: 0 <= i < |pending| && pending[i].session == session ==> Boundary(pending[i]) <= LastYou(rows))
    && (forall i, j :: 0 <= i < j < |pending| && pending[i].session == session == pending[j].session ==>
          Boundary(pending[i]) <= Boundary(pending[j]))
  }

  /** Nothing in `used` can acknowledge `p` any more. */
  predicate Spent(rows: seq<Row>, p: Pending, used: set<nat>) {
    forall r :: r in used ==> r <= Boundary(p) || !Echoes(rows, p, r)
  }

  /** `p` has no echo yet. */
  ghost predicate Waiting(rows: seq<Row>, p: Pending) {
    forall k :: Boundary(p) < k ==> !Echoes(rows, p, k)
  }

  function Used(acks: seq<Ack>, session: nat): set<nat> {
    set i | 0 <= i < |acks| && acks[i].session == session :: acks[i].row
  }

  ghost predicate SessionInv(s: State, session: nat) {
    var rows := Rows(s, session);
    && Sorted(rows, session, s.pending)
    && Ordered(rows, session, s.pending, -1)
    && (forall i :: 0 <= i < |s.pending| && s.pending[i].session == session ==>
          Spent(rows, s.pending[i], Used(s.acks, session)))
    && (forall r :: r in Used(s.acks, session) ==> r <= LastYou(rows))
  }

  predicate Numbered(s: State) {
    && (forall i :: 0 <= i < |s.pending| ==> s.pending[i].number < s.next)
    && (forall i, j :: 0 <= i < j < |s.pending| ==> s.pending[i].number < s.pending[j].number)
    && (s.busy.Some? ==> s.busy.value + 1 == s.next)
  }

  ghost predicate Inv(s: State) {
    && (forall k: nat :: SessionInv(s, k))
    && Numbered(s)
    && OneRowOneSend(s.acks)
  }

  /** A send that finds no echo keeps waiting, from the consumed boundary on. */
  lemma KeptWaits(rows: seq<Row>, session: nat, p: Pending, consumed: int)
    requires -1 <= consumed && p.session == session && Boundary(p) < |rows|
    requires consumed >= 0 ==> Boundary(p) <= consumed
    requires Match(rows, session, p, consumed) < 0
    ensures var q := Kept(rows, session, p, consumed);
      && q.session == session && Waiting(rows, q)
      && Boundary(q) == if consumed >= 0 then consumed else Boundary(p)
  {
    var q := Kept(rows, session, p, consumed);
    forall k | Boundary(q) < k ensures !Echoes(rows, q, k) {
      assert Echoes(rows, q, k) == Echoes(rows, p, k);
    }
  }

  predicate AtLeast(pending: seq<Pending>, session: nat, low: int) {
    forall i :: 0 <= i < |pending| && pending[i].session == session ==> low <= Boundary(pending[i])
  }

  lemma TailFacts(rows: seq<Row>, session: nat, pending: seq<Pending>)
    requires pending != [] && Sorted(rows, session, pending)
    ensures Sorted(rows, session, pending[1..])
    ensures pending[0].session == session ==> AtLeast(pending[1..], session, Boundary(pending[0]))
    ensures pending[0].session == session ==> Boundary(pending[0]) <= LastYou(rows)
  {
    forall i | 0 <= i < |pending[1..]| ensures pending[1..][i] == pending[i + 1] {}
  }

  /** A frame moves kept boundaries on, never past the last row of the user. */
  lemma {:induction false} KeptBounds(rows: seq<Row>, session: nat, pending: seq<Pending>, consumed: int, low: int)
    requires -1 <= consumed <= LastYou(rows)
    requires Sorted(rows, session, pending) && Ordered(rows, session, pending, consumed)
    requires AtLeast(pending, session, low)
    ensures var o := Reconcile(rows, session, pending, consumed);
      && o.consumed <= LastYou(rows)
      && (forall q :: q in o.kept && q.session == session ==>
            low <= Boundary(q) && consumed <= Boundary(q) <= LastYou(rows))
    decreases |pending|
  {
    if pending != [] {
      var p := pending[0];
      TailFacts(rows, session, pending);
      KeptBounds(rows, session, pending[1..], After(rows, session, p, consumed),
                 if p.session == session then Boundary(p) else low);
    }
  }

  lemma {:induction false} KeptSorted(rows: seq<Row>, session: nat, pending: seq<Pending>, consumed: int)
    requires -1 <= consumed <= LastYou(rows)
    requires Sorted(rows, session, pending) && Ordered(rows, session, pending, consumed)
    ensures Sorted(rows, session, Reconcile(rows, session, pending, consumed).kept)
    decreases |pending|
  {
    if pending != [] {
      var p := pending[0];
      var next := After(rows, session, p, consumed);
      TailFacts(rows, session, pending);
      KeptSorted(rows, session, pending[1..], next);
      if p.session == session { KeptBounds(rows, session, pending[1..], next, Boundary(p)); }
      var rest := Reconcile(rows, session, pending[1..], next).kept;
      forall i | 0 <= i < |rest| ensures rest[i] in rest {}
      if Match(rows, session, p, consumed) < 0 {
        var k := Kept(rows, session, p, consumed);
        SortedCons(rows, session, k, rest);
      }
    }
  }

  lemma SortedCons(rows: seq<Row>, session: nat, k: Pending, rest: seq<Pending>)
    requires Sorted(rows, session, rest)
    requires k.session == session ==> Boundary(k) <= LastYou(rows) && AtLeast(rest, session, Boundary(k))
    ensures Sorted(rows, session, [k] + rest)
  {
  }

  lemma {:induction false} KeptStillWait(rows: seq<Row>, session: nat, pending: seq<Pending>, consumed: int)
    requires -1 <= consumed <= LastYou(rows)
    requires Sorted(rows, session, pending) && Ordered(rows, session, pending, consumed)
    ensures forall q :: q in Reconcile(rows, session, pending, consumed).kept && q.session == session ==>
      Waiting(rows, q)
    decreases |pending|
  {
    hide Waiting;
    if pending != [] {
      var p := pending[0];
      TailFacts(rows, session, pending);
      KeptStillWait(rows, session, pending[1..], After(rows, session, p, consumed));
      if Match(rows, session, p, consumed) < 0 && p.session == session { KeptWaits(rows, session, p, consumed); }
    }
  }

  /** Sends a frame keeps: in order, boundaries only moved on, and every one still waiting. */
  lemma {:induction false} KeptFacts(rows: seq<Row>, session: nat, pending: seq<Pending>, consumed: int, low: int)
    requires -1 <= consumed <= LastYou(rows)
    requires Sorted(rows, session, pending) && Ordered(rows, session, pending, consumed)
    requires forall i :: 0 <= i < |pending| && pending[i].session == session ==> low <= Boundary(pending[i])
    ensures var o := Reconcile(rows, session, pending, consumed);
      && o.consumed <= LastYou(rows)
      && Sorted(rows, session, o.kept)
      && (forall q :: q in o.kept && q.session == session ==>
            low <= Boundary(q) && consumed <= Boundary(q) && Waiting(rows, q))
  {
    hide Waiting, Reconcile, Ordered, Sorted;
    KeptBounds(rows, session, pending, consumed, low);
    KeptSorted(rows, session, pending, consumed);
    KeptStillWait(rows, session, pending, consumed);
  }

  /** Numbers and other sessions' sends pass through a frame unchanged. */
  lemma {:induction false} KeptNumbers(rows: seq<Row>, session: nat, pending: seq<Pending>, consumed: int, low: int)
    requires -1 <= consumed
    requires forall i, j :: 0 <= i < j < |pending| ==> pending[i].number < pending[j].number
    requires forall i :: 0 <= i < |pending| ==> low < pending[i].number
    ensures var kept := Reconcile(rows, session, pending, consumed).kept;
      && (forall i, j :: 0 <= i < j < |kept| ==> kept[i].number < kept[j].number)
      && (forall i :: 0 <= i < |kept| ==> low < kept[i].number)
      && (forall q :: q in kept ==> (exists p :: p in pending && p.number == q.number))
      && (forall q :: q in kept && q.session != session ==> q in pending)
    decreases |pending|
  {
    if pending != [] {
      var p := pending[0];
      var next := After(rows, session, p, consumed);
      KeptNumbers(rows, session, pending[1..], next, p.number);
      var rest := Reconcile(rows, session, pending[1..], next).kept;
      var kept := Reconcile(rows, session, pending, consumed).kept;
      assert kept == rest || kept == [Kept(rows, session, p, consumed)] + rest;
      forall q | q in rest ensures exists o :: o in pending && o.number == q.number {
        var o :| o in pending[1..] && o.number == q.number;
        assert o in pending;
      }
      assert p in pending;
    }
  }

  /** Acknowledgements of one frame: distinct rows past `consumed`, none used before. */
  predicate FreshAcks(rows: seq<Row>, session: nat, acks: seq<Ack>, consumed: int, used: set<nat>) {
    && (forall i :: 0 <= i < |acks| ==>
          && acks[i].session == session && consumed < acks[i].row < |rows|
          && rows[acks[i].row].you && acks[i].row !in used)
    && (forall i, j :: 0 <= i < j < |acks| ==> acks[i].row < acks[j].row)
  }

  lemma {:induction false} AckFacts(rows: seq<Row>, session: nat, pending: seq<Pending>, consumed: int, used: set<nat>)
    requires -1 <= consumed
    requires forall p :: p in pending && p.session == session ==> Spent(rows, p, used)
    ensures FreshAcks(rows, session, Reconcile(rows, session, pending, consumed).acks, consumed, used)
    decreases |pending|
  {
    if pending != [] {
      var p := pending[0];
      var next := After(rows, session, p, consumed);
      AckFacts(rows, session, pending[1..], next, used);
      var rest := Reconcile(rows, session, pending[1..], next).acks;
      var ix := Match(rows, session, p, consumed);
      if ix >= 0 {
        assert p in pending && Spent(rows, p, used) && Echoes(rows, p, ix);
        assert FreshAcks(rows, session, [Ack(p.number, session, ix)] + rest, consumed, used);
      } else {
        assert FreshAcks(rows, session, rest, consumed, used);
      }
    }
  }

  /** With every send of a session waiting, a frame on it does nothing and moves nothing. */
  lemma {:induction false} QuietFrame(rows: seq<Row>, session: nat, pending: seq<Pending>)
    requires forall i :: 0 <= i < |pending| && pending[i].session == session ==> Waiting(rows, pending[i])
    ensures Ordered(rows, session, pending, -1)
    ensures Reconcile(rows, session, pending, -1) == Outcome(pending, [], -1)
    decreases |pending|
  {
    if pending != [] {
      QuietFrame(rows, session, pending[1..]);
      assert pending == [pending[0]] + pending[1..];
    }
  }

  lemma {:induction false} OtherKept(rows: seq<Row>, session: nat, pending: seq<Pending>, consumed: int, other: nat)
    requires -1 <= consumed && other != session
    ensures forall q :: q in Reconcile(rows, session, pending, consumed).kept && q.session == other ==> q in pending
    decreases |pending|
  {
    hide Find;
    if pending != [] {
      OtherKept(rows, session, pending[1..], After(rows, session, pending[0], consumed), other);
    }
  }

  lemma {:induction false} OtherStaysSorted(rows: seq<Row>, session: nat, pending: seq<Pending>, consumed: int,
                                            other: nat, otherRows: seq<Row>)
    requires -1 <= consumed && other != session && Sorted(otherRows, other, pending)
    ensures Sorted(otherRows, other, Reconcile(rows, session, pending, consumed).kept)
    decreases |pending|
  {
    hide Find, LastYou;
    if pending != [] {
      var p := pending[0];
      var next := After(rows, session, p, consumed);
      TailFacts(otherRows, other, pending);
      OtherStaysSorted(rows, session, pending[1..], next, other, otherRows);
      OtherKept(rows, session, pending[1..], next, other);
      var rest := Reconcile(rows, session, pending[1..], next).kept;
      if Match(rows, session, p, consumed) < 0 {
        forall i | 0 <= i < |rest| && rest[i].session == other && p.session == other
          ensures Boundary(p) <= Boundary(rest[i])
        {
          assert rest[i] in pending[1..];
        }
        SortedCons(otherRows, other, Kept(rows, session, p, consumed), rest);
      }
    }
  }

  /** Another session's sends keep their order when this session's frame runs. */
  lemma {:induction false} OtherOrdered(rows: seq<Row>, session: nat, pending: seq<Pending>, consumed: int,
                                        other: nat, otherRows: seq<Row>, c: int)
    requires -1 <= consumed && -1 <= c && other != session
    requires Ordered(otherRows, other, pending, c) && Sorted(otherRows, other, pending)
    ensures Ordered(otherRows, other, Reconcile(rows, session, pending, consumed).kept, c)
    ensures Sorted(otherRows, other, Reconcile(rows, session, pending, consumed).kept)
    ensures forall q :: q in Reconcile(rows, session, pending, consumed).kept && q.session == other ==> q in pending
    decreases |pending|
  {
    hide Find, Sorted;
    OtherKept(rows, session, pending, consumed, other);
    OtherStaysSorted(rows, session, pending, consumed, other, otherRows);
    if pending != [] {
      var p := pending[0];
      TailFacts(otherRows, other, pending);
      var next := After(rows, session, p, consumed);
      OtherOrdered(rows, session, pending[1..], next, other, otherRows, After(otherRows, other, p, c));
      var rest := Reconcile(rows, session, pending[1..], next).kept;
      if Match(rows, session, p, consumed) < 0 {
        var q := Kept(rows, session, p, consumed);
        assert ([q] + rest)[1..] == rest;
      }
    }
  }

  lemma {:induction false} OrderedAppend(rows: seq<Row>, session: nat, pending: seq<Pending>, consumed: int, p: Pending)
    requires -1 <= consumed && Ordered(rows, session, pending, consumed)
    requires p.session == session ==>
      var end := Reconcile(rows, session, pending, consumed).consumed; end == -1 || Boundary(p) <= end
    ensures Ordered(rows, session, pending + [p], consumed)
    decreases |pending|
  {
    if pending == [] {
      assert (pending + [p])[1..] == [];
    } else {
      assert (pending + [p])[1..] == pending[1..] + [p];
      OrderedAppend(rows, session, pending[1..], After(rows, session, pending[0], consumed), p);
    }
  }

  lemma {:induction false} OrderedPrefix(rows: seq<Row>, session: nat, pending: seq<Pending>, consumed: int)
    requires -1 <= consumed && pending != [] && Ordered(rows, session, pending, consumed)
    ensures Ordered(rows, session, pending[..|pending| - 1], consumed)
    decreases |pending|
  {
    if |pending| > 1 {
      assert pending[..|pending| - 1][1..] == pending[1..][..|pending| - 2];
      OrderedPrefix(rows, session, pending[1..], After(rows, session, pending[0], consumed));
    }
  }

  /** One more row: every search ends where it did, or at the new row. */
  lemma {:induction false} FindAppend(rows: seq<Row>, p: Pending, start: int, row: Row)
    requires 0 <= start <= |rows|
    ensures Find(rows + [row], p, start) ==
      if Find(rows, p, start) >= 0 then Find(rows, p, start)
      else if row.you && row.text == p.text then |rows| else -1
    decreases |rows| - start
  {
    if start < |rows| && !Echoes(rows, p, start) {
      FindAppend(rows, p, start + 1, row);
    }
  }

  lemma LastYouAppend(rows: seq<Row>, row: Row)
    ensures LastYou(rows + [row]) == if row.you then |rows| else LastYou(rows)
  {
    assert (rows + [row])[..|rows|] == rows;
  }

  /** Past the end of the rows nothing is found, so nothing is out of order. */
  lemma {:induction false} OrderedAtEnd(rows: seq<Row>, session: nat, pending: seq<Pending>)
    requires rows != []
    requires forall i :: 0 <= i < |pending| && pending[i].session == session ==> Boundary(pending[i]) < |rows|
    ensures Ordered(rows, session, pending, |rows| - 1)
    decreases |pending|
  {
    if pending != [] {
      OrderedAtEnd(rows, session, pending[1..]);
    }
  }

  lemma {:induction false} OrderedRows(rows: seq<Row>, session: nat, pending: seq<Pending>, consumed: int, row: Row)
    requires -1 <= consumed < |rows| || (consumed == -1)
    requires Ordered(rows, session, pending, consumed)
    requires forall i :: 0 <= i < |pending| && pending[i].session == session ==> Boundary(pending[i]) < |rows|
    ensures Ordered(rows + [row], session, pending, consumed)
    decreases |pending|
  {
    if pending != [] {
      var p := pending[0];
      if Looked(rows, session, p) {
        FindAppend(rows, p, Start(p, consumed), row);
      }
      var next := After(rows + [row], session, p, consumed);
      if next == |rows| {
        OrderedAtEnd(rows + [row], session, pending[1..]);
      } else {
        assert next == After(rows, session, p, consumed);
        OrderedRows(rows, session, pending[1..], next, row);
      }
    }
  }

  // ---- the steps ---------------------------------------------------------

  lemma AppendKeeps(s: State, session: nat, row: Row)
    requires Inv(s)
    ensures Inv(Next(s, Append(session, row)))
  {
    hide Ordered, LastYou;
    var s' := Next(s, Append(session, row));
    var rows := Rows(s, session);
    LastYouAppend(rows, row);
    forall k: nat ensures SessionInv(s', k) {
      assert SessionInv(s, k);
      if k == session {
        OrderedRows(rows, session, s.pending, -1, row);
        forall i | 0 <= i < |s.pending| && s.pending[i].session == session
          ensures Spent(rows + [row], s.pending[i], Used(s.acks, session))
        {
          assert Spent(rows, s.pending[i], Used(s.acks, session));
        }
      } else {
        assert Rows(s', k) == Rows(s, k);
      }
    }
  }

  lemma SendKeeps(s: State, text: string)
    requires Inv(s) && Enabled(s, Send(text)) && Tidy(s)
    ensures Inv(Next(s, Send(text)))
  {
    hide Ordered, Reconcile, LastYou;
    var s' := Next(s, Send(text));
    var p := s'.pending[|s.pending|];
    forall k: nat ensures SessionInv(s', k) {
      assert SessionInv(s, k);
      OrderedAppend(Rows(s, k), k, s.pending, -1, p);
      assert Rows(s', k) == Rows(s, k);
      forall i | 0 <= i < |s'.pending| && s'.pending[i].session == k
        ensures Spent(Rows(s, k), s'.pending[i], Used(s.acks, k))
      {
        if i < |s.pending| { assert Spent(Rows(s, k), s.pending[i], Used(s.acks, k)); }
      }
    }
  }

  /** Only the newest send can be in flight, so only the last of the list can be dropped. */
  lemma {:induction false} DroppingNewest(pending: seq<Pending>, number: nat)
    requires forall i :: 0 <= i < |pending| ==> pending[i].number <= number
    requires forall i, j :: 0 <= i < j < |pending| ==> pending[i].number < pending[j].number
    ensures Dropping(pending, number) ==
      if pending != [] && pending[|pending| - 1].number == number then pending[..|pending| - 1] else pending
  {
    if pending != [] {
      DroppingNewest(pending[1..], number);
      assert pending == [pending[0]] + pending[1..];
      if |pending| > 1 {
        assert pending[1..][|pending| - 2] == pending[|pending| - 1];
        assert pending[..|pending| - 1] == [pending[0]] + pending[1..][..|pending| - 2];
      }
    }
  }

  lemma SentKeeps(s: State, ok: bool)
    requires Inv(s) && Enabled(s, Sent(ok))
    ensures Inv(Next(s, Sent(ok)))
  {
    hide Ordered, LastYou, Dropping;
    var s' := Next(s, Sent(ok));
    DroppingNewest(s.pending, s.busy.value);
    forall k: nat ensures SessionInv(s', k) {
      assert SessionInv(s, k);
      if s'.pending != s.pending {
        OrderedPrefix(Rows(s, k), k, s.pending, -1);
      }
      assert Rows(s', k) == Rows(s, k);
    }
  }

  lemma UsedAppend(a: seq<Ack>, b: seq<Ack>, session: nat)
    ensures Used(a + b, session) == Used(a, session) + Used(b, session)
  {
    forall r | r in Used(b, session) ensures r in Used(a + b, session) {
      var i :| 0 <= i < |b| && b[i].session == session && b[i].row == r;
      assert (a + b)[|a| + i] == b[i];
    }
    forall r | r in Used(a, session) ensures r in Used(a + b, session) {
      var i :| 0 <= i < |a| && a[i].session == session && a[i].row == r;
      assert (a + b)[i] == a[i];
    }
  }

  /** A frame on the session it shows. */
  lemma ShownFrame(s: State)
    requires Inv(s)
    ensures SessionInv(Next(s, Frame), s.selected)
    ensures OneRowOneSend(Next(s, Frame).acks)
  {
    hide Ordered, LastYou;
    var k, rows := s.selected, Rows(s, s.selected);
    var o := Reconcile(rows, k, s.pending, -1);
    assert SessionInv(s, k);
    KeptFacts(rows, k, s.pending, -1, -1);
    AckFacts(rows, k, s.pending, -1, Used(s.acks, k));
    hide Reconcile;
    forall i | 0 <= i < |o.kept| && o.kept[i].session == k ensures Waiting(rows, o.kept[i]) {
      assert o.kept[i] in o.kept;
    }
    QuietFrame(rows, k, o.kept);
    UsedAppend(s.acks, o.acks, k);
    forall r | r in Used(o.acks, k) ensures r <= LastYou(rows) {
      var i :| 0 <= i < |o.acks| && o.acks[i].session == k && o.acks[i].row == r;
      LastYouIsLast(rows, r);
    }
    var acks := s.acks + o.acks;
    forall i, j | 0 <= i < j < |acks| && acks[i].session == acks[j].session ensures acks[i].row != acks[j].row {
      if i < |s.acks| <= j {
        assert acks[j] == o.acks[j - |s.acks|];
        assert s.acks[i].row in Used(s.acks, k);
      }
    }
  }

  lemma LastYouIsLast(rows: seq<Row>, r: int)
    requires 0 <= r < |rows| && rows[r].you
    ensures r <= LastYou(rows)
  {
  }

  lemma FrameKeeps(s: State)
    requires Inv(s)
    ensures Inv(Next(s, Frame))
  {
    hide Ordered, LastYou, Reconcile, OneRowOneSend;
    var s' := Next(s, Frame);
    ShownFrame(s);
    var rows := Rows(s, s.selected);
    var o := Reconcile(rows, s.selected, s.pending, -1);
    forall k: nat ensures SessionInv(s', k) {
      assert SessionInv(s, k);
      if k != s.selected {
        OtherOrdered(rows, s.selected, s.pending, -1, k, Rows(s, k), -1);
        UsedAppend(s.acks, o.acks, k);
        AcksOfSession(rows, s.selected, s.pending, -1);
        assert Used(o.acks, k) == {};
        assert Rows(s', k) == Rows(s, k);
        forall i | 0 <= i < |o.kept| && o.kept[i].session == k ensures Spent(Rows(s, k), o.kept[i], Used(s'.acks, k)) {
          assert o.kept[i] in s.pending;
        }
      }
    }
    KeptNumbers(rows, s.selected, s.pending, -1, -1);
    forall i | 0 <= i < |o.kept| ensures o.kept[i].number < s.next {
      assert o.kept[i] in o.kept;
    }
  }

  lemma {:induction false} AcksOfSession(rows: seq<Row>, session: nat, pending: seq<Pending>, consumed: int)
    requires -1 <= consumed
    ensures forall i :: 0 <= i < |Reconcile(rows, session, pending, consumed).acks| ==>
      Reconcile(rows, session, pending, consumed).acks[i].session == session
    decreases |pending|
  {
    if pending != [] {
      AcksOfSession(rows, session, pending[1..], After(rows, session, pending[0], consumed));
    }
  }

  lemma StepKeeps(s: State, step: Step)
    requires Inv(s) && Enabled(s, step) && (step.Send? ==> Tidy(s))
    ensures Inv(Next(s, step))
  {
    match step
    case Append(session, row) => AppendKeeps(s, session, row);
    case Send(text) => SendKeeps(s, text);
    case Sent(ok) => SentKeeps(s, ok);
    case Frame => FrameKeeps(s);
    case Show(session) =>
      hide Ordered, LastYou, Reconcile;
      forall k: nat ensures SessionInv(Next(s, step), k) {
        assert SessionInv(s, k) && Rows(Next(s, step), k) == Rows(s, k);
      }
  }

  lemma {:induction false} RunKeeps(steps: seq<Step>)
    requires Exec(Init(), steps).Some? && TidySends(Init(), steps)
    ensures Inv(Exec(Init(), steps).value)
  {
    hide Next, Inv;
    if steps == [] {
      StartKeeps();
    } else {
      RunKeeps(steps[..|steps| - 1]);
      StepKeeps(Exec(Init(), steps[..|steps| - 1]).value, steps[|steps| - 1]);
    }
  }

  lemma StartKeeps()
    ensures Inv(Init())
  {
    forall k: nat ensures SessionInv(Init(), k) {}
  }

  /** When every message leaves from a tidy state, no row ever acknowledges two sends, within a
      frame or across frames, whatever the texts. */
  lemma {:induction false} TidySendsAreSafe(steps: seq<Step>)
    requires Exec(Init(), steps).Some? && TidySends(Init(), steps)
    ensures OneRowOneSend(Exec(Init(), steps).value.acks)
  {
    RunKeeps(steps);
  }

  // ---- a tidy send is answered by a row that came after it ----------------

  /** Nothing that waits, and nothing acknowledged, has gone back before its own sending. */
  predicate NotEarly(s: State) {
    && |s.lastSeen| == s.next
    && (forall p :: p in s.pending ==> p.number < s.next && s.lastSeen[p.number] <= Boundary(p))
    && (forall a :: a in s.acks ==> a.number < s.next && s.lastSeen[a.number] < a.row)
  }

  /** A frame that moves no boundary back acknowledges no send early. */
  lemma {:induction false} FrameNotEarly(
      rows: seq<Row>, session: nat, pending: seq<Pending>, consumed: int, lastSeen: seq<int>)
    requires -1 <= consumed && Ordered(rows, session, pending, consumed)
    requires forall p :: p in pending ==> p.number < |lastSeen| && lastSeen[p.number] <= Boundary(p)
    ensures var o := Reconcile(rows, session, pending, consumed);
      && (forall q :: q in o.kept ==> q.number < |lastSeen| && lastSeen[q.number] <= Boundary(q))
      && (forall a :: a in o.acks ==> a.number < |lastSeen| && lastSeen[a.number] < a.row)
    decreases |pending|
  {
    if pending != [] {
      var p := pending[0];
      assert p in pending;
      FrameNotEarly(rows, session, pending[1..], After(rows, session, p, consumed), lastSeen);
    }
  }

  lemma {:induction false} DroppingIn(pending: seq<Pending>, number: nat)
    ensures forall p :: p in Dropping(pending, number) ==> p in pending
  {
    if pending != [] {
      DroppingIn(pending[1..], number);
      assert pending == [pending[0]] + pending[1..];
    }
  }

  lemma NotEarlyKeeps(s: State, step: Step)
    requires Inv(s) && NotEarly(s) && Enabled(s, step)
    ensures NotEarly(Next(s, step))
  {
    hide Ordered, LastYou, Reconcile, Dropping, OneRowOneSend, Numbered;
    match step
    case Sent(ok) => DroppingIn(s.pending, s.busy.value);
    case Frame =>
      assert SessionInv(s, s.selected);
      FrameNotEarly(Rows(s, s.selected), s.selected, s.pending, -1, s.lastSeen);
    case _ =>
  }

  /** When every message leaves from a tidy state, each is acknowledged by a row that came after it
      was sent: never by an echo already shown. */
  lemma {:induction false} TidySendsAreNeverEarly(steps: seq<Step>)
    requires Exec(Init(), steps).Some? && TidySends(Init(), steps)
    ensures NotEarly(Exec(Init(), steps).value)
  {
    hide Next, Inv, Tidy;
    if steps != [] {
      TidySendsAreNeverEarly(steps[..|steps| - 1]);
      RunKeeps(steps[..|steps| - 1]);
      NotEarlyKeeps(Exec(Init(), steps[..|steps| - 1]).value, steps[|steps| - 1]);
    }
  }
}
