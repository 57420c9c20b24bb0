/** What the rows of a parsed diff mean. */
module DiffMeaning {
  import opened Diff
  import opened DiffPrint
  import opened Numerals
  import opened Wrappers

  // Over any files and any edit script the parsed rows name the very lines they show, in order, and
  // the totals are the script's.

  // ---- every printed line is a line --------------------------------------

  lemma RangeOneLine(skipped: nat, count: nat)
    ensures OneLine(Range(skipped, count))
  {
    DigitsRead(if count == 0 then skipped else skipped + 1);
    DigitsRead(count);
    var d, e := Digits(if count == 0 then skipped else skipped + 1), Digits(count);
    assert forall c :: c in d ==> Digit(c);
    assert forall c :: c in e ==> Digit(c);
  }

  lemma {:induction false} OpsOneLine(ops: seq<Op>, line: string)
    requires forall op :: op in ops ==> OneLine(PrintOp(op))
    requires line in PrintOps(ops)
    ensures OneLine(line)
  {
    if line != PrintOp(ops[0]) {
      assert forall op :: op in ops[1..] ==> op in ops;
      OpsOneLine(ops[1..], line);
    }
  }

  lemma {:induction false} SegmentsOneLine(segments: seq<Segment>, b: nat, a: nat, line: string)
    requires forall s :: s in segments ==> PrintableSegment(s)
    requires line in PrintSegments(segments, b, a)
    ensures OneLine(line)
  {
    hide Range, PrintOps;
    var first := segments[0];
    assert PrintableSegment(first);
    assert forall s :: s in segments[1..] ==> s in segments;
    match first
    case Skip(lines) => SegmentsOneLine(segments[1..], b + |lines|, a + |lines|, line);
    case Change(ops, section) =>
      if line in PrintOps(ops) {
        OpsOneLine(ops, line);
      } else if line == Header(ops, section, b, a) {
        RangeOneLine(b, |Before(ops)|);
        RangeOneLine(a, |After(ops)|);
      } else {
        SegmentsOneLine(segments[1..], b + |Before(ops)|, a + |After(ops)|, line);
      }
  }

  lemma {:induction false} PrintOneLine(files: seq<FileDiff>, line: string)
    requires forall f :: f in files ==> Printable(f)
    requires line in Print(files)
    ensures OneLine(line)
  {
    hide PrintSegments;
    var f := files[0];
    assert Printable(f);
    if line in PrintSegments(f.segments, 0, 0) {
      SegmentsOneLine(f.segments, 0, 0, line);
    } else if line !in PrintFile(f) {
      assert forall g :: g in files[1..] ==> g in files;
      PrintOneLine(files[1..], line);
    }
  }

  // ---- rows name the lines they show -------------------------------------

  /** `row` shows line `n` of `file` under the number `n`. */
  predicate Names(number: Option<nat>, text: string, file: seq<string>) {
    number.Some? ==> 1 <= number.value <= |file| && text == StripCR(file[number.value - 1])
  }

  predicate ShowsItsLines(row: Row, before: seq<string>, after: seq<string>) {
    && Names(row.before, row.text, before) && Names(row.after, row.text, after)
    && (row.before.Some? <==> row.kind == Context || row.kind == Removed)
    && (row.after.Some? <==> row.kind == Context || row.kind == Added)
  }

  /** Line numbers run upwards on both sides, so no line is shown twice. */
  predicate Ascending(rows: seq<Row>) {
    forall i, j :: 0 <= i < j < |rows| ==>
      && (rows[i].before.Some? && rows[j].before.Some? ==> rows[i].before.value < rows[j].before.value)
      && (rows[i].after.Some? && rows[j].after.Some? ==> rows[i].after.value < rows[j].after.value)
  }

  /** Every number lies after the first `b` old (`a` new) lines and within the next `m` (`n`). */
  predicate Within(row: Row, b: nat, m: nat, a: nat, n: nat) {
    && (row.before.Some? ==> b < row.before.value <= b + m)
    && (row.after.Some? ==> a < row.after.value <= a + n)
  }

  lemma AscendingConcat(x: seq<Row>, y: seq<Row>, b: nat, m: nat, a: nat, n: nat, m2: nat, n2: nat)
    requires Ascending(x) && forall r :: r in x ==> Within(r, b, m, a, n)
    requires Ascending(y) && forall r :: r in y ==> Within(r, b + m, m2, a + n, n2)
    ensures Ascending(x + y) && forall r :: r in x + y ==> Within(r, b, m + m2, a, n + n2)
  {
    var z := x + y;
    forall i, j | 0 <= i < j < |z|
      ensures && (z[i].before.Some? && z[j].before.Some? ==> z[i].before.value < z[j].before.value)
              && (z[i].after.Some? && z[j].after.Some? ==> z[i].after.value < z[j].after.value)
    {
      if j < |x| {
      } else if i < |x| {
        assert z[i] == x[i] && x[i] in x && z[j] == y[j - |x|] && y[j - |x|] in y;
        assert Within(z[i], b, m, a, n) && Within(z[j], b + m, m2, a + n, n2);
      }
    }
    forall r | r in z ensures Within(r, b, m + m2, a, n + n2) {
      if r in x { assert Within(r, b, m, a, n); } else { assert Within(r, b + m, m2, a + n, n2); }
    }
  }

  lemma NoRowsAscend()
    ensures Ascending([])
  {
  }

  lemma OneRowAscends(op: Op, b: nat, a: nat)
    ensures Ascending([OpRow(op, b, a)]) && Within(OpRow(op, b, a), b, |OldOf(op)|, a, |NewOf(op)|)
  {
  }

  lemma {:induction false} OpRowsAscend(ops: seq<Op>, b: nat, a: nat)
    ensures Ascending(OpRows(ops, b, a))
    ensures forall r :: r in OpRows(ops, b, a) ==> Within(r, b, |Before(ops)|, a, |After(ops)|)
  {
    hide Ascending, Within, OpRow, OldOf, NewOf;
    if ops == [] {
      assert Ascending([]) by { NoRowsAscend(); }
    } else {
      var op := ops[0];
      var m, n := |OldOf(op)|, |NewOf(op)|;
      OpRowsAscend(ops[1..], b + m, a + n);
      OneRowAscends(op, b, a);
      AscendingConcat([OpRow(op, b, a)], OpRows(ops[1..], b + m, a + n), b, m, a, n,
                      |Before(ops[1..])|, |After(ops[1..])|);
    }
  }

  lemma {:induction false} SegmentRowsAscend(segments: seq<Segment>, b: nat, a: nat)
    ensures Ascending(SegmentRows(segments, b, a))
    ensures forall r :: r in SegmentRows(segments, b, a) ==>
      Within(r, b, |OldLines(segments)|, a, |NewLines(segments)|)
  {
    hide Header, OpRows, Before, After, Ascending;
    if segments == [] {
      assert Ascending([]) by { OpRowsAscend([], 0, 0); assert OpRows([], 0, 0) == [] by { OpRowsEmpty(); } }
      return;
    }
    match segments[0]
    case Skip(lines) =>
      SegmentRowsAscend(segments[1..], b + |lines|, a + |lines|);
      AscendingConcat([], SegmentRows(segments[1..], b + |lines|, a + |lines|), b, |lines|, a, |lines|,
                      |OldLines(segments[1..])|, |NewLines(segments[1..])|);
    case Change(ops, section) =>
      var m, n := |Before(ops)|, |After(ops)|;
      SegmentRowsAscend(segments[1..], b + m, a + n);
      OpRowsAscend(ops, b, a);
      var head := Row(Hunk, None, None, StripCR(Header(ops, section, b, a)));
      HeadAscends(head, OpRows(ops, b, a), b, m, a, n);
      AscendingConcat([head] + OpRows(ops, b, a), SegmentRows(segments[1..], b + m, a + n), b, m, a, n,
                      |OldLines(segments[1..])|, |NewLines(segments[1..])|);
  }

  lemma OpRowsEmpty()
    ensures OpRows([], 0, 0) == []
  {
  }

  lemma HeadAscends(head: Row, rows: seq<Row>, b: nat, m: nat, a: nat, n: nat)
    requires head.before.None? && head.after.None?
    requires Ascending(rows) && forall r :: r in rows ==> Within(r, b, m, a, n)
    ensures Ascending([head] + rows) && forall r :: r in [head] + rows ==> Within(r, b, m, a, n)
  {
    assert Ascending([head]) && Within(head, b, 0, a, 0);
    AscendingConcat([head], rows, b, 0, a, 0, m, n);
  }

  /** A file's rows: numbered by the very lines they show, upwards. */
  lemma {:induction false} HeaderRowsBare(lines: seq<string>)
    ensures forall r :: r in HeaderRows(lines) ==> r.before.None? && r.after.None? && r.kind in {Meta, File, Note}
  {
    if lines != [] { HeaderRowsBare(lines[1..]); }
  }

  lemma Slices(file: seq<string>, b: nat, x: seq<string>, y: seq<string>)
    requires b + |x + y| <= |file| && file[b..b + |x + y|] == x + y
    ensures x != [] ==> file[b] == x[0]
    ensures file[b + |x|..b + |x| + |y|] == y
  {
    var s := file[b..b + |x + y|];
    assert s[|x|..] == y && s[|x|..] == file[b + |x|..b + |x| + |y|];
    assert x != [] ==> s[0] == x[0] && s[0] == file[b];
  }

  lemma OpRowShows(op: Op, b: nat, a: nat, before: seq<string>, after: seq<string>)
    requires OldOf(op) != [] ==> b < |before| && before[b] == OldOf(op)[0]
    requires NewOf(op) != [] ==> a < |after| && after[a] == NewOf(op)[0]
    ensures ShowsItsLines(OpRow(op, b, a), before, after)
  {
  }

  lemma {:induction false} OpRowsShow(ops: seq<Op>, b: nat, a: nat, before: seq<string>, after: seq<string>)
    requires b + |Before(ops)| <= |before| && before[b..b + |Before(ops)|] == Before(ops)
    requires a + |After(ops)| <= |after| && after[a..a + |After(ops)|] == After(ops)
    ensures forall r :: r in OpRows(ops, b, a) ==> ShowsItsLines(r, before, after)
  {
    hide StripCR, OldOf, NewOf, OpRow, ShowsItsLines;
    if ops != [] {
      var op := ops[0];
      Slices(before, b, OldOf(op), Before(ops[1..]));
      Slices(after, a, NewOf(op), After(ops[1..]));
      OpRowShows(op, b, a, before, after);
      OpRowsShow(ops[1..], b + |OldOf(op)|, a + |NewOf(op)|, before, after);
    }
  }

  lemma {:induction false} SegmentRowsShow(
      segments: seq<Segment>, b: nat, a: nat, before: seq<string>, after: seq<string>)
    requires b <= |before| && before[b..] == OldLines(segments)
    requires a <= |after| && after[a..] == NewLines(segments)
    ensures forall r :: r in SegmentRows(segments, b, a) ==> ShowsItsLines(r, before, after)
  {
    hide StripCR, Header, OpRows, Before, After;
    if segments != [] {
      var s := segments[0];
      var m := if s.Skip? then |s.lines| else |Before(s.ops)|;
      var n := if s.Skip? then |s.lines| else |After(s.ops)|;
      assert before[b + m..] == before[b..][m..] && after[a + n..] == after[a..][n..];
      SegmentRowsShow(segments[1..], b + m, a + n, before, after);
      if s.Change? {
        assert before[b..b + m] == before[b..][..m] && after[a..a + n] == after[a..][..n];
        OpRowsShow(s.ops, b, a, before, after);
      }
    }
  }

  /** Every row of a file names the very lines it shows, and the numbers run upwards. */
  lemma FileRowsShow(f: FileDiff)
    ensures forall r :: r in FileRows(f) ==> ShowsItsLines(r, OldLines(f.segments), NewLines(f.segments))
    ensures Ascending(FileRows(f))
  {
    hide HeaderRows, SegmentRows, Ascending;
    var headers := HeaderRows(["diff --git " + f.names] + f.headers);
    HeaderRowsBare(["diff --git " + f.names] + f.headers);
    SegmentRowsShow(f.segments, 0, 0, OldLines(f.segments), NewLines(f.segments));
    SegmentRowsAscend(f.segments, 0, 0);
    BareAscend(headers);
    AscendingConcat(headers, SegmentRows(f.segments, 0, 0), 0, 0, 0, 0,
                    |OldLines(f.segments)|, |NewLines(f.segments)|);
  }

  lemma BareAscend(rows: seq<Row>)
    requires forall r :: r in rows ==> r.before.None? && r.after.None?
    ensures Ascending(rows)
  {
  }

  // ---- the totals --------------------------------------------------------

  function Adds(ops: seq<Op>): nat {
    if ops == [] then 0 else (if ops[0].Add? then 1 else 0) + Adds(ops[1..])
  }

  function Dels(ops: seq<Op>): nat {
    if ops == [] then 0 else (if ops[0].Del? then 1 else 0) + Dels(ops[1..])
  }

  function Script(segments: seq<Segment>): seq<Op> {
    if segments == [] then []
    else (if segments[0].Change? then segments[0].ops else []) + Script(segments[1..])
  }

  /** All the edits of all the files. */
  function Edits(files: seq<FileDiff>): seq<Op> {
    if files == [] then [] else Script(files[0].segments) + Edits(files[1..])
  }

  lemma {:induction false} EditsConcat(x: seq<Op>, y: seq<Op>)
    ensures Adds(x + y) == Adds(x) + Adds(y) && Dels(x + y) == Dels(x) + Dels(y)
  {
    if x == [] {
      assert x + y == y;
    } else {
      assert (x + y)[1..] == x[1..] + y;
      EditsConcat(x[1..], y);
    }
  }

  lemma {:induction false} CountConcat(x: seq<Row>, y: seq<Row>, kind: Kind)
    ensures Count(x + y, kind) == Count(x, kind) + Count(y, kind)
  {
    if y == [] {
      assert x + y == x;
    } else {
      var last := |y| - 1;
      assert (x + y)[..|x + y| - 1] == x + y[..last];
      CountConcat(x, y[..last], kind);
    }
  }

  predicate CountsAre(rows: seq<Row>, ops: seq<Op>) {
    Count(rows, Added) == Adds(ops) && Count(rows, Removed) == Dels(ops)
  }

  lemma CountsJoin(x: seq<Row>, y: seq<Row>, p: seq<Op>, q: seq<Op>)
    requires CountsAre(x, p) && CountsAre(y, q)
    ensures CountsAre(x + y, p + q)
  {
    CountConcat(x, y, Added);
    CountConcat(x, y, Removed);
    EditsConcat(p, q);
  }

  lemma CountOne(row: Row, kind: Kind)
    ensures Count([row], kind) == if row.kind == kind then 1 else 0
  {
    assert [row][..0] == [];
  }

  lemma OpCounts(op: Op, b: nat, a: nat)
    ensures CountsAre([OpRow(op, b, a)], [op])
  {
    hide StripCR;
    CountOne(OpRow(op, b, a), Added);
    CountOne(OpRow(op, b, a), Removed);
    assert [op][1..] == [];
    assert Adds([op]) == (if op.Add? then 1 else 0) + Adds([op][1..]);
    assert Dels([op]) == (if op.Del? then 1 else 0) + Dels([op][1..]);
  }

  lemma {:induction false} OpRowsCount(ops: seq<Op>, b: nat, a: nat)
    ensures CountsAre(OpRows(ops, b, a), ops)
  {
    hide CountsAre, OpRow;
    if ops == [] {
      Nothing();
    } else {
      var op, rest := ops[0], OpRows(ops[1..], b + |OldOf(ops[0])|, a + |NewOf(ops[0])|);
      OpRowsCount(ops[1..], b + |OldOf(op)|, a + |NewOf(op)|);
      OpCounts(op, b, a);
      CountsJoin([OpRow(op, b, a)], rest, [op], ops[1..]);
      assert [op] + ops[1..] == ops;
    }
  }

  lemma {:induction false} SegmentRowsCount(segments: seq<Segment>, b: nat, a: nat)
    ensures CountsAre(SegmentRows(segments, b, a), Script(segments))
  {
    hide CountsAre, OpRows, Header;
    if segments == [] {
      Nothing();
      return;
    }
    match segments[0]
    case Skip(lines) =>
      SegmentRowsCount(segments[1..], b + |lines|, a + |lines|);
      assert [] + Script(segments[1..]) == Script(segments[1..]);
    case Change(ops, section) =>
      var b2, a2 := b + |Before(ops)|, a + |After(ops)|;
      var head := Row(Hunk, None, None, StripCR(Header(ops, section, b, a)));
      HeadCounts(head);
      OpRowsCount(ops, b, a);
      CountsJoin([head], OpRows(ops, b, a), [], ops);
      assert [] + ops == ops;
      SegmentRowsCount(segments[1..], b2, a2);
      CountsJoin([head] + OpRows(ops, b, a), SegmentRows(segments[1..], b2, a2), ops, Script(segments[1..]));
  }

  lemma Nothing()
    ensures CountsAre([], [])
  {
  }

  lemma HeadCounts(head: Row)
    requires head.kind != Added && head.kind != Removed
    ensures CountsAre([head], [])
  {
    CountOne(head, Added);
    CountOne(head, Removed);
  }

  lemma {:induction false} HeaderRowsCount(lines: seq<string>)
    ensures CountsAre(HeaderRows(lines), [])
  {
    hide CountsAre, StripCR;
    if lines == [] {
      Nothing();
    } else {
      HeaderRowsCount(lines[1..]);
      HeadCounts(HeaderRow(StripCR(lines[0])));
      CountsJoin([HeaderRow(StripCR(lines[0]))], HeaderRows(lines[1..]), [], []);
      var none: seq<Op> := [];
      assert none + none == none;
    }
  }

  lemma {:induction false} DiffRowsCount(files: seq<FileDiff>)
    ensures CountsAre(DiffRows(files), Edits(files))
  {
    hide CountsAre, HeaderRows, SegmentRows, Script;
    if files == [] {
      Nothing();
    } else {
      var f := files[0];
      var headers := ["diff --git " + f.names] + f.headers;
      HeaderRowsCount(headers);
      SegmentRowsCount(f.segments, 0, 0);
      CountsJoin(HeaderRows(headers), SegmentRows(f.segments, 0, 0), [], Script(f.segments));
      assert [] + Script(f.segments) == Script(f.segments);
      DiffRowsCount(files[1..]);
      CountsJoin(FileRows(f), DiffRows(files[1..]), Script(f.segments), Edits(files[1..]));
    }
  }

  // ---- the parser and the printed diff -----------------------------------

  /** Parsing a printed diff gives back its rows; below the cap, all of them, and the script's totals. */
  lemma ParseUndoesPrint(files: seq<FileDiff>, d: Diff)
    requires forall f :: f in files ==> Printable(f)
    requires Reads(Text(Print(files)), d)
    ensures d.rows == if |DiffRows(files)| <= MAX_ROWS then DiffRows(files) else DiffRows(files)[..MAX_ROWS]
    ensures d.truncated <==> |DiffRows(files)| > MAX_ROWS
    ensures !d.truncated ==> d.added == Adds(Edits(files)) && d.removed == Dels(Edits(files))
  {
    hide Printable, Print, DiffRows, Lines, ParseRows, Count, OneLine;
    forall l | l in Print(files) ensures OneLine(l) {
      PrintOneLine(files, l);
    }
    LinesOfText(Print(files));
    FilesRead(files, START);
    DiffRowsCount(files);
  }

  // ---- any text at all ---------------------------------------------------

  /** Whatever the text, each line has its row, which shows the whole line, or, with its kind and number, all
      but the mark in front. */
  predicate ShowsLine(row: Row, line: string) {
    match row.kind
    case Added => line == "+" + row.text && row.before.None? && row.after.Some?
    case Removed => line == "-" + row.text && row.before.Some? && row.after.None?
    case Context => (line == " " + row.text || (line == "" && row.text == "")) && row.before.Some? && row.after.Some?
    case _ => row.text == line && row.before.None? && row.after.None?
  }

  lemma {:induction false} EveryRowShowsItsLine(c: Cursor, lines: seq<string>)
    ensures |ParseRows(c, lines)| == |lines|
    ensures forall i :: 0 <= i < |lines| ==> ShowsLine(ParseRows(c, lines)[i], lines[i])
    decreases |lines|
  {
    hide HunkStart;
    if lines != [] {
      var (next, row) := ParseLine(c, lines[0]);
      EveryRowShowsItsLine(next, lines[1..]);
      if lines[0] != "" { assert lines[0] == [lines[0][0]] + lines[0][1..]; }
    }
  }

  predicate Numbered(row: Row) {
    row.kind == Added || row.kind == Removed || row.kind == Context
  }

  /** Row `i` stands in the hunk whose header is row `j`. */
  predicate InHunkOf(rows: seq<Row>, j: nat, i: nat) {
    j < i < |rows| && rows[j].kind == Hunk && forall k :: j < k < i ==> Numbered(rows[k]) || rows[k].kind == Note
  }

  /** Only a hunk's header makes the lines after it numbered, and any line out of place ends that. */
  lemma {:induction false} NumberedRowsFollowAHeader(c: Cursor, lines: seq<string>, i: nat)
    requires i < |lines| && Numbered(ParseRows(c, lines)[i])
    ensures var rows := ParseRows(c, lines);
      || (c.inHunk && forall k :: 0 <= k < i ==> Numbered(rows[k]) || rows[k].kind == Note)
      || (exists j :: 0 <= j < i && InHunkOf(rows, j, i))
    decreases |lines|
  {
    hide HunkStart;
    var rows := ParseRows(c, lines);
    var (next, row) := ParseLine(c, lines[0]);
    if i > 0 {
      var rest := ParseRows(next, lines[1..]);
      NumberedRowsFollowAHeader(next, lines[1..], i - 1);
      var n := i - 1;
      if exists j :: 0 <= j < n && InHunkOf(rest, j, n) {
        var j :| 0 <= j < n && InHunkOf(rest, j, n);
        assert InHunkOf(rows, j + 1, i);
      } else {
        assert next.inHunk && forall k :: 1 <= k < i ==> rows[k] == rest[k - 1];
        if row.kind == Hunk { assert InHunkOf(rows, 0, i); }
      }
    }
  }

  /** Line numbers a header gives fit 32 bits, or it is no header. */
  lemma HunkNumbersFit(line: string)
    ensures HunkStart(line).Some? ==> HunkStart(line).value.0 < 0x1_0000_0000 && HunkStart(line).value.1 < 0x1_0000_0000
    ensures HunkStart(line).Some? ==> "@@ -" <= line
  {
    if HunkStart(line).Some? {
      assert line[..3] == "@@ " && line[3] == '-';
    }
  }
}
