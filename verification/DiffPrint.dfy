/** Diffs printed as git prints them, and read back. */
module DiffPrint {
  import opened Diff
  import opened Numerals
  import opened Wrappers

  // ---- edit scripts and their files --------------------------------------

  /** `Bare` is an empty context line whose leading space was lost on the way. */
  datatype Op = Keep(line: string) | Bare | Del(line: string) | Add(line: string) | Remark(text: string)

  /** Unchanged lines between hunks are not printed. */
  datatype Segment = Skip(lines: seq<string>) | Change(ops: seq<Op>, section: string)

  datatype FileDiff = FileDiff(names: string, headers: seq<string>, segments: seq<Segment>)

  function OldOf(op: Op): seq<string> {
    match op
    case Keep(l) => [l]
    case Bare => [""]
    case Del(l) => [l]
    case _ => []
  }

  function NewOf(op: Op): seq<string> {
    match op
    case Keep(l) => [l]
    case Bare => [""]
    case Add(l) => [l]
    case _ => []
  }

  function Before(ops: seq<Op>): seq<string> {
    if ops == [] then [] else OldOf(ops[0]) + Before(ops[1..])
  }

  function After(ops: seq<Op>): seq<string> {
    if ops == [] then [] else NewOf(ops[0]) + After(ops[1..])
  }

  function OldLines(segments: seq<Segment>): seq<string> {
    if segments == [] then []
    else (if segments[0].Skip? then segments[0].lines else Before(segments[0].ops)) + OldLines(segments[1..])
  }

  function NewLines(segments: seq<Segment>): seq<string> {
    if segments == [] then []
    else (if segments[0].Skip? then segments[0].lines else After(segments[0].ops)) + NewLines(segments[1..])
  }

  // ---- git's unified format ----------------------------------------------

  /** A range after `skipped` lines: an empty one names the line before it, a single line its number alone. */
  function Range(skipped: nat, count: nat): string {
    Digits(if count == 0 then skipped else skipped + 1) + if count == 1 then "" else "," + Digits(count)
  }

  function Header(ops: seq<Op>, section: string, b: nat, a: nat): string {
    "@@ " + ("-" + Range(b, |Before(ops)|) + " " + "+" + Range(a, |After(ops)|)) + " @@" + section
  }

  function PrintOp(op: Op): string {
    match op
    case Keep(l) => " " + l
    case Bare => ""
    case Del(l) => "-" + l
    case Add(l) => "+" + l
    case Remark(t) => "\\ " + t
  }

  function PrintOps(ops: seq<Op>): seq<string> {
    if ops == [] then [] else [PrintOp(ops[0])] + PrintOps(ops[1..])
  }

  function PrintSegments(segments: seq<Segment>, b: nat, a: nat): seq<string> {
    if segments == [] then []
    else match segments[0]
      case Skip(lines) => PrintSegments(segments[1..], b + |lines|, a + |lines|)
      case Change(ops, section) =>
        [Header(ops, section, b, a)] + PrintOps(ops) +
        PrintSegments(segments[1..], b + |Before(ops)|, a + |After(ops)|)
  }

  function PrintFile(f: FileDiff): seq<string> {
    ["diff --git " + f.names] + f.headers + PrintSegments(f.segments, 0, 0)
  }

  function Print(files: seq<FileDiff>): seq<string> {
    if files == [] then [] else PrintFile(files[0]) + Print(files[1..])
  }

  function Text(lines: seq<string>): string {
    if lines == [] then "" else lines[0] + "\n" + Text(lines[1..])
  }

  // ---- the rows such a diff should show ----------------------------------

  function OpRow(op: Op, b: nat, a: nat): Row {
    match op
    case Keep(l) => Row(Context, Some(b + 1), Some(a + 1), StripCR(l))
    case Bare => Row(Context, Some(b + 1), Some(a + 1), "")
    case Del(l) => Row(Removed, Some(b + 1), None, StripCR(l))
    case Add(l) => Row(Added, None, Some(a + 1), StripCR(l))
    case Remark(t) => Row(Note, None, None, StripCR("\\ " + t))
  }

  function OpRows(ops: seq<Op>, b: nat, a: nat): seq<Row> {
    if ops == [] then []
    else [OpRow(ops[0], b, a)] + OpRows(ops[1..], b + |OldOf(ops[0])|, a + |NewOf(ops[0])|)
  }

  function SegmentRows(segments: seq<Segment>, b: nat, a: nat): seq<Row> {
    if segments == [] then []
    else match segments[0]
      case Skip(lines) => SegmentRows(segments[1..], b + |lines|, a + |lines|)
      case Change(ops, section) =>
        [Row(Hunk, None, None, StripCR(Header(ops, section, b, a)))] + OpRows(ops, b, a) +
        SegmentRows(segments[1..], b + |Before(ops)|, a + |After(ops)|)
  }

  function HeaderRow(line: string): Row {
    Row(if "--- " <= line || "+++ " <= line then File else if "Binary files " <= line then Note else Meta,
        None, None, line)
  }

  function HeaderRows(lines: seq<string>): seq<Row> {
    if lines == [] then [] else [HeaderRow(StripCR(lines[0]))] + HeaderRows(lines[1..])
  }

  function FileRows(f: FileDiff): seq<Row> {
    HeaderRows(["diff --git " + f.names] + f.headers) + SegmentRows(f.segments, 0, 0)
  }

  function DiffRows(files: seq<FileDiff>): seq<Row> {
    if files == [] then [] else FileRows(files[0]) + DiffRows(files[1..])
  }

  // ---- what is asked of the files: no line feeds in lines, numbers within 32 bits

  predicate OneLine(line: string) {
    '\n' !in line
  }

  predicate PrintableSegment(s: Segment) {
    s.Change? ==> OneLine(s.section) && forall op :: op in s.ops ==> OneLine(PrintOp(op))
  }

  predicate Printable(f: FileDiff) {
    && OneLine(f.names)
    && (forall h :: h in f.headers ==> OneLine(h) && !("@@ " <= h))
    && (forall s :: s in f.segments ==> PrintableSegment(s))
    && |OldLines(f.segments)| + 1 < U32 && |NewLines(f.segments)| + 1 < U32
  }

  // ---- numbers -----------------------------------------------------------

  lemma NumberRead(n: nat)
    requires n < U32
    ensures ParseU32(Digits(n)) == Some(n)
  {
    DigitsRead(n);
    assert Digit(Digits(n)[0]);
  }

  lemma RangeRead(sign: char, skipped: nat, count: nat)
    requires skipped + 1 < U32
    ensures RangeStart([sign] + Range(skipped, count), sign) == Some(if count == 0 then skipped else skipped + 1)
    ensures forall i :: 0 <= i < |Range(skipped, count)| ==>
      Digit(Range(skipped, count)[i]) || Range(skipped, count)[i] == ','
  {
    hide ParseU32;
    var n := if count == 0 then skipped else skipped + 1;
    var r := Range(skipped, count);
    DigitsRead(n);
    DigitsRead(count);
    NumberRead(n);
    assert ([sign] + r)[1..] == r;
    var d := Digits(n);
    forall i | 0 <= i < |d| ensures r[i] == d[i] && r[i] != ',' {
      assert Digit(d[i]);
    }
    var comma := IndexOf(r, ',');
    assert comma == |d| by {
      if count != 1 { assert r[|d|] == ','; }
    }
    assert r[..comma] == d;
  }

  lemma {:induction false} FindFirst(s: string, pat: string, at: nat)
    requires at + |pat| <= |s| && s[at..at + |pat|] == pat
    requires forall j :: 0 <= j < at ==> !(pat <= s[j..])
    ensures Find(s, pat) == Some(at)
    decreases |s|
  {
    assert s[0..] == s;
    if at == 0 {
      assert s[0..|pat|] == s[..|pat|];
    } else {
      assert s[1..][at - 1..at - 1 + |pat|] == s[at..at + |pat|];
      forall j | 0 <= j < at - 1 ensures !(pat <= s[1..][j..]) {
        assert s[1..][j..] == s[j + 1..];
      }
      FindFirst(s[1..], pat, at - 1);
    }
  }

  lemma {:induction false} HeaderRead(ops: seq<Op>, section: string, b: nat, a: nat)
    requires b + 1 < U32 && a + 1 < U32
    ensures HunkStart(Header(ops, section, b, a)) ==
      Some((if Before(ops) == [] then b else b + 1, if After(ops) == [] then a else a + 1))
  {
    hide ParseU32, Range, Before, After, RangeStart, HunkStart, RangeChar;
    var n, m := |Before(ops)|, |After(ops)|;
    var first, second := "-" + Range(b, n), "+" + Range(a, m);
    RangeRead('-', b, n);
    RangeRead('+', a, m);
    assert ['-'] + Range(b, n) == first && ['+'] + Range(a, m) == second;
    forall k | 0 <= k < |first| ensures RangeChar(first[k]) { RangeCharOf(Range(b, n), '-', k); }
    forall k | 0 <= k < |second| ensures RangeChar(second[k]) { RangeCharOf(Range(a, m), '+', k); }
    HunkFound(first, second, section, if n == 0 then b else b + 1, if m == 0 then a else a + 1);
    assert first + " " + "+" + Range(a, m) == first + " " + second;
  }

  lemma HunkFound(first: string, second: string, section: string, o: nat, n: nat)
    requires forall k :: 0 <= k < |first| ==> RangeChar(first[k])
    requires second != "" && second[0] == '+' && forall k :: 0 <= k < |second| ==> RangeChar(second[k])
    requires RangeStart(first, '-') == Some(o) && RangeStart(second, '+') == Some(n)
    ensures HunkStart("@@ " + (first + " " + second) + " @@" + section) == Some((o, n))
  {
    hide RangeStart, Find, IndexOf, RangeChar;
    RangesFound(first, second, section);
    RangesSplit(first, second);
    var line := "@@ " + (first + " " + second) + " @@" + section;
    assert line[3..] == first + " " + second + " @@" + section;
  }

  lemma RangeCharOf(range: string, sign: char, k: nat)
    requires forall i :: 0 <= i < |range| ==> Digit(range[i]) || range[i] == ','
    requires sign == '-' || sign == '+'
    requires k < |[sign] + range|
    ensures RangeChar(([sign] + range)[k])
  {
    assert k > 0 ==> ([sign] + range)[k] == range[k - 1];
  }

  /** The ranges end where the second `@@` begins. */
  lemma RangesFound(first: string, second: string, section: string)
    requires forall k :: 0 <= k < |first| ==> RangeChar(first[k])
    requires second != "" && second[0] == '+' && forall k :: 0 <= k < |second| ==> RangeChar(second[k])
    ensures var rest := first + " " + second + " @@" + section;
      Find(rest, " @@") == Some(|first + " " + second|) && rest[..|first + " " + second|] == first + " " + second
  {
    hide Find, RangeChar;
    var ranges := first + " " + second;
    var rest := first + " " + second + " @@" + section;
    assert rest == ranges + (" @@" + section);
    assert rest[|ranges|..|ranges| + 3] == " @@";
    forall j | 0 <= j < |ranges| ensures !(" @@" <= rest[j..]) {
      NoMarkInside(first, second, section, j);
    }
    FindFirst(rest, " @@", |ranges|);
  }

  lemma {:induction false} RangesSplit(first: string, second: string)
    requires forall k :: 0 <= k < |first| ==> RangeChar(first[k])
    requires forall k :: 0 <= k < |second| ==> RangeChar(second[k])
    ensures var ranges := first + " " + second;
      IndexOf(ranges, ' ') == |first| && ranges[..|first|] == first && ranges[|first| + 1..] == second
    ensures IndexOf(second, ' ') == |second| && second[..|second|] == second
  {
    hide IndexOf;
    var ranges := first + " " + second;
    assert forall k :: 0 <= k < |first| ==> ranges[k] == first[k];
    assert ranges[|first|] == ' ';
  }

  predicate RangeChar(c: char) {
    c == '-' || c == '+' || c == ',' || Digit(c)
  }

  lemma NoMarkInside(first: string, second: string, section: string, j: nat)
    requires forall k :: 0 <= k < |first| ==> RangeChar(first[k])
    requires second != "" && second[0] == '+' && forall k :: 0 <= k < |second| ==> RangeChar(second[k])
    requires j < |first + " " + second|
    ensures !(" @@" <= ((first + " " + second) + (" @@" + section))[j..])
  {
    var rest := (first + " " + second) + (" @@" + section);
    if j < |first| {
      assert RangeChar(first[j]) && rest[j] != ' ';
    } else if j == |first| {
      assert rest[j + 1] == second[0];
    } else {
      assert RangeChar(second[j - |first| - 1]) && rest[j] != ' ';
    }
    assert rest[j..][0] == rest[j] && rest[j..][1] == rest[j + 1];
  }

  // ---- lines -------------------------------------------------------------

  function Stripped(lines: seq<string>): (r: seq<string>)
    ensures |r| == |lines|
  {
    if lines == [] then [] else [StripCR(lines[0])] + Stripped(lines[1..])
  }

  lemma {:induction false} StrippedConcat(a: seq<string>, b: seq<string>)
    ensures Stripped(a + b) == Stripped(a) + Stripped(b)
  {
    if a == [] {
      assert a + b == b;
    } else {
      assert (a + b)[1..] == a[1..] + b;
      StrippedConcat(a[1..], b);
    }
  }

  /** `str::lines` gives back the lines that were written, without a carriage return at the end. */
  lemma {:induction false} LinesOfText(lines: seq<string>)
    requires forall l :: l in lines ==> OneLine(l)
    ensures Lines(Text(lines)) == Stripped(lines)
  {
    if lines != [] {
      LinesOfText(lines[1..]);
      var l, rest := lines[0], Text(lines[1..]);
      var t := l + "\n" + rest;
      assert OneLine(l);
      assert t[|l|] == '\n' && forall k :: 0 <= k < |l| ==> t[k] == l[k];
      assert IndexOf(t, '\n') == |l|;
      assert t[..|l|] == l && t[|l| + 1..] == rest;
    }
  }

  // ---- reading in parts --------------------------------------------------

  function End(c: Cursor, lines: seq<string>): Cursor
    decreases |lines|
  {
    if lines == [] then c else End(ParseLine(c, lines[0]).0, lines[1..])
  }

  lemma {:induction false} ReadInParts(c: Cursor, a: seq<string>, b: seq<string>)
    ensures ParseRows(c, a + b) == ParseRows(c, a) + ParseRows(End(c, a), b)
    ensures End(c, a + b) == End(End(c, a), b)
    decreases |a|
  {
    hide ParseLine;
    if a == [] {
      assert a + b == b;
    } else {
      assert (a + b)[1..] == a[1..] + b;
      var next := ParseLine(c, a[0]).0;
      ReadInParts(next, a[1..], b);
    }
  }

  lemma StripMarked(mark: string, line: string)
    requires mark != "" && mark[|mark| - 1] != '\r'
    ensures StripCR(mark + line) == mark + StripCR(line)
  {
    var s := mark + line;
    if line == "" {
      assert s == mark;
    } else {
      assert s[|s| - 1] == line[|line| - 1];
      assert s[..|s| - 1] == mark + line[..|line| - 1];
    }
  }

  /** The numbers the next old and new lines will carry, when the hunk still has such lines. */
  predicate InStep(c: Cursor, ops: seq<Op>, b: nat, a: nat) {
    c.inHunk && (Before(ops) != [] ==> c.before == b + 1) && (After(ops) != [] ==> c.after == a + 1)
  }

  function Mark(op: Op): string {
    match op
    case Keep(_) => " "
    case Bare => ""
    case Del(_) => "-"
    case Add(_) => "+"
    case Remark(_) => "\\"
  }

  function Shown(op: Op): string {
    match op
    case Keep(l) => StripCR(l)
    case Bare => ""
    case Del(l) => StripCR(l)
    case Add(l) => StripCR(l)
    case Remark(t) => StripCR(" " + t)
  }

  /** A printed line is its mark and the text, never a header, whatever the text looks like. */
  lemma PrintedLine(op: Op)
    ensures StripCR(PrintOp(op)) == Mark(op) + Shown(op)
    ensures op.Bare? || (forall s: string ::
      Mark(op) + s != "" && (Mark(op) + s)[0] == Mark(op)[0] && (Mark(op) + s)[1..] == s)
  {
    match op
    case Keep(l) => StripMarked(" ", l);
    case Bare =>
    case Del(l) => StripMarked("-", l);
    case Add(l) => StripMarked("+", l);
    case Remark(t) =>
      assert "\\ " + t == "\\" + (" " + t);
      StripMarked("\\", " " + t);
  }

  lemma PrintedHeadless(op: Op)
    ensures HunkStart(Mark(op) + Shown(op)) == None
    ensures !("diff --git " <= Mark(op) + Shown(op))
  {
    hide Find, RangeStart, StripCR;
    var line := Mark(op) + Shown(op);
    assert op.Bare? || line[0] == Mark(op)[0];
  }

  lemma OpRead(op: Op, rest: seq<Op>, c: Cursor, b: nat, a: nat)
    requires InStep(c, [op] + rest, b, a)
    ensures var (next, row) := ParseLine(c, StripCR(PrintOp(op)));
      row == OpRow(op, b, a) && InStep(next, rest, b + |OldOf(op)|, a + |NewOf(op)|)
  {
    hide HunkStart, StripCR, PrintOp;
    assert ([op] + rest)[1..] == rest;
    PrintedLine(op);
    PrintedHeadless(op);
    if op.Remark? {
      RemarkText(op.text);
    }
  }

  lemma RemarkText(t: string)
    ensures "\\" + StripCR(" " + t) == StripCR("\\ " + t)
  {
    assert "\\ " + t == "\\" + (" " + t);
    StripMarked("\\", " " + t);
  }

  lemma {:induction false} OpsRead(ops: seq<Op>, c: Cursor, b: nat, a: nat)
    requires InStep(c, ops, b, a)
    ensures ParseRows(c, Stripped(PrintOps(ops))) == OpRows(ops, b, a)
  {
    hide ParseLine, OpRow, InStep, PrintOp, StripCR, Before, After;
    if ops != [] {
      var op, rest := ops[0], ops[1..];
      assert ops == [op] + rest;
      OpRead(op, rest, c, b, a);
      var lines := Stripped(PrintOps(ops));
      assert lines[0] == StripCR(PrintOp(op)) && lines[1..] == Stripped(PrintOps(rest));
      OpsRead(rest, ParseLine(c, lines[0]).0, b + |OldOf(op)|, a + |NewOf(op)|);
    }
  }

  // ---- reading a whole diff ----------------------------------------------

  lemma {:induction false} SegmentsRead(segments: seq<Segment>, c: Cursor, b: nat, a: nat)
    requires b + |OldLines(segments)| + 1 < U32 && a + |NewLines(segments)| + 1 < U32
    ensures ParseRows(c, Stripped(PrintSegments(segments, b, a))) == SegmentRows(segments, b, a)
  {
    hide ParseLine, ParseRows, OpRows, StripCR, Header, Before, After, PrintOps;
    if segments == [] {
      assert ParseRows(c, []) == [];
      return;
    }
    match segments[0]
    case Skip(lines) => SegmentsRead(segments[1..], c, b + |lines|, a + |lines|);
    case Change(ops, section) =>
      var b2, a2 := b + |Before(ops)|, a + |After(ops)|;
      var head, body, rest := [Header(ops, section, b, a)], PrintOps(ops), PrintSegments(segments[1..], b2, a2);
      StrippedConcat(head + body, rest);
      var next := ChangeRead(ops, section, c, b, a);
      ReadInParts(c, Stripped(head + body), Stripped(rest));
      SegmentsRead(segments[1..], next, b2, a2);
  }

  lemma ChangeRead(ops: seq<Op>, section: string, c: Cursor, b: nat, a: nat) returns (next: Cursor)
    requires b + 1 < U32 && a + 1 < U32
    ensures var lines := Stripped([Header(ops, section, b, a)] + PrintOps(ops));
      next == End(c, lines) &&
      ParseRows(c, lines) == [Row(Hunk, None, None, StripCR(Header(ops, section, b, a)))] + OpRows(ops, b, a)
  {
    hide HunkStart, Before, After, StripCR, Header, PrintOps, OpRows;
    var lines := Stripped([Header(ops, section, b, a)] + PrintOps(ops));
    next := End(c, lines);
    HeaderStripped(ops, section, b, a);
    HeaderRead(ops, StripCR(section), b, a);
    assert ([Header(ops, section, b, a)] + PrintOps(ops))[1..] == PrintOps(ops);
    assert lines[0] == StripCR(Header(ops, section, b, a)) && lines[1..] == Stripped(PrintOps(ops));
    OpsRead(ops, ParseLine(c, lines[0]).0, b, a);
  }

  lemma HeaderStripped(ops: seq<Op>, section: string, b: nat, a: nat)
    ensures StripCR(Header(ops, section, b, a)) == Header(ops, StripCR(section), b, a)
  {
    hide Range, Before, After, StripCR;
    StripMarked("@@ " + ("-" + Range(b, |Before(ops)|) + " " + "+" + Range(a, |After(ops)|)) + " @@", section);
  }

  lemma {:induction false} HeadersRead(headers: seq<string>, c: Cursor)
    requires !c.inHunk && forall h :: h in headers ==> !("@@ " <= h)
    ensures ParseRows(c, Stripped(headers)) == HeaderRows(headers)
  {
    if headers != [] {
      hide Find, RangeStart;
      assert headers[0] in headers && Stripped(headers)[1..] == Stripped(headers[1..]);
      var line := StripCR(headers[0]);
      assert !("@@ " <= line);
      assert ParseLine(c, line) == (c, HeaderRow(line));
      assert forall h :: h in headers[1..] ==> h in headers;
      HeadersRead(headers[1..], c);
    }
  }

  lemma FileRead(f: FileDiff, c: Cursor)
    requires Printable(f)
    ensures ParseRows(c, Stripped(PrintFile(f))) == FileRows(f)
  {
    hide ParseRows, ParseLine, StripCR, PrintSegments, SegmentRows, OldLines, NewLines;
    var first, headers := "diff --git " + f.names, f.headers;
    var body := PrintSegments(f.segments, 0, 0);
    StrippedConcat([first] + headers, body);
    ReadInParts(c, Stripped([first] + headers), Stripped(body));
    SegmentsRead(f.segments, End(c, Stripped([first] + headers)), 0, 0);
    FirstRead(f.names, headers, c);
  }

  lemma FirstRead(names: string, headers: seq<string>, c: Cursor)
    requires forall h :: h in headers ==> !("@@ " <= h)
    ensures ParseRows(c, Stripped(["diff --git " + names] + headers)) == HeaderRows(["diff --git " + names] + headers)
  {
    hide Find, RangeStart, StripCR;
    var first := "diff --git " + names;
    var all := [first] + headers;
    StripMarked("diff --git ", names);
    var line := StripCR(first);
    assert all[1..] == headers && Stripped(all)[1..] == Stripped(headers);
    assert line[0] == 'd' && "diff --git " <= line;
    var next := c.(inHunk := false);
    assert ParseLine(c, line) == (next, HeaderRow(line));
    HeadersRead(headers, next);
  }

  lemma {:induction false} FilesRead(files: seq<FileDiff>, c: Cursor)
    requires forall f :: f in files ==> Printable(f)
    ensures ParseRows(c, Stripped(Print(files))) == DiffRows(files)
  {
    hide ParseRows, PrintFile, FileRows, Printable;
    if files == [] {
      assert ParseRows(c, []) == [];
    } else {
      var lines, rest := PrintFile(files[0]), Print(files[1..]);
      assert Printable(files[0]);
      StrippedConcat(lines, rest);
      ReadInParts(c, Stripped(lines), Stripped(rest));
      FileRead(files[0], c);
      FilesRead(files[1..], End(c, Stripped(lines)));
    }
  }
}
