/** The unified-diff parser of the review view (apps/native/src/diff.rs), character by character. */
module Diff {
  import opened Numerals
  import opened Wrappers

  const MAX_ROWS := 20_000
  const U32 := 0x1_0000_0000

  datatype Kind = Meta | File | Hunk | Context | Added | Removed | Note

  datatype Row = Row(kind: Kind, before: Option<nat>, after: Option<nat>, text: string)

  // ---- strings -----------------------------------------------------------

  function StripCR(line: string): string {
    if line != "" && line[|line| - 1] == '\r' then line[..|line| - 1] else line
  }

  /** The first `c` in `s`, or `|s|`. */
  function IndexOf(s: string, c: char): (i: nat)
    ensures i <= |s| && (i < |s| ==> s[i] == c)
    ensures forall k :: 0 <= k < i ==> s[k] != c
  {
    if s == "" || s[0] == c then 0 else 1 + IndexOf(s[1..], c)
  }

  /** `str::lines`: a line ends at LF or CR LF; text after the last LF is a line if not empty. */
  function Lines(text: string): seq<string>
    decreases |text|
  {
    if text == "" then []
    else
      var i := IndexOf(text, '\n');
      if i == |text| then [text] else [StripCR(text[..i])] + Lines(text[i + 1..])
  }

  /** The first place `pat` occurs in `s`, if any. */
  function Find(s: string, pat: string): (i: Option<nat>)
    ensures i.Some? ==> i.value + |pat| <= |s| && s[i.value..i.value + |pat|] == pat
    decreases |s|
  {
    if pat <= s then Some(0)
    else if s == "" then None
    else match Find(s[1..], pat)
      case None => None
      case Some(i) => Some(i + 1)
  }

  /** `parse::<u32>`: an optional plus, then at least one digit, within 32 bits. */
  function ParseU32(s: string): Option<nat> {
    var digits := if s != "" && s[0] == '+' then s[1..] else s;
    if digits == "" || exists i :: 0 <= i < |digits| && !Digit(digits[i]) then None
    else if Value(digits) < U32 then Some(Value(digits)) else None
  }

  // ---- the parser --------------------------------------------------------

  /** A range without its sign, up to its comma. */
  function RangeStart(part: string, sign: char): Option<nat> {
    if part == "" || part[0] != sign then None
    else ParseU32(part[1..][..IndexOf(part[1..], ',')])
  }

  /** `@@ -12,3 +14,5 @@` gives (12, 14). */
  function HunkStart(line: string): Option<(nat, nat)> {
    if !("@@ " <= line) then None
    else
      var rest := line[3..];
      match Find(rest, " @@")
      case None => None
      case Some(end) =>
        var ranges := rest[..end];
        var space := IndexOf(ranges, ' ');
        if space == |ranges| then None
        else
          var second := ranges[space + 1..];
          match (RangeStart(ranges[..space], '-'), RangeStart(second[..IndexOf(second, ' ')], '+'))
          case (Some(o), Some(n)) => Some((o, n))
          case _ => None
  }

  datatype Cursor = Cursor(before: nat, after: nat, inHunk: bool)

  const START := Cursor(0, 0, false)

  /** One line: its row, and where the next line's numbers stand. */
  function ParseLine(c: Cursor, line: string): (Cursor, Row) {
    match HunkStart(line)
    case Some((o, n)) => (Cursor(o, n, true), Row(Hunk, None, None, line))
    case None =>
      if !c.inHunk || "diff --git " <= line then
        (c.(inHunk := false),
         Row(if "--- " <= line || "+++ " <= line then File else if "Binary files " <= line then Note else Meta,
             None, None, line))
      else if line == "" then
        (Cursor(c.before + 1, c.after + 1, true), Row(Context, Some(c.before), Some(c.after), ""))
      else if line[0] == '+' then
        (c.(after := c.after + 1), Row(Added, None, Some(c.after), line[1..]))
      else if line[0] == '-' then
        (c.(before := c.before + 1), Row(Removed, Some(c.before), None, line[1..]))
      else if line[0] == '\\' then
        (c, Row(Note, None, None, line))
      else if line[0] == ' ' then
        (Cursor(c.before + 1, c.after + 1, true), Row(Context, Some(c.before), Some(c.after), line[1..]))
      else (c.(inHunk := false), Row(Meta, None, None, line))
  }

  function ParseRows(c: Cursor, lines: seq<string>): (rows: seq<Row>)
    ensures |rows| == |lines|
    decreases |lines|
  {
    if lines == [] then []
    else
      var (next, row) := ParseLine(c, lines[0]);
      [row] + ParseRows(next, lines[1..])
  }

  function Count(rows: seq<Row>, kind: Kind): nat {
    if rows == [] then 0 else Count(rows[..|rows| - 1], kind) + if rows[|rows| - 1].kind == kind then 1 else 0
  }

  datatype Diff = Diff(rows: seq<Row>, added: nat, removed: nat, truncated: bool, binary: bool)

  predicate BinaryRow(row: Row) {
    row.kind == Note && "Binary files " <= row.text
  }

  /** The first `MAX_ROWS` rows of the text, and the totals of the rows kept. */
  predicate Reads(text: string, d: Diff) {
    var all := ParseRows(START, Lines(text));
    && d.rows == (if |all| <= MAX_ROWS then all else all[..MAX_ROWS])
    && (d.truncated <==> |all| > MAX_ROWS)
    && d.added == Count(d.rows, Added) && d.removed == Count(d.rows, Removed)
    && (d.binary <==> exists row :: row in d.rows && BinaryRow(row))
  }

  lemma CountEmpty()
    ensures forall kind :: Count([], kind) == 0
  {
  }

  lemma CountSnoc(rows: seq<Row>, row: Row, kind: Kind)
    ensures Count(rows + [row], kind) == Count(rows, kind) + if row.kind == kind then 1 else 0
  {
    assert (rows + [row])[..|rows|] == rows;
  }

  /** The body of the parser's loop: the line's row and the counters it moves. */
  method ReadLine(c: Cursor, line: string) returns (next: Cursor, row: Row, added: nat, removed: nat, binary: bool)
    ensures (next, row) == ParseLine(c, line)
    ensures added == (if row.kind == Added then 1 else 0) && removed == (if row.kind == Removed then 1 else 0)
    ensures binary <==> BinaryRow(row)
  {
    hide HunkStart;
    next, added, removed, binary := c, 0, 0, false;
    var start := HunkStart(line);
    if start.Some? {
      return Cursor(start.value.0, start.value.1, true), Row(Hunk, None, None, line), 0, 0, false;
    }
    if "diff --git " <= line {
      next := next.(inHunk := false);
    }
    if !next.inHunk {
      var kind := Meta;
      if "--- " <= line || "+++ " <= line {
        kind := File;
      } else if "Binary files " <= line {
        binary := true;
        kind := Note;
      }
      row := Row(kind, None, None, line);
      return;
    }
    if line == "" {
      row := Row(Context, Some(c.before), Some(c.after), "");
      next := next.(before := c.before + 1, after := c.after + 1);
      return;
    }
    match line[0] {
      case '+' =>
        added := 1;
        row := Row(Added, None, Some(c.after), line[1..]);
        next := next.(after := c.after + 1);
      case '-' =>
        removed := 1;
        row := Row(Removed, Some(c.before), None, line[1..]);
        next := next.(before := c.before + 1);
      case '\\' =>
        row := Row(Note, None, None, line);
      case ' ' =>
        row := Row(Context, Some(c.before), Some(c.after), line[1..]);
        next := next.(before := c.before + 1, after := c.after + 1);
      case _ =>
        next := next.(inHunk := false);
        row := Row(Meta, None, None, line);
    }
  }

  /** One row a line until the cap, counting as it goes. */
  method Parse(text: string) returns (d: Diff)
    ensures Reads(text, d)
  {
    hide ParseLine, Lines, Count, BinaryRow;
    var rows: seq<Row>, added, removed, truncated, binary := [], 0, 0, false, false;
    assert Count(rows, Added) == 0 == Count(rows, Removed) by { CountEmpty(); }
    var c := START;
    var lines := Lines(text);
    var i := 0;
    assert lines[0..] == lines;
    while i < |lines|
      invariant 0 <= i <= |lines| && |rows| == i <= MAX_ROWS
      invariant ParseRows(START, lines) == rows + ParseRows(c, lines[i..])
      invariant added == Count(rows, Added) && removed == Count(rows, Removed)
      invariant binary <==> exists r :: r in rows && BinaryRow(r)
      invariant !truncated
    {
      if |rows| >= MAX_ROWS {
        truncated := true;
        break;
      }
      var line := lines[i];
      assert lines[i..][0] == line && lines[i..][1..] == lines[i + 1..];
      var next, row, plus, minus, note := ReadLine(c, line);
      CountSnoc(rows, row, Added);
      CountSnoc(rows, row, Removed);
      ghost var rest := ParseRows(next, lines[i + 1..]);
      assert ParseRows(c, lines[i..]) == [row] + rest;
      assert rows + ([row] + rest) == (rows + [row]) + rest;
      c, rows, i := next, rows + [row], i + 1;
      added, removed, binary := added + plus, removed + minus, binary || note;
    }
    d := Diff(rows, added, removed, truncated, binary);
  }
}
