/** The bounded read behind a log (harness.rs). */
module TaskServer {
  import opened Wrappers
  import opened TaskLog
  import opened TaskFollow

  /** The window asked for: from the offset when the file reaches it, else the file's tail. */
  function Window(size: nat, offset: Option<nat>, max: nat): (w: (nat, nat))
    ensures w.0 <= w.1 <= size
  {
    var start := if offset.Some? && offset.value <= size then offset.value
                 else if size < max then 0 else size - max;
    (start, if start + max < size then start + max else size)
  }

  function Limit(maxBytes: Option<nat>): (max: nat)
    ensures max >= 1
  {
    if Or(maxBytes, DEFAULT_BYTES) < 1 then 1 else Or(maxBytes, DEFAULT_BYTES)
  }

  /** The part of the file answered: the window narrowed to whole characters. `None` stands for the
      slice whose start passes its end, which panics. */
  function Served(file: seq<Byte>, offset: Option<nat>, max: nat): Option<(nat, nat)> {
    var w := Window(|file|, offset, max);
    var start, end := NextBoundary(file, w.0), LastBoundary(file, w.1);
    if start <= end then Some((start, end)) else None
  }

  method BoundedRead(file: Text, offset: Option<nat>, maxBytes: Option<nat>) returns (part: Option<(nat, nat)>)
    ensures part == Served(file, offset, Limit(maxBytes))
  {
    hide Utf8, Limit;
    var size := |file|;
    var max := Limit(maxBytes);
    var start := if offset.Some? && offset.value <= size then offset.value
                 else if size < max then 0 else size - max;
    var end := if start + max < size then start + max else size;
    ghost var w := Window(size, offset, max);
    while !Boundary(file, start)
      invariant w.0 <= start <= size && NextBoundary(file, start) == NextBoundary(file, w.0)
      decreases size - start
    {
      start := start + 1;
    }
    while !Boundary(file, end)
      invariant 0 <= end <= w.1 && LastBoundary(file, end) == LastBoundary(file, w.1)
      decreases end
    {
      end := end - 1;
    }
    part := if start <= end then Some((start, end)) else None;
  }

  /** The read panics exactly when the window lies inside one character. */
  lemma FaultsInsideACharacter(file: Text, offset: Option<nat>, max: nat)
    ensures var (start, end) := Window(|file|, offset, max);
      Served(file, offset, max) == None <==> forall k :: start <= k <= end ==> !Boundary(file, k)
  {
    hide Utf8;
    var (start, end) := Window(|file|, offset, max);
    var s, e := NextBoundary(file, start), LastBoundary(file, end);
    if s <= e { assert start <= s <= end && Boundary(file, s); }
    if s > e {
      forall k | start <= k <= end ensures !Boundary(file, k) {
        assert k < s || k > e;
      }
    }
  }

  /** A read at a position inside a three-byte character, for one byte, panics. */
  lemma {:induction false} ReadInsideACharacter() returns (file: Text)
    ensures file == [0xE2, 0x82, 0xAC] && Served(file, Some(1), 1) == None
  {
    file := [0xE2, 0x82, 0xAC];
    forall k | 1 <= k <= 2 ensures !Boundary(file, k) { }
    FaultsInsideACharacter(file, Some(1), 1);
  }

  /** A position the client was given, or none, is always answered. */
  lemma GivenPositionsAreAnswered(file: Text, offset: Option<nat>, max: nat)
    requires offset.Some? ==> offset.value <= |file| && Boundary(file, offset.value)
    ensures Served(file, offset, max).Some?
    ensures offset.Some? ==> Served(file, offset, max).value.0 == offset.value
    ensures offset.None? ==> Served(file, offset, max).value.1 == |file|
  {
    hide Utf8;
    var (start, end) := Window(|file|, offset, max);
    if offset.Some? {
      assert NextBoundary(file, start) == start;
      assert start <= LastBoundary(file, end);
    } else {
      assert end == |file| && Boundary(file, end);
      assert LastBoundary(file, end) == end;
    }
  }

  // ---- reading on --------------------------------------------------------

  datatype Progress = Progress(running: bool, status: string, process: Option<Process>)

  /** The server's answer to the log's next read. */
  function Answer(log: State, file: Text, max: nat, p: Progress): (r: Reply)
    requires Served(file, log.next, max).Some?
    ensures ReadFrom(r, file) && !Foreign(log, r) && !Or(r.reset, false)
  {
    var (start, end) := Served(file, log.next, max).value;
    Reply(Some(log.task), Some(log.session), Some(log.source), Some(start), Some(end), Some(Slice(file, start, end)),
          Some(false), Some(|file|), Some(!p.running && end >= |file|), Some(p.running), Some(p.status), p.process)
  }

  /** One read of the log's next part. */
  function ReadOn(log: State, file: Text, max: nat, p: Progress): State
    requires Follows(log, file)
  {
    GivenPositionsAreAnswered(file, log.next, max);
    Applied(log, Answer(log, file, max, p))
  }

  lemma ReadOnFollows(log: State, file: Text, max: nat, p: Progress)
    requires Follows(log, file)
    ensures Follows(ReadOn(log, file, max, p), file)
    ensures ReadOn(log, file, max, p).size == |file|
    ensures ReadOn(log, file, max, p).next == Some(Served(file, log.next, max).value.1)
  {
    hide Utf8, Follows, Taken, Trimmed, Served;
    GivenPositions(log, file, max);
    var r := Answer(log, file, max, p);
    assert log.next.Some? ==> r.offset == log.next;
    StepFollows(log, r, file);
  }

  /** What the log says of the task after a read is what the server said: done exactly when the task no
      longer runs and its file is read to the end. */
  lemma ReadOnTells(log: State, file: Text, max: nat, p: Progress)
    requires Follows(log, file)
    ensures var next := ReadOn(log, file, max, p);
      && (next.done <==> !p.running && next.next == Some(|file|))
      && next.running == p.running && next.status == p.status && next.process == p.process
      && next.size == |file| && next.session == log.session && next.task == log.task && next.source == log.source
  {
    hide Utf8, Follows, Trimmed, Served;
    GivenPositions(log, file, max);
    var r := Answer(log, file, max, p);
    assert log.next.Some? ==> r.offset == log.next;
  }

  lemma GivenPositions(log: State, file: Text, max: nat)
    requires Follows(log, file)
    ensures Served(file, log.next, max).Some?
    ensures log.next.Some? ==> Served(file, log.next, max).value.0 == log.next.value
  {
    hide Utf8, Served;
    GivenPositionsAreAnswered(file, log.next, max);
  }

  /** A read moves on exactly when the next character fits in it. */
  lemma MovesOnIffACharacterFits(log: State, file: Text, max: nat, p: Progress)
    requires Follows(log, file) && log.next.Some? && log.next.value < |file|
    ensures ReadOn(log, file, max, p).next.value > log.next.value <==>
      NextBoundary(file, log.next.value + 1) <= log.next.value + max
  {
    hide Utf8, Applied, Answer;
    ReadOnFollows(log, file, max, p);
    var n := log.next.value;
    GivenPositionsAreAnswered(file, log.next, max);
    var (_, end) := Window(|file|, log.next, max);
    var b, e := NextBoundary(file, n + 1), LastBoundary(file, end);
    if b <= n + max { assert Boundary(file, b) && b <= end; }
    if e > n { assert Boundary(file, e) && b <= e; }
  }

  lemma CharactersAreShort(file: Text, i: nat)
    requires i < |file| && Boundary(file, i)
    ensures NextBoundary(file, i + 1) <= i + 4
  {
    assert Sound(file, i);
    var n := Width(file[i]);
    assert Boundary(file, i + n);
  }

  function ReadTimes(log: State, file: Text, max: nat, p: Progress, times: nat): State
    requires Follows(log, file)
    decreases times
  {
    if times == 0 then log
    else
      ReadOnFollows(log, file, max, p);
      ReadTimes(ReadOn(log, file, max, p), file, max, p, times - 1)
  }

  /** Reading on reaches the file's end: the bytes left shrink with every read. */
  lemma {:induction false} ReadingOnReachesTheEnd(log: State, file: Text, max: nat, p: Progress) returns (times: nat)
    requires Follows(log, file) && log.next.Some? && max >= 4
    ensures times <= |file| - log.next.value
    ensures var last := ReadTimes(log, file, max, p, times);
      last.next == Some(|file|) && Follows(last, file) && (times > 0 ==> !Behind(last))
    decreases |file| - log.next.value
  {
    hide Utf8, ReadOn;
    var n := log.next.value;
    if n == |file| {
      times := 0;
    } else {
      CharactersAreShort(file, n);
      ReadOnFollows(log, file, max, p);
      MovesOnIffACharacterFits(log, file, max, p);
      var next := ReadOn(log, file, max, p);
      assert next.next.value <= |file|;
      var more := ReadingOnReachesTheEnd(next, file, max, p);
      times := more + 1;
    }
  }

  /** The first read asks for the tail and ends where the file does. */
  lemma FirstReadIsTheTail(log: State, file: Text, max: nat, p: Progress)
    requires Follows(log, file) && log.next.None? && max >= 1
    ensures var first := ReadOn(log, file, max, p);
      first.next == Some(|file|) && Follows(first, file) && !Behind(first)
  {
    hide Utf8, Served, Follows, ReadOn;
    ReadOnFollows(log, file, max, p);
    GivenPositionsAreAnswered(file, None, max);
  }

  /** A read is never longer than was asked, and stops short of that only at the file's end or where the next
      character would not fit whole. */
  lemma ReadsAreBounded(file: Text, offset: Option<nat>, max: nat)
    requires Served(file, offset, max).Some?
    ensures var (start, end) := Served(file, offset, max).value;
      && end - start <= max && Boundary(file, start) && Boundary(file, end)
      && (offset.Some? && offset.value <= |file| ==>
            offset.value <= start && (end == |file| || LastBoundary(file, offset.value + max) == end))
      && (offset.None? || offset.value > |file| ==> end == |file| && (max >= |file| ==> start == 0))
  {
    hide Utf8;
  }
}
