/** Following a task's log: the client's tail (background_tasks.rs). */
module TaskLog {
  import opened Wrappers

  // Text is UTF-8 bytes, cut only between characters. The bounded read it follows is in `TaskServer`.

  const MAX_LOG_BYTES := 1024 * 1024
  const DEFAULT_BYTES := 65_536
  const LF: Byte := 10

  type Byte = b: int | 0 <= b < 256

  // ---- UTF-8 -------------------------------------------------------------

  predicate Continuation(b: Byte) {
    0x80 <= b < 0xC0
  }

  /** The bytes of the character a lead byte opens; 0 when none does. */
  function Width(b: Byte): (n: nat)
    ensures n <= 4
  {
    if b < 0x80 then 1 else if b < 0xC0 then 0 else if b < 0xE0 then 2 else if b < 0xF0 then 3
    else if b < 0xF8 then 4 else 0
  }

  /** The byte at `i` continues a character or opens a complete one. */
  predicate Sound(s: seq<Byte>, i: nat)
    requires i < |s|
  {
    Continuation(s[i]) ||
    var n := Width(s[i]);
    && n > 0 && i + n <= |s| && (i + n == |s| || !Continuation(s[i + n]))
    && forall k :: i < k < i + n ==> Continuation(s[k])
  }

  predicate Utf8(s: seq<Byte>) {
    (s != [] ==> !Continuation(s[0])) && forall i :: 0 <= i < |s| ==> Sound(s, i)
  }

  type Text = s: seq<Byte> | Utf8(s) witness []

  /** `is_char_boundary`: not in front of a continuation byte. */
  predicate Boundary(s: seq<Byte>, i: nat) {
    i == 0 || i == |s| || (i < |s| && !Continuation(s[i]))
  }

  lemma ConcatUtf8(a: Text, b: Text)
    ensures Utf8(a + b)
  {
    var s := a + b;
    forall i | 0 <= i < |s| ensures Sound(s, i) {
      if i < |a| {
        assert Sound(a, i);
      } else {
        assert Sound(b, i - |a|);
        assert forall k :: |a| <= k < |s| ==> s[k] == b[k - |a|];
      }
    }
  }

  lemma SliceUtf8(s: Text, i: nat, j: nat)
    requires i <= j <= |s| && Boundary(s, i) && Boundary(s, j)
    ensures Utf8(s[i..j])
    ensures forall k: nat :: k <= j - i ==> (Boundary(s[i..j], k) <==> Boundary(s, i + k))
  {
    var t := s[i..j];
    forall k | 0 <= k < |t| ensures Sound(t, k) {
      assert Sound(s, i + k);
    }
    if i < j { assert Sound(s, i); }
  }

  function NextBoundary(s: seq<Byte>, i: nat): (j: nat)
    requires i <= |s|
    ensures i <= j <= |s| && Boundary(s, j) && forall k :: i <= k < j ==> !Boundary(s, k)
    decreases |s| - i
  {
    if Boundary(s, i) then i else NextBoundary(s, i + 1)
  }

  function LastBoundary(s: seq<Byte>, i: nat): (j: nat)
    requires i <= |s|
    ensures j <= i && Boundary(s, j) && forall k :: j < k <= i ==> !Boundary(s, k)
  {
    if Boundary(s, i) then i else LastBoundary(s, i - 1)
  }

  /** The first line feed at or after `i`. */
  function NextLF(s: seq<Byte>, i: nat): (j: nat)
    requires i <= |s|
    ensures i <= j <= |s| && (j < |s| ==> s[j] == LF) && forall k :: i <= k < j ==> s[k] != LF
    decreases |s| - i
  {
    if i == |s| || s[i] == LF then i else NextLF(s, i + 1)
  }

  // ---- the client's log --------------------------------------------------

  datatype Process = Process(pid: nat, alive: bool)

  /** One `sessions.taskOutput` answer; a missing or mistyped field is `None`. */
  datatype Reply = Reply(
    task: Option<string>, session: Option<string>, source: Option<string>,
    offset: Option<nat>, next: Option<nat>, text: Option<Text>, reset: Option<bool>,
    size: Option<nat>, done: Option<bool>, running: Option<bool>, status: Option<string>, process: Option<Process>)

  datatype State = State(
    session: string, task: string, source: string, text: Text, next: Option<nat>, size: nat,
    truncated: bool, done: bool, running: bool, status: string, process: Option<Process>)

  function New(session: string, task: string, source: string): State {
    State(session, task, source, [], None, 0, false, false, true, "", None)
  }

  function Or<T>(o: Option<T>, default: T): T {
    if o.Some? then o.value else default
  }

  predicate Behind(log: State) {
    log.next.Some? && log.next.value < log.size
  }

  predicate Foreign(log: State, r: Reply) {
    || r.task != Some(log.task)
    || (r.session.Some? && r.session.value != log.session)
    || Or(r.source, "task") != log.source
    || r.offset.None? || r.next.None?
  }

  /** The reply replaces the text: the first one, or the first of a rewritten file. */
  predicate Replaces(log: State, r: Reply) {
    !Foreign(log, r) && (log.next.None? || Or(r.reset, false))
  }

  predicate Continues(log: State, r: Reply) {
    !Foreign(log, r) && !Replaces(log, r) && r.offset == log.next
  }

  /** Where an over-long text is cut: between characters, and after a line end if one is left. */
  function Cut(text: Text): (cut: nat)
    requires |text| > MAX_LOG_BYTES
    ensures |text| - MAX_LOG_BYTES <= cut <= |text| && Boundary(text, cut)
  {
    var c := NextBoundary(text, |text| - MAX_LOG_BYTES);
    var nl := NextLF(text, c);
    assert nl < |text| ==> Sound(text, nl);
    if nl + 1 < |text| then nl + 1 else c
  }

  function Trimmed(text: Text): (t: Text)
    ensures |t| <= MAX_LOG_BYTES
  {
    if |text| <= MAX_LOG_BYTES then text
    else
      SliceUtf8(text, Cut(text), |text|);
      text[Cut(text)..|text|]
  }

  /** Whole text taken and whether earlier output is missing, before the bound is applied. */
  function Taken(log: State, r: Reply): (Text, bool)
    requires Replaces(log, r) || Continues(log, r)
  {
    if Replaces(log, r) then (Or(r.text, []), r.offset.value > 0)
    else
      ConcatUtf8(log.text, Or(r.text, []));
      (log.text + Or(r.text, []), log.truncated)
  }

  function Applied(log: State, r: Reply): State {
    if !Replaces(log, r) && !Continues(log, r) then log
    else
      var (text, truncated) := Taken(log, r);
      log.(text := Trimmed(text), truncated := truncated || |text| > MAX_LOG_BYTES, next := r.next,
           size := Or(r.size, r.next.value), done := Or(r.done, false), running := Or(r.running, false),
           status := Or(r.status, ""), process := r.process)
  }

  class Log {
    const session: string
    const task: string
    const source: string
    var text: Text
    var next: Option<nat>
    var size: nat
    var truncated: bool
    var done: bool
    var running: bool
    var status: string
    var process: Option<Process>

    function View(): State
      reads this
    {
      State(session, task, source, text, next, size, truncated, done, running, status, process)
    }

    constructor (session: string, task: string, source: string)
      ensures View() == New(session, task, source)
    {
      this.session, this.task, this.source := session, task, source;
      text, next, size, truncated, done, running, status, process := [], None, 0, false, false, true, "", None;
    }

    method Trim()
      modifies `text, `truncated
      ensures text == Trimmed(old(text)) && truncated == (old(truncated) || |old(text)| > MAX_LOG_BYTES)
    {
      hide Utf8;
      if |text| > MAX_LOG_BYTES {
        ghost var start := |text| - MAX_LOG_BYTES;
        var cut := |text| - MAX_LOG_BYTES;
        while !Boundary(text, cut)
          invariant |text| - MAX_LOG_BYTES <= cut <= |text|
          invariant NextBoundary(text, |text| - MAX_LOG_BYTES) == NextBoundary(text, cut)
          decreases |text| - cut
          modifies {}
        {
          cut := cut + 1;
        }
        assert cut == NextBoundary(text, start);
        var nl := NextLF(text, cut);
        if nl < |text| && nl + 1 < |text| {
          cut := nl + 1;
        }
        assert cut == Cut(text);
        SliceUtf8(text, cut, |text|);
        text := text[cut..|text|];
        truncated := true;
      }
    }

    /** The reply's text in its place, or nothing when it does not continue from here. */
    method Place(r: Reply) returns (taken: bool)
      requires !Foreign(View(), r)
      modifies `text, `truncated
      ensures taken == (Replaces(old(View()), r) || Continues(old(View()), r))
      ensures if taken then (text, truncated) == Taken(old(View()), r) else View() == old(View())
    {
      if next.None? || Or(r.reset, false) {
        text := Or(r.text, []);
        truncated := r.offset.value > 0;
      } else if r.offset == next {
        ConcatUtf8(text, Or(r.text, []));
        text := text + Or(r.text, []);
      } else {
        return false;
      }
      return true;
    }

    /** Fold a reply in; says whether anything changed. */
    method Apply(r: Reply) returns (changed: bool)
      modifies this
      ensures View() == Applied(old(View()), r)
      ensures changed <==> View() != old(View())
    {
      hide Utf8, Trimmed, Taken;
      if r.task != Some(task) || (r.session.Some? && r.session.value != session) || Or(r.source, "task") != source {
        return false;
      }
      if r.offset.None? || r.next.None? {
        return false;
      }
      var before := View();
      var taken := Place(r);
      if !taken {
        return false;
      }
      next, size := r.next, Or(r.size, r.next.value);
      done, running, status := Or(r.done, false), Or(r.running, false), Or(r.status, "");
      process := r.process;
      Trim();
      changed := View() != before;
    }
  }
}
