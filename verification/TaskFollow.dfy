/** What the followed log shows. */
module TaskFollow {
  import opened Wrappers
  import opened TaskLog

  // Over every sequence of replies: the bytes of the growing file that end where the next read starts.

  // ---- the tail ----------------------------------------------------------

  predicate AtLineStart(file: Text, i: nat) {
    i == 0 || (i <= |file| && file[i - 1] == LF)
  }

  /** The log holds the bytes of `file` that end at `next`, and knows whether that is all of them. */
  predicate Follows(log: State, file: Text) {
    match log.next
    case None => log.text == [] && !log.truncated
    case Some(n) =>
      && |log.text| <= n <= log.size <= |file|
      && log.text == file[n - |log.text|..n]
      && Boundary(file, n) && Boundary(file, n - |log.text|)
      && |log.text| <= MAX_LOG_BYTES
      && (log.truncated <==> |log.text| < n)
  }

  /** An answer read from `file` at some moment of its growth. */
  predicate ReadFrom(r: Reply, file: Text) {
    && r.offset.Some? && r.next.Some? && r.offset.value <= r.next.value <= Or(r.size, r.next.value) <= |file|
    && Boundary(file, r.offset.value) && Boundary(file, r.next.value)
    && r.text == Some(file[r.offset.value..r.next.value])
  }

  /** Of the lines that start within the bound, the cut gives up exactly the one that starts at the
      bound's first character, when another line follows it. */
  lemma CutKeepsWholeLines(text: Text, i: nat)
    requires |text| > MAX_LOG_BYTES && |text| - MAX_LOG_BYTES <= i < |text| && AtLineStart(text, i)
    ensures i < Cut(text) <==>
      i == NextBoundary(text, |text| - MAX_LOG_BYTES) && NextLF(text, i) + 1 < |text|
    ensures i >= Cut(text) ==> AtLineStart(text, Cut(text))
  {
    hide Utf8;
    var c := NextBoundary(text, |text| - MAX_LOG_BYTES);
    LineStartIsBoundary(text, i);
    if i > c {
      assert text[i - 1] == LF && NextLF(text, c) <= i - 1;
    }
  }

  lemma LineStartIsBoundary(text: Text, i: nat)
    requires i < |text| && AtLineStart(text, i)
    ensures Boundary(text, i)
  {
    if i > 0 { assert Sound(text, i - 1); }
  }

  lemma TrimmedIsASuffix(text: Text)
    ensures var t := Trimmed(text);
      && |t| <= |text| && t == text[|text| - |t|..] && Boundary(text, |text| - |t|)
      && (|t| < |text| <==> |text| > MAX_LOG_BYTES)
  {
    hide Utf8;
    if |text| > MAX_LOG_BYTES {
      var cut := Cut(text);
      assert Trimmed(text) == text[cut..|text|] && text[cut..|text|] == text[cut..];
    } else {
      assert text[0..] == text;
    }
  }

  /** Trimming a slice of the file leaves a slice of the file. */
  lemma TrimmedSlice(file: Text, from: nat, upTo: nat)
    requires from <= upTo <= |file| && Boundary(file, from) && Boundary(file, upTo)
    requires Utf8(file[from..upTo])
    ensures var t := Trimmed(file[from..upTo]);
      |t| <= upTo - from && t == file[upTo - |t|..upTo] && Boundary(file, upTo - |t|)
    ensures |Trimmed(file[from..upTo])| < upTo - from <==> upTo - from > MAX_LOG_BYTES
  {
    hide Utf8, Trimmed, Boundary;
    var text: Text := file[from..upTo];
    SliceUtf8(file, from, upTo);
    TrimmedIsASuffix(text);
    var n := |Trimmed(text)|;
    assert text[|text| - n..] == file[upTo - n..upTo];
  }

  lemma TakenIsASlice(log: State, r: Reply, file: Text)
    requires ReadFrom(r, file) && (Replaces(log, r) || (Continues(log, r) && Follows(log, file)))
    ensures var (text, truncated) := Taken(log, r);
      var n := r.next.value;
      |text| <= n && text == file[n - |text|..n] && Boundary(file, n - |text|) && (truncated <==> |text| < n)
  {
    hide Utf8, Boundary;
    var chunk := r.text.value;
    if Continues(log, r) {
      var n := r.offset.value;
      assert log.text + chunk == file[n - |log.text|..r.next.value];
    }
  }

  /** Every reply leaves the log on its file's tail: ignored, taken from where the log stands, or replacing it. */
  lemma EveryReplyKeepsTheTail(log: State, r: Reply, file: Text)
    requires Follows(log, file) || Replaces(log, r)
    requires Replaces(log, r) || Continues(log, r) ==> ReadFrom(r, file)
    ensures Follows(Applied(log, r), file)
  {
    hide Utf8, Boundary, Trimmed, Taken;
    if Replaces(log, r) || Continues(log, r) {
      TakenIsASlice(log, r, file);
      var (text, _) := Taken(log, r);
      TrimmedSlice(file, r.next.value - |text|, r.next.value);
    }
  }

  /** A reply that is taken says all the log now says of its task, each from the reply's own field; any
      other says nothing. */
  lemma TakenReplyTells(log: State, r: Reply)
    ensures var now := Applied(log, r);
      && now.session == log.session && now.task == log.task && now.source == log.source
      && if r.task == Some(log.task) && r.session in {None, Some(log.session)}
            && (if r.source.Some? then r.source.value else "task") == log.source && r.offset.Some? && r.next.Some?
            && (log.next.None? || r.reset == Some(true) || r.offset == log.next) then
           && now.next == r.next && now.size == (if r.size.Some? then r.size else r.next).value
           && now.done == (r.done == Some(true)) && now.running == (r.running == Some(true))
           && now.status == (if r.status.Some? then r.status.value else "") && now.process == r.process
         else now == log
  {
    hide Trimmed, Taken;
  }

  // ---- every run ---------------------------------------------------------

  function Fold(log: State, replies: seq<Reply>): State
    decreases |replies|
  {
    if replies == [] then log else Fold(Applied(log, replies[0]), replies[1..])
  }

  /** Any replies in any order, stale, repeated, lost or foreign, resets included: the tail of the file. */
  lemma {:induction false} EveryRunFollowsTheFile(
      session: string, task: string, source: string, replies: seq<Reply>, file: Text)
    requires forall r :: r in replies ==> Foreign(New(session, task, source), r) || ReadFrom(r, file)
    ensures Follows(Fold(New(session, task, source), replies), file)
  {
    NewFollows(session, task, source, file);
    RestFollows(New(session, task, source), replies, file);
  }

  lemma {:induction false} RestFollows(log: State, replies: seq<Reply>, file: Text)
    requires Follows(log, file)
    requires forall r :: r in replies ==> Foreign(log, r) || ReadFrom(r, file)
    ensures Follows(Fold(log, replies), file)
    decreases |replies|
  {
    hide Follows, ReadFrom, Applied, Foreign;
    if replies != [] {
      var r := replies[0];
      assert r in replies;
      StepFollows(log, r, file);
      forall q | q in replies[1..] ensures Foreign(Applied(log, r), q) || ReadFrom(q, file) {
        assert q in replies;
        SameTask(log, r, q);
      }
      RestFollows(Applied(log, r), replies[1..], file);
    }
  }

  lemma StepFollows(log: State, r: Reply, file: Text)
    requires Follows(log, file) && (Foreign(log, r) || ReadFrom(r, file))
    ensures Follows(Applied(log, r), file)
  {
    hide Follows, ReadFrom;
    if !Foreign(log, r) { EveryReplyKeepsTheTail(log, r, file); }
  }

  lemma SameTask(log: State, r: Reply, q: Reply)
    ensures Foreign(Applied(log, r), q) <==> Foreign(log, q)
  {
  }

  lemma NewFollows(session: string, task: string, source: string, file: Text)
    ensures Follows(New(session, task, source), file)
  {
  }

  /** A reply delivered twice counts once. */
  lemma SecondDeliveryChangesNothing(log: State, r: Reply)
    requires r.offset == r.next ==> Or(r.text, []) == []
    ensures Applied(Applied(log, r), r) == Applied(log, r)
  {
    hide Utf8, Boundary;
    var once := Applied(log, r);
    if Continues(once, r) {
      assert once.text + [] == once.text;
    }
  }

  // ---- a file that is rewritten ------------------------------------------

  /** How much of the text already there is left once the reply's is appended and the bound applied. */
  function Left(log: State, r: Reply): (k: nat)
    requires Continues(log, r)
    ensures k <= |log.text|
  {
    var t, chunk := Trimmed(Taken(log, r).0), Or(r.text, []);
    if |t| <= |chunk| then 0 else if |t| - |chunk| <= |log.text| then |t| - |chunk| else |log.text|
  }

  /** A read that continues the log, of whatever file: the log follows that file exactly when what is
      left of the text already there is what that file holds before the read. */
  lemma ContinuedLogFollowsIff(log: State, r: Reply, held: Text, file: Text)
    requires Follows(log, held) && Continues(log, r) && ReadFrom(r, file)
    ensures Left(log, r) <= r.offset.value
    ensures Follows(Applied(log, r), file) <==>
      log.text[|log.text| - Left(log, r)..] == file[r.offset.value - Left(log, r)..r.offset.value]
  {
    hide Utf8, Trimmed, Boundary, Applied, Follows, Continues, ReadFrom, Left, Taken;
    ContinuedLog(log, r, held, file);
    var chunk, o, n := r.text.value, r.offset.value, r.next.value;
    var t := Trimmed(log.text + chunk);
    TailIsTheFiles(log.text, chunk, file, o, |t|);
    if t == file[n - |t|..n] { SliceStarts(file, n - |t|, t); }
  }

  lemma ContinuedLog(log: State, r: Reply, held: Text, file: Text)
    requires Follows(log, held) && Continues(log, r) && ReadFrom(r, file)
    ensures Utf8(log.text + r.text.value) && r.offset.Some? && r.next.Some? && r.text.Some?
    ensures var chunk, o, n := r.text.value, r.offset.value, r.next.value;
      && |log.text| <= o && n == o + |chunk| <= |file| && chunk == file[o..n] && Boundary(file, n)
    ensures var t, n := Trimmed(log.text + r.text.value), r.next.value;
      && |t| <= n && |t| <= |log.text| + |r.text.value|
      && t == (log.text + r.text.value)[|log.text| + |r.text.value| - |t|..]
      && (Follows(Applied(log, r), file) <==> t == file[n - |t|..n] && Boundary(file, n - |t|))
      && Left(log, r) == (if |t| <= |r.text.value| then 0 else |t| - |r.text.value|)
  {
    hide Utf8, Trimmed, Boundary;
    ConcatUtf8(log.text, r.text.value);
    TrimmedIsASuffix(log.text + r.text.value);
  }

  lemma TailIsTheFiles(kept: seq<Byte>, chunk: seq<Byte>, file: seq<Byte>, o: nat, m: nat)
    requires |kept| <= o && o + |chunk| <= |file| && chunk == file[o..o + |chunk|] && m <= |kept| + |chunk|
    ensures var k := if m <= |chunk| then 0 else m - |chunk|;
      (kept + chunk)[|kept| + |chunk| - m..] == file[o + |chunk| - m..o + |chunk|]
      <==> kept[|kept| - k..] == file[o - k..o]
  {
    var n, t := o + |chunk|, (kept + chunk)[|kept| + |chunk| - m..];
    if m <= |chunk| {
      assert t == chunk[|chunk| - m..] == file[n - m..n];
      assert kept[|kept|..] == file[o..o];
    } else {
      var k := m - |chunk|;
      assert t == kept[|kept| - k..] + chunk;
      assert file[n - m..n] == file[o - k..o] + chunk;
      assert t[..k] == kept[|kept| - k..] && file[n - m..n][..k] == file[o - k..o];
    }
  }

  /** Where a whole text was found, a character starts. */
  lemma SliceStarts(file: Text, i: nat, t: Text)
    requires i + |t| <= |file| && t == file[i..i + |t|] && Boundary(file, i + |t|)
    ensures Boundary(file, i)
  {
    if t != [] { assert t[0] == file[i]; }
  }

  /** A late read of the file before a rewrite is not told apart: here the log mixes the two. */
  lemma LateReadMixesFiles() returns (a: Text, b: Text, first: Reply, rewritten: Reply, late: Reply)
    ensures ReadFrom(first, a) && ReadFrom(rewritten, b) && ReadFrom(late, a)
    ensures var log := Fold(New("s", "t", "task"), [first, rewritten, late]);
      log.text == b + [68] && !Follows(log, a) && !Follows(log, b)
  {
    a, b := [65, 66, 67, 68], [120, 121, 122];
    first, rewritten, late := Part(a, 0, 3, false), Part(b, 0, 3, true), Part(a, 3, 4, false);
    assert b[0..3] == b && a[3..4] == [68];
    var l1 := Applied(New("s", "t", "task"), first);
    var l2 := Applied(l1, rewritten);
    FoldThree(New("s", "t", "task"), first, rewritten, late);
    assert l2.text == b && Applied(l2, late).text == b + [68] by { hide Utf8, Cut; }
  }

  lemma FoldThree(log: State, p: Reply, q: Reply, r: Reply)
    ensures Fold(log, [p, q, r]) == Applied(Applied(Applied(log, p), q), r)
  {
    hide Applied;
    assert [p, q, r][1..] == [q, r] && [q, r][1..] == [r] && [r][1..] == [];
    assert Fold(Applied(log, p), [q, r]) == Fold(Applied(Applied(log, p), q), [r]);
  }

  function Slice(file: Text, from: nat, upTo: nat): Text
    requires from <= upTo <= |file| && Boundary(file, from) && Boundary(file, upTo)
  {
    SliceUtf8(file, from, upTo);
    file[from..upTo]
  }

  /** A part of a file as a reply. */
  function Part(file: Text, from: nat, upTo: nat, reset: bool): Reply
    requires from <= upTo <= |file| && Boundary(file, from) && Boundary(file, upTo)
  {
    Reply(Some("t"), Some("s"), Some("task"), Some(from), Some(upTo), Some(Slice(file, from, upTo)), Some(reset),
          Some(|file|), Some(false), Some(true), Some(""), None)
  }

  /** One delivery: the reply, and which of the log's successive files it was read from. */
  datatype Delivery = Delivery(reply: Reply, file: nat)

  function Held(log: State, held: nat, d: Delivery): nat {
    if Replaces(log, d.reply) then d.file else held
  }

  /** No read of a former file arrives where it would continue the present one. */
  predicate Orderly(log: State, held: nat, files: seq<Text>, ds: seq<Delivery>)
    decreases |ds|
  {
    ds == [] ||
    (var d := ds[0];
     && (Foreign(log, d.reply) || (d.file < |files| && ReadFrom(d.reply, files[d.file])))
     && (Continues(log, d.reply) ==> d.file == held)
     && Orderly(Applied(log, d.reply), Held(log, held, d), files, ds[1..]))
  }

  function HeldAfter(log: State, held: nat, ds: seq<Delivery>): nat
    decreases |ds|
  {
    if ds == [] then held else HeldAfter(Applied(log, ds[0].reply), Held(log, held, ds[0]), ds[1..])
  }

  /** Through any number of rewrites the log is the tail of one of the files: the one last reset to. */
  lemma {:induction false} EveryRewriteIsFollowed(log: State, held: nat, files: seq<Text>, ds: seq<Delivery>)
    requires held < |files| && Follows(log, files[held]) && Orderly(log, held, files, ds)
    ensures HeldAfter(log, held, ds) < |files|
    ensures Follows(Fold(log, Replies(ds)), files[HeldAfter(log, held, ds)])
    decreases |ds|
  {
    hide Follows, ReadFrom, Applied;
    if ds != [] {
      var d := ds[0];
      if Replaces(log, d.reply) || Continues(log, d.reply) {
        EveryReplyKeepsTheTail(log, d.reply, files[d.file]);
      } else {
        Unmoved(log, d.reply);
      }
      assert Replies(ds)[1..] == Replies(ds[1..]);
      EveryRewriteIsFollowed(Applied(log, d.reply), Held(log, held, d), files, ds[1..]);
    }
  }

  lemma Unmoved(log: State, r: Reply)
    requires !Replaces(log, r) && !Continues(log, r)
    ensures Applied(log, r) == log
  {
  }

  function Replies(ds: seq<Delivery>): seq<Reply> {
    if ds == [] then [] else [ds[0].reply] + Replies(ds[1..])
  }

  // ---- one delivery more -------------------------------------------------

  /** The delivery may come next: it is foreign, replaces, or continues the file held. */
  predicate Fits(log: State, held: nat, files: seq<Text>, d: Delivery) {
    && (Foreign(log, d.reply) || (d.file < |files| && ReadFrom(d.reply, files[d.file])))
    && (Continues(log, d.reply) ==> d.file == held)
  }

  lemma {:induction false} OrderlySnoc(log: State, held: nat, files: seq<Text>, ds: seq<Delivery>, d: Delivery)
    requires Orderly(log, held, files, ds)
    requires Fits(Fold(log, Replies(ds)), HeldAfter(log, held, ds), files, d)
    ensures Orderly(log, held, files, ds + [d])
    decreases |ds|
  {
    hide ReadFrom, Applied, Foreign, Continues, Replaces;
    if ds == [] {
      assert (ds + [d])[1..] == [];
    } else {
      assert (ds + [d])[1..] == ds[1..] + [d] && Replies(ds)[1..] == Replies(ds[1..]);
      OrderlySnoc(Applied(log, ds[0].reply), Held(log, held, ds[0]), files, ds[1..], d);
    }
  }

  lemma {:induction false} FoldSnoc(log: State, held: nat, ds: seq<Delivery>, d: Delivery)
    ensures Fold(log, Replies(ds + [d])) == Applied(Fold(log, Replies(ds)), d.reply)
    ensures HeldAfter(log, held, ds + [d]) == Held(Fold(log, Replies(ds)), HeldAfter(log, held, ds), d)
    decreases |ds|
  {
    hide Applied, Replaces;
    if ds == [] {
      assert (ds + [d])[1..] == [] && Replies([d]) == [d.reply] && [d.reply][1..] == [];
    } else {
      assert (ds + [d])[1..] == ds[1..] + [d];
      assert Replies(ds)[1..] == Replies(ds[1..]) && Replies(ds + [d])[1..] == Replies(ds[1..] + [d]);
      FoldSnoc(Applied(log, ds[0].reply), Held(log, held, ds[0]), ds[1..], d);
    }
  }

  /** Every file only grew, and others may have been written since. */
  predicate Grown(files: seq<Text>, later: seq<Text>) {
    |files| <= |later| && forall i :: 0 <= i < |files| ==> files[i] <= later[i]
  }

  lemma ReadFromGrows(r: Reply, file: Text, later: Text)
    requires file <= later && ReadFrom(r, file)
    ensures ReadFrom(r, later)
  {
    hide Utf8;
    BoundaryGrows(file, later, r.offset.value);
    BoundaryGrows(file, later, r.next.value);
    assert file[r.offset.value..r.next.value] == later[r.offset.value..r.next.value];
  }

  lemma BoundaryGrows(file: Text, later: Text, i: nat)
    requires file <= later && i <= |file| && Boundary(file, i)
    ensures Boundary(later, i)
  {
    if 0 < i == |file| < |later| {
      LastBoundaryIsAStart(file, later);
    }
  }

  lemma LastBoundaryIsAStart(file: Text, later: Text)
    requires file < later && file != []
    ensures !Continuation(later[|file|])
  {
    var k := LastBoundary(file, |file| - 1);
    assert forall j :: k < j < |file| ==> Continuation(file[j]) by {
      forall j | k < j < |file| ensures Continuation(file[j]) { assert !Boundary(file, j); }
    }
    assert Sound(file, k) && Sound(later, k);
  }

  lemma {:induction false} OrderlyGrows(log: State, held: nat, files: seq<Text>, later: seq<Text>, ds: seq<Delivery>)
    requires Grown(files, later) && Orderly(log, held, files, ds)
    ensures Orderly(log, held, later, ds)
    decreases |ds|
  {
    hide ReadFrom, Applied, Foreign, Continues, Replaces;
    if ds != [] {
      var d := ds[0];
      if !Foreign(log, d.reply) { ReadFromGrows(d.reply, files[d.file], later[d.file]); }
      OrderlyGrows(Applied(log, d.reply), Held(log, held, d), files, later, ds[1..]);
    }
  }
}
