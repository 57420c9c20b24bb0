/** A conversation as a fold (model.rs). */
module Transcripts {
  import opened Wrappers

  // A row is a function of the items pushed since the last snapshot, so a transcript here is that
  // item list and its cursor; a buffer holds the live deltas behind a read in flight.

  /** `shown`: the item displays a row. `size`: what it adds to the transcript's byte count. */
  datatype Item = Item(content: int, shown: bool, size: nat)

  datatype Snapshot = Snapshot(upTo: nat, items: seq<Item>)

  datatype Delta = Delta(upTo: nat, reset: bool, ready: bool, items: seq<Item>)

  datatype Transcript = Transcript(upTo: Option<nat>, items: seq<Item>)

  const EMPTY := Transcript(None, [])

  datatype Fold = Changed | Unchanged | Gap

  function FromSnapshot(s: Snapshot): Transcript {
    Transcript(Some(s.upTo), s.items)
  }

  /** `Transcript::delta`: a straddling delta applies only its unseen tail. */
  function Apply(t: Transcript, d: Delta): (Transcript, Fold) {
    if d.ready then (t, Unchanged)
    else if d.reset then (FromSnapshot(Snapshot(d.upTo, d.items)), Changed)
    else if t.upTo.None? then (t, Gap)
    else if d.upTo <= t.upTo.value then (t, Unchanged)
    else if d.upTo < |d.items| then (t, Gap)
    else
      var first := d.upTo - |d.items|;
      if first > t.upTo.value then (t, Gap)
      else (Transcript(Some(d.upTo), t.items + d.items[t.upTo.value - first..]), Changed)
  }

  /** Deltas folded in order; the fold stops at the first gap. */
  function Replay(t: Transcript, ds: seq<Delta>): (Transcript, bool)
    decreases |ds|
  {
    if ds == [] then (t, false)
    else
      var (u, fold) := Apply(t, ds[0]);
      if fold == Gap then (u, true) else Replay(u, ds[1..])
  }

  predicate Plain(d: Delta) {
    !d.reset && !d.ready
  }

  /** `buffer_delta`: a contiguous delta is folded into the last one held. */
  function Buffer(held: seq<Delta>, d: Delta): seq<Delta> {
    if |held| > 0 && Contiguous(held[|held| - 1], d)
    then held[..|held| - 1] + [Merge(held[|held| - 1], d)]
    else held + [d]
  }

  predicate Contiguous(last: Delta, d: Delta) {
    Plain(last) && Plain(d) && d.upTo >= |d.items| && d.upTo - |d.items| == last.upTo
  }

  function Merge(last: Delta, d: Delta): Delta {
    last.(upTo := d.upTo, items := last.items + d.items)
  }

  // ---- replaying in pieces -----------------------------------------------

  lemma {:induction false} ReplayAppend(t: Transcript, a: seq<Delta>, b: seq<Delta>)
    ensures Replay(t, a + b) == if Replay(t, a).1 then Replay(t, a) else Replay(Replay(t, a).0, b)
    decreases |a|
  {
    if a == [] {
      assert a + b == b;
    } else {
      assert (a + b)[1..] == a[1..] + b;
      ReplayAppend(Apply(t, a[0]).0, a[1..], b);
    }
  }

  lemma ReplayOne(t: Transcript, d: Delta)
    ensures Replay(t, [d]) == (Apply(t, d).0, Apply(t, d).1 == Gap)
  {
    assert [d][1..] == [];
  }

  lemma ReplayTwo(t: Transcript, a: Delta, b: Delta)
    ensures Replay(t, [a, b]) ==
      if Apply(t, a).1 == Gap then (Apply(t, a).0, true)
      else (Apply(Apply(t, a).0, b).0, Apply(Apply(t, a).0, b).1 == Gap)
  {
    assert [a, b] == [a] + [b];
    ReplayAppend(t, [a], [b]);
    ReplayOne(t, a);
    ReplayOne(Apply(t, a).0, b);
  }

  // ---- merging loses nothing ---------------------------------------------

  /** A merged delta that does not gap does what its two parts do. */
  lemma MergeSound(t: Transcript, a: Delta, b: Delta)
    requires Contiguous(a, b) && Apply(t, Merge(a, b)).1 != Gap
    ensures Replay(t, [a, b]) == (Apply(t, Merge(a, b)).0, false)
  {
    ReplayTwo(t, a, b);
    var s := t.upTo.value;
    if s < b.upTo {
      var first := b.upTo - |a.items| - |b.items|;
      if s < a.upTo {
        assert (a.items + b.items)[s - first..] == a.items[s - first..] + b.items;
        assert t.items + (a.items[s - first..] + b.items) == t.items + a.items[s - first..] + b.items;
        assert b.items[0..] == b.items;
        assert b.items == [] ==> t.items + a.items[s - first..] + b.items == t.items + a.items[s - first..];
        assert Apply(t, a).0 == Transcript(Some(a.upTo), t.items + a.items[s - first..]);
      } else {
        assert (a.items + b.items)[s - first..] == b.items[s - a.upTo..];
      }
    }
  }

  lemma MergedReplays(t: Transcript, a: Delta, b: Delta)
    requires Contiguous(a, b) && (|a.items| <= a.upTo || b.items == [])
    ensures Replay(t, [Merge(a, b)]) == Replay(t, [a, b])
  {
    hide Replay;
    ReplayOne(t, Merge(a, b));
    ReplayTwo(t, a, b);
    if Apply(t, Merge(a, b)).1 != Gap {
      MergeSound(t, a, b);
    }
  }

  lemma MalformedMerge(a: Delta, b: Delta)
    requires Contiguous(a, b) && |a.items| > a.upTo && b.items != []
    ensures var t := Transcript(Some(a.upTo), []); Replay(t, [Merge(a, b)]) != Replay(t, [a, b])
  {
    hide Replay;
    var t := Transcript(Some(a.upTo), []);
    ReplayOne(t, Merge(a, b));
    ReplayTwo(t, a, b);
  }

  /** It does so on every transcript exactly when the first part numbers its items from 1 or
      later, or the second brings none: otherwise merging can only cost another read. */
  lemma MergeExact(a: Delta, b: Delta)
    requires Contiguous(a, b)
    ensures (forall t :: Replay(t, [Merge(a, b)]) == Replay(t, [a, b])) <==> (|a.items| <= a.upTo || b.items == [])
  {
    hide Replay, Apply, Merge, Contiguous;
    if |a.items| <= a.upTo || b.items == [] {
      forall t ensures Replay(t, [Merge(a, b)]) == Replay(t, [a, b]) {
        MergedReplays(t, a, b);
      }
    } else {
      MalformedMerge(a, b);
    }
  }

  /** `held` stands for `ds`: wherever it replays without a gap, so do they, to the same rows. */
  ghost predicate Stands(held: seq<Delta>, ds: seq<Delta>) {
    forall t :: !Replay(t, held).1 ==> Replay(t, ds) == Replay(t, held)
  }

  /** Buffering one more delta keeps the buffer standing for everything received. */
  lemma BufferStands(held: seq<Delta>, ds: seq<Delta>, d: Delta)
    requires Stands(held, ds)
    ensures Stands(Buffer(held, d), ds + [d])
  {
    forall t | !Replay(t, Buffer(held, d)).1 ensures Replay(t, ds + [d]) == Replay(t, Buffer(held, d)) {
      ReplayAppend(t, ds, [d]);
      if |held| > 0 && Contiguous(held[|held| - 1], d) {
        var front, last := held[..|held| - 1], held[|held| - 1];
        assert held == front + [last];
        ReplayAppend(t, front, [Merge(last, d)]);
        ReplayAppend(t, front, [last]);
        var u := Replay(t, front).0;
        ReplayOne(u, Merge(last, d));
        MergeSound(u, last, d);
        ReplayTwo(u, last, d);
        ReplayOne(u, last);
        ReplayOne(Apply(u, last).0, d);
      } else {
        ReplayAppend(t, held, [d]);
      }
    }
  }

  // ---- what a gap-free fold means ----------------------------------------

  /** The delta carries exactly the items of `log` its numbers name. */
  ghost predicate Honest(log: seq<Item>, d: Delta) {
    Plain(d) && |d.items| <= d.upTo <= |log| && d.items == log[d.upTo - |d.items|..d.upTo]
  }

  /** With an honest snapshot and honest deltas, a fold without a gap shows the log itself, from
      the window's first item to the cursor: nothing missing, doubled or out of order. */
  lemma {:induction false} ReplayShowsTheLog(log: seq<Item>, from: nat, t: Transcript, ds: seq<Delta>)
    requires t.upTo.Some? && from <= t.upTo.value <= |log| && t.items == log[from..t.upTo.value]
    requires forall i :: 0 <= i < |ds| ==> Honest(log, ds[i])
    ensures var u := Replay(t, ds).0;
      u.upTo.Some? && t.upTo.value <= u.upTo.value <= |log| && u.items == log[from..u.upTo.value]
    ensures !Replay(t, ds).1 ==> forall i :: 0 <= i < |ds| ==> ds[i].upTo <= Replay(t, ds).0.upTo.value
    decreases |ds|
  {
    if ds != [] {
      var d := ds[0];
      assert Honest(log, d);
      var (u, fold) := Apply(t, d);
      if fold == Changed {
        var s, first := t.upTo.value, d.upTo - |d.items|;
        assert d.items[s - first..] == log[s..d.upTo];
        assert log[from..s] + log[s..d.upTo] == log[from..d.upTo];
      }
      if fold != Gap {
        ReplayShowsTheLog(log, from, u, ds[1..]);
        forall i | 0 <= i < |ds| && !Replay(t, ds).1 ensures ds[i].upTo <= Replay(t, ds).0.upTo.value {
          if i > 0 { assert ds[i] == ds[1..][i - 1]; }
        }
      }
    }
  }

  /** An honest delta is taken if and only if it starts no later than the cursor, which it then never moves
      back; a reset starts over with just its own items, and a ready only says so. */
  lemma DeltaIsTakenIff(log: seq<Item>, t: Transcript, d: Delta)
    ensures d.ready ==> Apply(t, d) == (t, Unchanged)
    ensures d.reset && !d.ready ==> Apply(t, d) == (Transcript(Some(d.upTo), d.items), Changed)
    ensures Honest(log, d) ==>
      (Apply(t, d).1 == Gap <==> t.upTo.None? || d.upTo - |d.items| > t.upTo.value)
    ensures Honest(log, d) && t.upTo.Some? && d.upTo - |d.items| <= t.upTo.value ==>
      Apply(t, d).0.upTo == Some(if d.upTo > t.upTo.value then d.upTo else t.upTo.value)
    ensures Apply(t, d).1 == Gap ==> Apply(t, d).0 == t
  {
  }

  /** A delta that starts where the last one held ends takes no room of its own. */
  lemma NextDeltaNeedsNoRoom(held: seq<Delta>, d: Delta)
    requires held != [] && Plain(d) && |d.items| <= d.upTo
    ensures var last := held[|held| - 1];
      |Buffer(held, d)| == if Plain(last) && d.upTo - |d.items| == last.upTo then |held| else |held| + 1
  {
  }
}
