/** Each child is shown in exactly one place. */
module ChildProof {
  import opened Wrappers
  import opened ChildAgents
  import opened Sorting

  // ---- counting places ---------------------------------------------------

  /** How many times `c` is placed under a tool call. */
  function Times(placed: seq<Placement>, c: Child): nat {
    if placed == [] then 0 else (if placed[0].1 == c then 1 else 0) + Times(placed[1..], c)
  }

  function Listed(children: seq<Child>, c: Child): nat {
    if children == [] then 0 else (if children[0] == c then 1 else 0) + Listed(children[1..], c)
  }

  lemma {:induction false} TimesConcat(a: seq<Placement>, b: seq<Placement>, c: Child)
    ensures Times(a + b, c) == Times(a, c) + Times(b, c)
  {
    if a == [] {
      assert a + b == b;
    } else {
      assert (a + b)[1..] == a[1..] + b;
      TimesConcat(a[1..], b, c);
    }
  }

  lemma {:induction false} ListedConcat(a: seq<Child>, b: seq<Child>, c: Child)
    ensures Listed(a + b, c) == Listed(a, c) + Listed(b, c)
  {
    if a == [] {
      assert a + b == b;
    } else {
      assert (a + b)[1..] == a[1..] + b;
      ListedConcat(a[1..], b, c);
    }
  }

  lemma {:induction false} HeldMeansPlaced(placed: seq<Placement>, c: Child)
    ensures c in Holds(placed) <==> Times(placed, c) > 0
  {
    if placed != [] {
      HeldMeansPlaced(placed[1..], c);
      assert placed == [placed[0]] + placed[1..];
      if c in Holds(placed) {
        var p :| p in placed && p.1 == c;
        if p != placed[0] { assert p in placed[1..] && c in Holds(placed[1..]); }
      } else {
        assert placed[0] in placed;
        assert forall p :: p in placed[1..] ==> p in placed;
      }
    }
  }

  // ---- what the rows claim -----------------------------------------------

  lemma {:induction false} NamingTimes(native: seq<Sub>, tool: string, j: nat, c: Child)
    requires j <= |native|
    ensures Times(Naming(native, tool, j), c) ==
      if c.Native? && j <= c.index < |native| && native[c.index].anchor == tool then 1 else 0
    decreases |native| - j
  {
    if j < |native| {
      NamingTimes(native, tool, j + 1, c);
      TimesConcat(if native[j].anchor == tool then [(tool, Native(j))] else [], Naming(native, tool, j + 1), c);
      assert native[j].anchor == tool ==> [(tool, Native(j))][1..] == [];
    }
  }

  lemma OneTime(p: Placement, c: Child)
    ensures Times([p], c) == if p.1 == c then 1 else 0
  {
    assert [p][1..] == [];
  }

  lemma RowTimes(rows: seq<Row>, native: seq<Sub>, k: nat, c: Child)
    requires k < |rows|
    ensures Times(RowClaims(rows, native, k), c) ==
      if !Handled(rows, k) then 0
      else if c.Spawned? then (if rows[k].tool.value.spawned == Some(c.session) then 1 else 0)
      else if c.index < |native| && Reaches(rows, k, native[c.index].anchor)
                && !ReachedIn(rows, k, native[c.index].anchor)
      then 1 else 0
  {
    hide ReachedIn, SpawnedIn;
    if Handled(rows, k) {
      hide Handled;
      var tool := rows[k].tool.value;
      var x: seq<Placement> := if tool.spawned.Some? then [(tool.id, Spawned(tool.spawned.value))] else [];
      var y := if tool.subagent && !ReachedIn(rows, k, tool.id) then Naming(native, tool.id, 0) else [];
      TimesConcat(x, y, c);
      NamingTimes(native, tool.id, 0, c);
      if tool.spawned.Some? { OneTime((tool.id, Spawned(tool.spawned.value)), c); }
    }
  }

  lemma SpawnedStep(rows: seq<Row>, k: nat, id: string)
    requires k < |rows|
    ensures SpawnedIn(rows[..k + 1], id) <==> SpawnedIn(rows[..k], id) || Spawns(rows[k], id)
  {
    assert rows[..k + 1] == rows[..k] + [rows[k]];
  }

  lemma ReachedStep(rows: seq<Row>, k: nat, tool: string)
    requires k < |rows|
    ensures ReachedIn(rows, k + 1, tool) <==> ReachedIn(rows, k, tool) || Reaches(rows, k, tool)
  {
    hide Reaches;
    if ReachedIn(rows, k + 1, tool) {
      var j: nat :| j < k + 1 && Reaches(rows, j, tool);
      assert j < k || j == k;
    }
  }

  lemma RowSpawnTimes(rows: seq<Row>, native: seq<Sub>, k: nat, id: string)
    requires k < |rows|
    ensures Times(RowClaims(rows, native, k), Spawned(id)) ==
      if Spawns(rows[k], id) && !SpawnedIn(rows[..k], id) then 1 else 0
  {
    hide RowClaims, SpawnedIn;
    RowTimes(rows, native, k, Spawned(id));
  }

  lemma RowNativeTimes(rows: seq<Row>, native: seq<Sub>, k: nat, i: nat)
    requires k < |rows| && i < |native|
    ensures Times(RowClaims(rows, native, k), Native(i)) ==
      if Reaches(rows, k, native[i].anchor) && !ReachedIn(rows, k, native[i].anchor) then 1 else 0
  {
    hide RowClaims, ReachedIn, SpawnedIn;
    RowTimes(rows, native, k, Native(i));
  }

  /** The rows claim a child once: a session from its first receipt, a provider's child from the first row
      that handles the call it names. */
  lemma {:induction false} ClaimsTimes(rows: seq<Row>, native: seq<Sub>, k: nat, c: Child)
    requires k <= |rows|
    ensures Times(Claims(rows, native, k), c) ==
      if c.Spawned? then (if SpawnedIn(rows[..k], c.session) then 1 else 0)
      else if c.index < |native| && ReachedIn(rows, k, native[c.index].anchor) then 1 else 0
  {
    hide ReachedIn, SpawnedIn, Reaches, Handled, RowClaims, Spawns;
    if k == 0 {
      NothingYet(rows);
    } else {
      ClaimsTimes(rows, native, k - 1, c);
      TimesConcat(Claims(rows, native, k - 1), RowClaims(rows, native, k - 1), c);
      if c.Spawned? {
        RowSpawnTimes(rows, native, k - 1, c.session);
        SpawnedStep(rows, k - 1, c.session);
      } else if c.index < |native| {
        RowNativeTimes(rows, native, k - 1, c.index);
        ReachedStep(rows, k - 1, native[c.index].anchor);
      } else {
        RowTimes(rows, native, k - 1, c);
      }
    }
  }

  lemma NothingYet(rows: seq<Row>)
    ensures forall t :: !ReachedIn(rows, 0, t)
    ensures forall id :: !SpawnedIn(rows[..0], id)
  {
  }

  // ---- the fallback ------------------------------------------------------

  lemma {:induction false} PairsTimes(free: seq<Row>, candidates: seq<nat>, c: Child)
    requires |free| == |candidates| && forall r :: r in free ==> r.tool.Some?
    requires forall a, b :: 0 <= a < b < |candidates| ==> candidates[a] < candidates[b]
    ensures Times(Pairs(free, candidates), c) == if c.Native? && c.index in candidates then 1 else 0
  {
    if free != [] {
      PairsTimes(free[1..], candidates[1..], c);
      OneTime((free[0].tool.value.id, Native(candidates[0])), c);
      TimesConcat([(free[0].tool.value.id, Native(candidates[0]))], Pairs(free[1..], candidates[1..]), c);
      assert candidates == [candidates[0]] + candidates[1..];
    }
  }

  lemma FallbackTimes(claude: bool, rows: seq<Row>, native: seq<Sub>, claims: seq<Placement>, c: Child)
    ensures Times(Fallback(claude, rows, native, claims), c) ==
      if Fallback(claude, rows, native, claims) != [] && c.Native? && c.index < |native| && native[c.index].anchor == ""
      then 1 else 0
  {
    var free, candidates := Free(rows, Tools(claims)), Unnamed(native, 0);
    assert forall k :: 0 <= k < |candidates| ==> candidates[k] in candidates;
    if claude && OneToOne(free, native, candidates) {
      PairsTimes(free, candidates, c);
    }
  }

  // ---- what is left ------------------------------------------------------

  lemma {:induction false} LeftoverTimes(native: seq<Sub>, held: set<Child>, j: nat, c: Child)
    requires j <= |native|
    ensures Listed(Leftover(native, held, j), c) ==
      if c.Native? && j <= c.index < |native| && c !in held then 1 else 0
    decreases |native| - j
  {
    if j < |native| {
      LeftoverTimes(native, held, j + 1, c);
      ListedConcat(if Native(j) in held then [] else [Native(j)], Leftover(native, held, j + 1), c);
      assert [Native(j)][1..] == [];
    }
  }

  predicate Among(children: seq<Session>, id: string) {
    exists s :: s in children && s.id == id
  }

  lemma {:induction false} UnclaimedTimes(children: seq<Session>, sessions: set<string>, c: Child)
    ensures Listed(Unclaimed(children, sessions), c) ==
      if c.Spawned? && c.session !in sessions && Among(children, c.session) then 1 else 0
  {
    if children != [] {
      var first := children[0];
      assert children == [first] + children[1..];
      assert c.Spawned? ==> (Among(children, c.session) <==> first.id == c.session || Among(children[1..], c.session));
      if first.id in sessions {
        UnclaimedTimes(children[1..], sessions, c);
      } else {
        UnclaimedTimes(children[1..], sessions + {first.id}, c);
        ListedConcat([Spawned(first.id)], Unclaimed(children[1..], sessions + {first.id}), c);
        assert [Spawned(first.id)][1..] == [];
      }
    }
  }

  lemma SessionsHeld(placed: seq<Placement>, id: string)
    ensures id in Sessions(placed) <==> Spawned(id) in Holds(placed)
  {
    if id in Sessions(placed) {
      var p :| p in placed && p.1.Spawned? && p.1.session == id;
      assert p.1 == Spawned(id);
    }
    if Spawned(id) in Holds(placed) {
      var p :| p in placed && p.1 == Spawned(id);
      assert p.1.session == id;
    }
  }

  // ---- every child has one place -----------------------------------------

  /** Each of the provider's children is shown exactly once. */
  lemma EachNativeChildHasOnePlace(
    claude: bool, parent: string, fleet: seq<Session>, rows: seq<Row>, native: seq<Sub>, i: nat)
    requires i < |native|
    ensures var placed := Placed(claude, rows, native);
      Times(placed, Native(i)) + Listed(Unanchored(parent, fleet, native, placed), Native(i)) == 1
  {
    hide Claims, Fallback, Leftover, Unclaimed, ReachedIn, Holds;
    var c := Native(i);
    var placed := Placed(claude, rows, native);
    PlacedTimes(claude, rows, native, c);
    HeldMeansPlaced(placed, c);
    var children := Take(Offspring(fleet, parent), MAX_PROVIDER_CHILDREN);
    LeftoverTimes(native, Holds(placed), 0, c);
    UnclaimedTimes(children, Sessions(placed), c);
    ListedConcat(Leftover(native, Holds(placed), 0), Unclaimed(children, Sessions(placed)), c);
  }

  lemma {:induction false} PlacedTimes(claude: bool, rows: seq<Row>, native: seq<Sub>, c: Child)
    ensures Times(Placed(claude, rows, native), c) ==
      if c.Spawned? then (if SpawnedIn(rows, c.session) then 1 else 0)
      else if c.index >= |native| then 0
      else if ReachedIn(rows, |rows|, native[c.index].anchor) then 1
      else if native[c.index].anchor == "" && Fallback(claude, rows, native, Claims(rows, native, |rows|)) != [] then 1
      else 0
  {
    hide Claims, Fallback, ReachedIn, SpawnedIn;
    var claims := Claims(rows, native, |rows|);
    ClaimsTimes(rows, native, |rows|, c);
    FallbackTimes(claude, rows, native, claims, c);
    TimesConcat(claims, Fallback(claude, rows, native, claims), c);
    assert rows[..|rows|] == rows;
    NoEmptyReach(rows);
  }

  lemma NoEmptyReach(rows: seq<Row>)
    ensures !ReachedIn(rows, |rows|, "")
  {
  }

  // ---- by the id it was reported under -----------------------------------

  predicate Reported(subs: seq<Sub>, id: string) {
    id != "" && exists s :: s in subs && s.id == id
  }

  predicate DistinctIds(native: seq<Sub>) {
    forall i, j :: 0 <= i < j < |native| ==> native[i].id != native[j].id
  }

  /** What is left of the reports: no two with one id, none without, and every id reported. */
  lemma {:induction false} DedupKeepsEachOnce(subs: seq<Sub>, seen: set<string>)
    ensures DistinctIds(Dedup(subs, seen))
    ensures forall s :: s in Dedup(subs, seen) ==> s in subs && s.id != "" && s.id !in seen
    ensures forall s :: s in subs && s.id != "" && s.id !in seen ==> Reported(Dedup(subs, seen), s.id)
    decreases |subs|
  {
    if subs != [] {
      var first := subs[0];
      var more := if first.id == "" || first.id in seen then seen else seen + {first.id};
      DedupKeepsEachOnce(subs[1..], more);
      var rest := Dedup(subs[1..], more);
      assert subs == [first] + subs[1..];
      forall i | 0 <= i < |rest| ensures rest[i] in rest {}
      forall s | s in subs && s.id != "" && s.id !in seen ensures Reported(Dedup(subs, seen), s.id) {
        if s.id != first.id {
          assert s in subs[1..] && Reported(rest, s.id);
          var r :| r in rest && r.id == s.id;
          assert r in Dedup(subs, seen);
        } else {
          assert first in Dedup(subs, seen);
        }
      }
    }
  }

  predicate FirstOfItsId(subs: seq<Sub>, i: nat)
    requires i < |subs|
  {
    forall j :: 0 <= j < i ==> subs[j].id != subs[i].id
  }

  /** Each id is kept as it was first reported. */
  lemma {:induction false} DedupTakesTheFirst(subs: seq<Sub>, seen: set<string>, i: nat)
    requires i < |subs| && subs[i].id != "" && subs[i].id !in seen && FirstOfItsId(subs, i)
    ensures subs[i] in Dedup(subs, seen)
    decreases |subs|
  {
    if i > 0 {
      assert subs[0].id != subs[i].id;
      assert FirstOfItsId(subs[1..], i - 1) by {
        forall j | 0 <= j < i - 1 ensures subs[1..][j].id != subs[1..][i - 1].id {
          assert subs[j + 1].id != subs[i].id;
        }
      }
      var more := if subs[0].id == "" || subs[0].id in seen then seen else seen + {subs[0].id};
      DedupTakesTheFirst(subs[1..], more, i - 1);
    }
  }

  /** The child reported under this id. */
  predicate Is(c: Child, native: seq<Sub>, id: string) {
    c.Native? && c.index < |native| && native[c.index].id == id
  }

  function TimesOfId(placed: seq<Placement>, native: seq<Sub>, id: string): nat {
    if placed == [] then 0 else (if Is(placed[0].1, native, id) then 1 else 0) + TimesOfId(placed[1..], native, id)
  }

  function ListedOfId(children: seq<Child>, native: seq<Sub>, id: string): nat {
    if children == [] then 0 else (if Is(children[0], native, id) then 1 else 0) + ListedOfId(children[1..], native, id)
  }

  lemma {:induction false} TimesById(placed: seq<Placement>, native: seq<Sub>, id: string, i: nat)
    requires forall c :: Is(c, native, id) <==> i < |native| && c == Native(i)
    ensures TimesOfId(placed, native, id) == if i < |native| then Times(placed, Native(i)) else 0
  {
    if placed != [] { TimesById(placed[1..], native, id, i); }
  }

  lemma {:induction false} ListedById(children: seq<Child>, native: seq<Sub>, id: string, i: nat)
    requires forall c :: Is(c, native, id) <==> i < |native| && c == Native(i)
    ensures ListedOfId(children, native, id) == if i < |native| then Listed(children, Native(i)) else 0
  {
    if children != [] { ListedById(children[1..], native, id, i); }
  }

  /** Every id among the first 32 reports is shown exactly once, whatever the rows; no other id is. */
  lemma EachReportedChildHasOnePlace(
    claude: bool, parent: string, fleet: seq<Session>, rows: seq<Row>, subs: seq<Sub>, id: string)
    ensures var reported := Take(subs, MAX_PROVIDER_CHILDREN);
      var native := Dedup(reported, {});
      var placed := Placed(claude, rows, native);
      TimesOfId(placed, native, id) + ListedOfId(Unanchored(parent, fleet, native, placed), native, id) ==
        if Reported(reported, id) then 1 else 0
  {
    hide Placed, Unanchored, Dedup, Take;
    var reported := Take(subs, MAX_PROVIDER_CHILDREN);
    var native := Dedup(reported, {});
    var placed := Placed(claude, rows, native);
    DedupKeepsEachOnce(reported, {});
    var i := IndexOf(native, id);
    TimesById(placed, native, id, i);
    ListedById(Unanchored(parent, fleet, native, placed), native, id, i);
    if i < |native| {
      assert native[i] in native;
      EachNativeChildHasOnePlace(claude, parent, fleet, rows, native, i);
    }
  }

  lemma IndexOf(native: seq<Sub>, id: string) returns (i: nat)
    requires DistinctIds(native) && forall s :: s in native ==> s.id != ""
    ensures forall c :: Is(c, native, id) <==> i < |native| && c == Native(i)
    ensures i < |native| <==> Reported(native, id)
  {
    i := 0;
    while i < |native| && native[i].id != id
      invariant i <= |native| && forall j :: 0 <= j < i ==> native[j].id != id
    {
      i := i + 1;
    }
    if i < |native| { assert native[i] in native; }
  }

  lemma {:induction false} OffspringAre(fleet: seq<Session>, parent: string)
    ensures Offspring(fleet, parent) == Filter(fleet, (s: Session) => s.parent == parent && s.id != parent)
  {
    if fleet != [] { OffspringAre(fleet[1..], parent); }
  }

  /** A session is shown at most once: under its first receipt, else with the parent's first 32 other sessions. */
  lemma EachSessionHasAtMostOnePlace(
    claude: bool, parent: string, fleet: seq<Session>, rows: seq<Row>, native: seq<Sub>, id: string)
    ensures var placed := Placed(claude, rows, native);
      var children := Filter(fleet, (s: Session) => s.parent == parent && s.id != parent);
      Times(placed, Spawned(id)) + Listed(Unanchored(parent, fleet, native, placed), Spawned(id)) ==
        if SpawnedIn(rows, id) || Among(Take(children, MAX_PROVIDER_CHILDREN), id) then 1 else 0
  {
    hide Claims, Fallback, Leftover, Unclaimed, ReachedIn, Holds, SpawnedIn, Among, Sessions;
    var c := Spawned(id);
    var placed := Placed(claude, rows, native);
    PlacedTimes(claude, rows, native, c);
    HeldMeansPlaced(placed, c);
    SessionsHeld(placed, id);
    OffspringAre(fleet, parent);
    var children := Take(Offspring(fleet, parent), MAX_PROVIDER_CHILDREN);
    LeftoverTimes(native, Holds(placed), 0, c);
    UnclaimedTimes(children, Sessions(placed), c);
    ListedConcat(Leftover(native, Holds(placed), 0), Unclaimed(children, Sessions(placed)), c);
  }

  // ---- and it is its own -------------------------------------------------

  lemma {:induction false} NamingOwn(native: seq<Sub>, tool: string, j: nat, p: Placement)
    requires j <= |native| && p in Naming(native, tool, j)
    ensures p.0 == tool && p.1.Native? && p.1.index < |native| && native[p.1.index].anchor == tool
    decreases |native| - j
  {
    if p !in (if native[j].anchor == tool then [(tool, Native(j))] else []) {
      NamingOwn(native, tool, j + 1, p);
    }
  }

  lemma {:induction false} ClaimsOwn(rows: seq<Row>, native: seq<Sub>, k: nat, p: Placement)
    requires k <= |rows| && p in Claims(rows, native, k)
    ensures p.1.Native? ==> p.1.index < |native| && native[p.1.index].anchor == p.0
    ensures p.1.Spawned? ==> exists r :: r in rows && Spawns(r, p.1.session) && r.tool.value.id == p.0
  {
    hide ReachedIn, SpawnedIn;
    if p in Claims(rows, native, k - 1) {
      ClaimsOwn(rows, native, k - 1, p);
    } else {
      var row := rows[k - 1];
      assert row in rows && Named(row);
      if p.1.Native? { NamingOwn(native, row.tool.value.id, 0, p); }
      if p.1.Spawned? && p in Naming(native, row.tool.value.id, 0) { NamingOwn(native, row.tool.value.id, 0, p); }
    }
  }

  lemma {:induction false} PairsOwn(free: seq<Row>, candidates: seq<nat>, p: Placement) returns (k: nat)
    requires |free| == |candidates| && (forall r :: r in free ==> r.tool.Some?) && p in Pairs(free, candidates)
    ensures k < |free| && p == (free[k].tool.value.id, Native(candidates[k]))
  {
    if p == (free[0].tool.value.id, Native(candidates[0])) {
      k := 0;
    } else {
      var j := PairsOwn(free[1..], candidates[1..], p);
      k := j + 1;
    }
  }

  /** A child that names a tool call is never shown under another. */
  lemma NamedChildIsUnderItsTool(claude: bool, rows: seq<Row>, native: seq<Sub>, i: nat, tool: string)
    requires i < |native| && native[i].anchor != "" && (tool, Native(i)) in Placed(claude, rows, native)
    ensures tool == native[i].anchor
  {
    hide Claims;
    var claims := Claims(rows, native, |rows|);
    var p: Placement := (tool, Native(i));
    if p in claims {
      ClaimsOwn(rows, native, |rows|, p);
    } else {
      FallbackTimes(claude, rows, native, claims, Native(i));
      HeldMeansPlaced(Fallback(claude, rows, native, claims), Native(i));
    }
  }

  /** The fallback pairs every unnamed child or none. */
  lemma FallbackIsAllOrNone(claude: bool, rows: seq<Row>, native: seq<Sub>, claims: seq<Placement>, i: nat, j: nat)
    requires i < |native| && j < |native| && native[i].anchor == "" && native[j].anchor == ""
    ensures Native(i) in Holds(Fallback(claude, rows, native, claims)) <==>
      Native(j) in Holds(Fallback(claude, rows, native, claims))
  {
    hide Fallback, Holds;
    var f := Fallback(claude, rows, native, claims);
    FallbackTimes(claude, rows, native, claims, Native(i));
    FallbackTimes(claude, rows, native, claims, Native(j));
    HeldMeansPlaced(f, Native(i));
    HeldMeansPlaced(f, Native(j));
  }

  /** Each goes to the latest free call made at or before it started. */
  lemma FallbackPicksTheLatestCall(claude: bool, rows: seq<Row>, native: seq<Sub>, claims: seq<Placement>, p: Placement)
    returns (k: nat)
    requires p in Fallback(claude, rows, native, claims)
    ensures var free := Free(rows, Tools(claims));
      && k < |free| && p.1.Native? && p.1.index < |native| && p.0 == free[k].tool.value.id
      && AtOrBefore(free[k].at, native[p.1.index].started)
      && forall q :: k < q < |free| ==> !AtOrBefore(free[q].at, native[p.1.index].started)
  {
    var free, candidates := Free(rows, Tools(claims)), Unnamed(native, 0);
    assert forall j :: 0 <= j < |candidates| ==> candidates[j] in candidates;
    k := PairsOwn(free, candidates, p);
    assert candidates[k] in candidates && p.1.index == candidates[k];
    forall q | k < q < |free| ensures !AtOrBefore(free[q].at, native[p.1.index].started) {
      assert Before(native[candidates[k]].started, free[k + 1].at);
      LaterCalls(free, native, candidates, k + 1, q);
    }
  }

  lemma {:induction false} LaterCalls(free: seq<Row>, native: seq<Sub>, candidates: seq<nat>, a: nat, b: nat)
    requires forall j :: 0 <= j < |candidates| ==> candidates[j] < |native|
    requires OneToOne(free, native, candidates) && a <= b < |free|
    ensures free[a].at.Some? && free[b].at.Some? && free[a].at.value <= free[b].at.value
  {
    assert AtOrBefore(free[b].at, native[candidates[b]].started);
    if a < b {
      LaterCalls(free, native, candidates, a, b - 1);
      assert NotAfter(free[b - 1].at, free[b - 1 + 1].at);
    }
  }
}
