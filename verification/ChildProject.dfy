/** The projection as it is computed, loop by loop, and the lists it groups children in. */
module ChildProject {
  import opened Wrappers
  import opened ChildAgents
  import opened ChildProof

  // ---- the lists under each tool call ------------------------------------

  lemma GroupedSnoc(placed: seq<Placement>, p: Placement)
    ensures Grouped(placed + [p]) == Push(Grouped(placed), p.0, p.1)
  {
    assert (placed + [p])[..|placed|] == placed;
  }

  lemma {:induction false} GroupedKeys(placed: seq<Placement>)
    ensures Grouped(placed).Keys == Tools(placed)
  {
    if placed == [] {
      assert Tools([]) == {};
    } else {
      var last := |placed| - 1;
      GroupedKeys(placed[..last]);
      assert placed == placed[..last] + [placed[last]];
      assert Tools(placed) == Tools(placed[..last]) + {placed[last].0};
    }
  }

  function Under(placed: seq<Placement>, tool: string): seq<Child> {
    if placed == [] then []
    else
      var last := |placed| - 1;
      Under(placed[..last], tool) + if placed[last].0 == tool then [placed[last].1] else []
  }

  /** The list under a tool call: the children placed there, in the order they were placed. */
  lemma {:induction false} GroupedLists(placed: seq<Placement>, tool: string)
    ensures Under(placed, tool) == if tool in Grouped(placed) then Grouped(placed)[tool] else []
  {
    if placed != [] {
      GroupedLists(placed[..|placed| - 1], tool);
    }
  }

  // ---- the loops ---------------------------------------------------------

  /** The first 32 reports, each id once: no two alike, none empty, none missing. */
  method NativeChildren(subs: seq<Sub>) returns (native: seq<Sub>)
    ensures native == Dedup(Take(subs, MAX_PROVIDER_CHILDREN), {})
    ensures DistinctIds(native) && forall s :: s in native ==> s.id != ""
    ensures forall s :: s in Take(subs, MAX_PROVIDER_CHILDREN) && s.id != "" ==> Reported(native, s.id)
  {
    hide Reported;
    DedupKeepsEachOnce(Take(subs, MAX_PROVIDER_CHILDREN), {});
    var reported := Take(subs, MAX_PROVIDER_CHILDREN);
    var ids: set<string> := {};
    native := [];
    for i := 0 to |reported|
      invariant Dedup(reported, {}) == native + Dedup(reported[i..], ids)
    {
      var sub := reported[i];
      assert reported[i..][0] == sub && reported[i..][1..] == reported[i + 1..];
      if sub.id == "" || sub.id in ids {
        continue;
      }
      ids := ids + {sub.id};
      native := native + [sub];
    }
  }

  predicate ClaimedAre(claimed: set<nat>, rows: seq<Row>, k: nat, native: seq<Sub>)
    requires k <= |rows|
  {
    forall i :: 0 <= i < |native| ==> (i in claimed <==> ReachedIn(rows, k, native[i].anchor))
  }

  ghost predicate SessionsAre(sessions: set<string>, rows: seq<Row>) {
    forall id :: id in sessions <==> SpawnedIn(rows, id)
  }

  /** The children that name a handled row's tool call, unless an earlier row has them. */
  method ClaimNamed(rows: seq<Row>, native: seq<Sub>, k: nat, byTool: map<string, seq<Child>>, claimed: set<nat>,
                    ghost placed: seq<Placement>)
    returns (byTool': map<string, seq<Child>>, claimed': set<nat>)
    requires k < |rows| && Handled(rows, k) && rows[k].tool.value.subagent
    requires byTool == Grouped(placed) && ClaimedAre(claimed, rows, k, native)
    ensures byTool' == Grouped(placed + if ReachedIn(rows, k, rows[k].tool.value.id) then []
                                        else Naming(native, rows[k].tool.value.id, 0))
    ensures ClaimedAre(claimed', rows, k + 1, native)
  {
    hide ReachedIn, Handled, Grouped;
    HandledNamed(rows, k);
    var tool := rows[k].tool.value.id;
    byTool', claimed' := byTool, claimed;
    ghost var reached := ReachedIn(rows, k, tool);
    ghost var pushed: seq<Placement> := [];
    assert placed + [] == placed;
    for i := 0 to |native|
      invariant byTool' == Grouped(placed + pushed)
      invariant if reached then pushed == [] else Naming(native, tool, 0) == pushed + Naming(native, tool, i)
      invariant forall j :: 0 <= j < |native| ==>
        (j in claimed' <==> ReachedIn(rows, k, native[j].anchor) || (j < i && native[j].anchor == tool))
    {
      var anchor := native[i].anchor;
      if anchor != "" && anchor == tool && i !in claimed' {
        claimed' := claimed' + {i};
        byTool' := Push(byTool', tool, Native(i));
        GroupedSnoc(placed + pushed, (tool, Native(i)));
        assert placed + pushed + [(tool, Native(i))] == placed + (pushed + [(tool, Native(i))]);
        pushed := pushed + [(tool, Native(i))];
      }
    }
    assert !reached ==> pushed + Naming(native, tool, |native|) == pushed;
    forall j | 0 <= j < |native|
      ensures j in claimed' <==> ReachedIn(rows, k + 1, native[j].anchor)
    {
      ReachedStep(rows, k, native[j].anchor);
      ReachesItsTool(rows, k, native[j].anchor);
    }
  }

  lemma HandledNamed(rows: seq<Row>, k: nat)
    requires k < |rows| && Handled(rows, k)
    ensures Named(rows[k])
  {
  }

  lemma ReachesItsTool(rows: seq<Row>, k: nat, tool: string)
    requires k < |rows|
    ensures Reaches(rows, k, tool) <==>
      Handled(rows, k) && rows[k].tool.value.subagent && rows[k].tool.value.id == tool
  {
  }

  /** Successful receipts and exact anchors, row by row. */
  method ClaimRows(rows: seq<Row>, native: seq<Sub>)
    returns (byTool: map<string, seq<Child>>, claimed: set<nat>, sessions: set<string>)
    ensures byTool == Grouped(Claims(rows, native, |rows|))
    ensures ClaimedAre(claimed, rows, |rows|, native) && SessionsAre(sessions, rows)
  {
    hide Grouped, ReachedIn, SpawnedIn;
    byTool, claimed, sessions := map[], {}, {};
    NothingYet(rows);
    assert byTool == Grouped([]) by { NoGroups(); }
    for k := 0 to |rows|
      invariant byTool == Grouped(Claims(rows, native, k))
      invariant ClaimedAre(claimed, rows, k, native) && SessionsAre(sessions, rows[..k])
    {
      ghost var placed := Claims(rows, native, k);
      var row := rows[k];
      NextRow(rows, native, k, claimed, sessions);
      if row.tool.None? || row.tool.value.id == "" {
        continue;
      }
      var tool := row.tool.value;
      ghost var spawn: seq<Placement> := [];
      assert placed + [] == placed;
      if tool.spawned.Some? {
        var id := tool.spawned.value;
        if id in sessions {
          continue;
        }
        sessions := sessions + {id};
        byTool := Push(byTool, tool.id, Spawned(id));
        spawn := [(tool.id, Spawned(id))];
        GroupedSnoc(placed, (tool.id, Spawned(id)));
      }
      if !tool.subagent {
        assert placed + (spawn + []) == placed + spawn;
        continue;
      }
      byTool, claimed := ClaimNamed(rows, native, k, byTool, claimed, placed + spawn);
      assert placed + spawn + [] == placed + (spawn + []);
      assert placed + spawn + Naming(native, tool.id, 0) == placed + (spawn + Naming(native, tool.id, 0));
    }
    assert rows[..|rows|] == rows;
  }

  lemma NoGroups()
    ensures Grouped([]) == map[]
  {
  }

  /** What the sets say of the next row, and what they will say if it claims nothing. */
  lemma NextRow(rows: seq<Row>, native: seq<Sub>, k: nat, claimed: set<nat>, sessions: set<string>)
    requires k < |rows| && ClaimedAre(claimed, rows, k, native) && SessionsAre(sessions, rows[..k])
    ensures !Handled(rows, k) ==> Claims(rows, native, k + 1) == Claims(rows, native, k)
    ensures !Handled(rows, k) || !rows[k].tool.value.subagent ==> ClaimedAre(claimed, rows, k + 1, native)
    ensures !Named(rows[k]) || rows[k].tool.value.spawned.None? ==> SessionsAre(sessions, rows[..k + 1])
    ensures Named(rows[k]) && rows[k].tool.value.spawned.Some? ==>
      SessionsAre(sessions + {rows[k].tool.value.spawned.value}, rows[..k + 1])
  {
    hide ReachedIn, SpawnedIn;
    assert Claims(rows, native, k) + [] == Claims(rows, native, k);
    forall t: string ensures ReachedIn(rows, k + 1, t) <==> ReachedIn(rows, k, t) || Reaches(rows, k, t) {
      ReachedStep(rows, k, t);
    }
    forall id: string ensures SpawnedIn(rows[..k + 1], id) <==> SpawnedIn(rows[..k], id) || Spawns(rows[k], id) {
      SpawnedStep(rows, k, id);
    }
  }

  method Candidates(rows: seq<Row>, native: seq<Sub>, claimed: set<nat>) returns (candidates: seq<nat>)
    requires ClaimedAre(claimed, rows, |rows|, native)
    ensures candidates == Unnamed(native, 0)
  {
    hide ReachedIn;
    NoEmptyReach(rows);
    candidates := [];
    for i := 0 to |native|
      invariant Unnamed(native, 0) == candidates + Unnamed(native, i)
    {
      if native[i].anchor == "" && i !in claimed {
        candidates := candidates + [i];
      }
    }
  }

  /** Every candidate to its call, in order. */
  method PlaceInOrder(free: seq<Row>, candidates: seq<nat>, byTool: map<string, seq<Child>>, claimed: set<nat>,
                      ghost placed: seq<Placement>)
    returns (byTool': map<string, seq<Child>>, claimed': set<nat>)
    requires |free| == |candidates| && (forall r :: r in free ==> r.tool.Some?) && byTool == Grouped(placed)
    ensures byTool' == Grouped(placed + Pairs(free, candidates))
    ensures claimed' == claimed + set c | c in candidates
  {
    hide Grouped;
    byTool', claimed' := byTool, claimed;
    ghost var pushed: seq<Placement> := [];
    assert placed + [] == placed;
    for i := 0 to |free|
      invariant byTool' == Grouped(placed + pushed)
      invariant Pairs(free, candidates) == pushed + Pairs(free[i..], candidates[i..])
      invariant claimed' == claimed + set c | c in candidates[..i]
    {
      assert free[i..][0] == free[i] && free[i..][1..] == free[i + 1..];
      assert candidates[i..][0] == candidates[i] && candidates[i..][1..] == candidates[i + 1..];
      assert candidates[..i + 1] == candidates[..i] + [candidates[i]];
      var p: Placement := (free[i].tool.value.id, Native(candidates[i]));
      claimed' := claimed' + {candidates[i]};
      byTool' := Push(byTool', p.0, p.1);
      GroupedSnoc(placed + pushed, p);
      assert placed + pushed + [p] == placed + (pushed + [p]);
      pushed := pushed + [p];
    }
    assert pushed + [] == pushed && candidates[..|free|] == candidates;
  }

  method Rest(parent: string, fleet: seq<Session>, native: seq<Sub>, claimed: set<nat>, sessions: set<string>,
              ghost held: set<Child>)
    returns (unanchored: seq<Child>)
    requires forall i :: 0 <= i < |native| ==> (i in claimed <==> Native(i) in held)
    ensures unanchored == Leftover(native, held, 0) +
      Unclaimed(Take(Offspring(fleet, parent), MAX_PROVIDER_CHILDREN), sessions)
  {
    unanchored := [];
    for i := 0 to |native|
      invariant Leftover(native, held, 0) == unanchored + Leftover(native, held, i)
    {
      if i !in claimed {
        unanchored := unanchored + [Native(i)];
      }
    }
    var children := Take(Offspring(fleet, parent), MAX_PROVIDER_CHILDREN);
    var known := sessions;
    ghost var before := unanchored;
    assert before == Leftover(native, held, 0);
    assert before + Unclaimed(children, sessions) == unanchored + Unclaimed(children[0..], known);
    for j := 0 to |children|
      invariant before + Unclaimed(children, sessions) == unanchored + Unclaimed(children[j..], known)
    {
      assert children[j..][0] == children[j] && children[j..][1..] == children[j + 1..];
      if children[j].id !in known {
        known := known + {children[j].id};
        unanchored := unanchored + [Spawned(children[j].id)];
      }
    }
  }

  method Project(parent: string, claude: bool, subs: seq<Sub>, fleet: seq<Session>, rows: seq<Row>) returns (out: Shown)
    ensures var native := Dedup(Take(subs, MAX_PROVIDER_CHILDREN), {});
      var placed := Placed(claude, rows, native);
      out == Shown(Grouped(placed), Unanchored(parent, fleet, native, placed))
  {
    hide Grouped, Claims, Free, Unnamed, OneToOne, Pairs, Leftover, Unclaimed, Dedup, Holds, Sessions,
      Tools, ReachedIn, SpawnedIn;
    var native := NativeChildren(subs);
    var byTool, claimed, sessions := ClaimRows(rows, native);
    ghost var claims := Claims(rows, native, |rows|);
    GroupedKeys(claims);
    var free := Free(rows, byTool.Keys);
    var candidates := Candidates(rows, native, claimed);
    InRange(native);
    ghost var before := claimed;
    assert claims + [] == claims;
    if claude && OneToOne(free, native, candidates) {
      OneEach(free, native, candidates);
      byTool, claimed := PlaceInOrder(free, candidates, byTool, claimed, claims);
    }
    ghost var placed := Placed(claude, rows, native);
    assert byTool == Grouped(placed);
    ClaimedHeld(claude, rows, native, before, claimed);
    SessionsMet(claude, rows, native, sessions);
    var unanchored := Rest(parent, fleet, native, claimed, sessions, Holds(placed));
    out := Shown(byTool, unanchored);
  }

  lemma InRange(native: seq<Sub>)
    ensures forall k :: 0 <= k < |Unnamed(native, 0)| ==> Unnamed(native, 0)[k] < |native|
  {
    var c := Unnamed(native, 0);
    assert forall k :: 0 <= k < |c| ==> c[k] in c;
  }

  lemma OneEach(free: seq<Row>, native: seq<Sub>, candidates: seq<nat>)
    requires forall k :: 0 <= k < |candidates| ==> candidates[k] < |native|
    requires OneToOne(free, native, candidates)
    ensures |free| == |candidates|
  {
  }

  /** The claimed children are the ones placed under a tool call. */
  lemma ClaimedHeld(claude: bool, rows: seq<Row>, native: seq<Sub>, before: set<nat>, claimed: set<nat>)
    requires ClaimedAre(before, rows, |rows|, native)
    requires forall k :: 0 <= k < |Unnamed(native, 0)| ==> Unnamed(native, 0)[k] < |native|
    requires var free := Free(rows, Tools(Claims(rows, native, |rows|)));
      claimed == if claude && OneToOne(free, native, Unnamed(native, 0)) then before + set c | c in Unnamed(native, 0)
                 else before
    ensures forall i :: 0 <= i < |native| ==> (i in claimed <==> Native(i) in Holds(Placed(claude, rows, native)))
  {
    hide ReachedIn, Claims, Free, Holds, OneToOne, Tools;
    var claims := Claims(rows, native, |rows|);
    var free := Free(rows, Tools(claims));
    var fires := claude && OneToOne(free, native, Unnamed(native, 0));
    FiresIffPlaced(claude, rows, native, claims);
    forall i | 0 <= i < |native| ensures i in claimed <==> Native(i) in Holds(Placed(claude, rows, native)) {
      PlacedTimes(claude, rows, native, Native(i));
      HeldMeansPlaced(Placed(claude, rows, native), Native(i));
      NoEmptyReach(rows);
    }
  }

  lemma FiresIffPlaced(claude: bool, rows: seq<Row>, native: seq<Sub>, claims: seq<Placement>)
    requires forall k :: 0 <= k < |Unnamed(native, 0)| ==> Unnamed(native, 0)[k] < |native|
    ensures Fallback(claude, rows, native, claims) != [] <==>
      claude && OneToOne(Free(rows, Tools(claims)), native, Unnamed(native, 0))
  {
  }

  lemma SessionsMet(claude: bool, rows: seq<Row>, native: seq<Sub>, sessions: set<string>)
    requires SessionsAre(sessions, rows)
    ensures sessions == Sessions(Placed(claude, rows, native))
  {
    hide SpawnedIn, Claims, Fallback, Holds, Sessions;
    var placed := Placed(claude, rows, native);
    forall id: string ensures id in sessions <==> id in Sessions(placed) {
      PlacedTimes(claude, rows, native, Spawned(id));
      HeldMeansPlaced(placed, Spawned(id));
      SessionsHeld(placed, id);
    }
  }

  // ---- where an unanchored child stands ----------------------------------

  predicate Later(row: Row, start: int) {
    row.at.Some? && row.at.value > start
  }

  function FirstLater(rows: seq<Row>, start: int, i: nat): (end: nat)
    requires i <= |rows|
    ensures i <= end <= |rows| && (end < |rows| ==> Later(rows[end], start))
    ensures forall j :: i <= j < end ==> !Later(rows[j], start)
    decreases |rows| - i
  {
    if i == |rows| || Later(rows[i], start) then i else FirstLater(rows, start, i + 1)
  }

  /** The last row before `end` that carries a time, or the first row. */
  function LastTimed(rows: seq<Row>, end: nat): (ix: nat)
    requires end <= |rows|
    ensures ix <= end && (ix < end ==> forall j :: ix < j < end ==> rows[j].at.None?)
    ensures (ix < end && rows[ix].at.Some?) || (ix == 0 && forall j :: 0 <= j < end ==> rows[j].at.None?)
  {
    if end == 0 then 0 else if rows[end - 1].at.Some? then end - 1 else LastTimed(rows, end - 1)
  }

  predicate Timed(rows: seq<Row>) {
    exists r :: r in rows && r.at.Some?
  }

  method OverviewAnchor(started: Option<int>, rows: seq<Row>) returns (anchor: Option<nat>)
    ensures anchor == if started.None? || !Timed(rows) then None
                      else Some(LastTimed(rows, FirstLater(rows, started.value, 0)))
  {
    if started.None? {
      return None;
    }
    var start := started.value;
    var last: Option<nat>, timed := None, false;
    var i := 0;
    while i < |rows|
      invariant 0 <= i <= |rows| && FirstLater(rows, start, 0) == FirstLater(rows, start, i)
      invariant timed == last.Some? == Timed(rows[..i])
      invariant LastTimed(rows, i) == if last.Some? then last.value else 0
      decreases |rows| - i
    {
      assert rows[..i + 1] == rows[..i] + [rows[i]];
      if rows[i].at.Some? {
        timed := true;
        if rows[i].at.value <= start {
          last := Some(i);
        } else {
          assert rows[i] in rows;
          return Some(if last.Some? then last.value else 0);
        }
      }
      i := i + 1;
    }
    assert rows[..|rows|] == rows;
    return if timed then Some(if last.Some? then last.value else 0) else None;
  }

  /** Where row times run upwards, the anchor is the last row made at or before the start. */
  lemma AnchorPrecedesTheStart(rows: seq<Row>, start: int, j: nat)
    requires forall a, b :: 0 <= a < b < |rows| && rows[a].at.Some? && rows[b].at.Some? ==>
      rows[a].at.value <= rows[b].at.value
    requires j < |rows| && rows[j].at.Some?
    ensures var ix := LastTimed(rows, FirstLater(rows, start, 0));
      if rows[j].at.value <= start then ix < |rows| && j <= ix && rows[ix].at.Some? && rows[ix].at.value <= start
      else j > ix || ix == 0
  {
    var end := FirstLater(rows, start, 0);
    if rows[j].at.value <= start {
      assert end < |rows| ==> j < end;
    } else {
      assert Later(rows[j], start);
      assert end <= j;
    }
  }

  // ---- cleared children --------------------------------------------------

  const MAX_CLEARED := 512

  datatype ClearMark = ClearMark(clearedAt: int, started: Option<int>, completed: Option<int>, toolCalls: Option<nat>)

  /** Remembers a clear; beyond the bound the oldest marks go, and nothing newer goes before an older one. */
  method RememberClear(marks: map<string, ClearMark>, key: string, mark: ClearMark)
    returns (kept: map<string, ClearMark>)
    ensures kept.Keys <= marks.Keys + {key} && forall k :: k in kept ==> kept[k] == marks[key := mark][k]
    ensures |kept| == if |marks[key := mark]| <= MAX_CLEARED then |marks[key := mark]| else MAX_CLEARED
    ensures forall gone, k :: gone in marks[key := mark] && gone !in kept && k in kept ==>
      marks[key := mark][gone].clearedAt <= kept[k].clearedAt
  {
    var all := marks[key := mark];
    kept := all;
    while |kept| > MAX_CLEARED
      invariant kept.Keys <= all.Keys && forall k :: k in kept ==> kept[k] == all[k]
      invariant |kept| == |all| || |kept| >= MAX_CLEARED
      invariant |kept| <= |all|
      invariant forall gone, k :: gone in all && gone !in kept && k in kept ==> all[gone].clearedAt <= kept[k].clearedAt
      decreases |kept|
    {
      var oldest := Oldest(kept);
      var before := kept;
      kept := kept - {oldest};
      assert before.Keys == kept.Keys + {oldest};
      assert |before.Keys| == |kept.Keys| + 1;
    }
  }

  method Oldest(marks: map<string, ClearMark>) returns (oldest: string)
    requires |marks| > 0
    ensures oldest in marks && forall k :: k in marks ==> marks[oldest].clearedAt <= marks[k].clearedAt
  {
    assert marks.Keys != {};
    oldest :| oldest in marks;
    var left := marks.Keys - {oldest};
    while left != {}
      invariant left <= marks.Keys && oldest in marks
      invariant forall k :: k in marks && k !in left ==> marks[oldest].clearedAt <= marks[k].clearedAt
      decreases |left|
    {
      var k :| k in left;
      if marks[k].clearedAt < marks[oldest].clearedAt {
        oldest := k;
      }
      left := left - {k};
    }
  }
}
