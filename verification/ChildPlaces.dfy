/** Which tool call a child is shown under. */
module ChildPlaces {
  import opened Wrappers
  import opened ChildAgents
  import opened ChildProof

  // ---- the order fallback ------------------------------------------------

  /** Positions below `n`, in order. */
  predicate Rising(at: seq<nat>, n: nat) {
    (forall i, j :: 0 <= i < j < |at| ==> at[i] < at[j]) && forall i :: 0 <= i < |at| ==> at[i] < n
  }

  /** A named `Agent` call nothing is shown under. */
  predicate Idle(row: Row, claims: seq<Placement>) {
    row.tool.Some? && row.tool.value.id != "" && row.tool.value.name == "Agent" &&
    forall p :: p in claims ==> p.0 != row.tool.value.id
  }

  lemma IdleIsFree(row: Row, claims: seq<Placement>)
    ensures Idle(row, claims) <==>
      Named(row) && row.tool.value.name == "Agent" && row.tool.value.id !in Tools(claims)
  {
  }

  lemma Front(i: nat, rest: seq<nat>, n: nat)
    requires i < n && Rising(rest, n) && forall k: nat :: k in rest ==> i < k
    ensures Rising([i] + rest, n) && forall k: nat :: k in [i] + rest <==> k == i || k in rest
  {
    assert forall k :: 0 <= k < |rest| ==> rest[k] in rest;
  }

  /** `at` are the idle calls among the rows from `i` on, in order. */
  ghost predicate IdleFrom(rows: seq<Row>, i: nat, claims: seq<Placement>, at: seq<nat>) {
    Rising(at, |rows|) && forall k: nat :: k in at <==> i <= k < |rows| && Idle(rows[k], claims)
  }

  lemma IdleStep(rows: seq<Row>, i: nat, claims: seq<Placement>, rest: seq<nat>)
    requires i < |rows| && IdleFrom(rows, i + 1, claims, rest)
    ensures IdleFrom(rows, i, claims, if Idle(rows[i], claims) then [i] + rest else rest)
  {
    hide Rising, Idle;
    if Idle(rows[i], claims) { Front(i, rest, |rows|); }
  }

  lemma {:induction false} FreeCalls(rows: seq<Row>, i: nat, claims: seq<Placement>) returns (at: seq<nat>)
    requires i <= |rows|
    ensures IdleFrom(rows, i, claims, at)
    ensures var free := Free(rows[i..], Tools(claims));
      |at| == |free| && forall k :: 0 <= k < |at| ==> at[k] < |rows| && free[k] == rows[at[k]]
    decreases |rows| - i
  {
    hide IdleFrom, Idle, Named, Tools;
    if i == |rows| {
      at := [];
      NoneIdle(rows, claims);
    } else {
      var rest := FreeCalls(rows, i + 1, claims);
      assert rows[i..][0] == rows[i] && rows[i..][1..] == rows[i + 1..];
      IdleIsFree(rows[i], claims);
      IdleStep(rows, i, claims, rest);
      at := if Idle(rows[i], claims) then [i] + rest else rest;
    }
  }

  lemma NoneIdle(rows: seq<Row>, claims: seq<Placement>)
    ensures IdleFrom(rows, |rows|, claims, [])
  {
  }

  lemma Bounded(at: seq<nat>, n: nat)
    requires Rising(at, n)
    ensures forall k :: 0 <= k < |at| ==> at[k] < n
  {
  }

  predicate StartedBefore(child: Sub, call: int) {
    child.started.Some? && child.started.value < call
  }

  /** Each child started at or after its call and before the next one was made. */
  predicate Interleaved(rows: seq<Row>, native: seq<Sub>, calls: seq<nat>, children: seq<nat>)
    requires |calls| == |children| && Rising(calls, |rows|) && Rising(children, |native|)
  {
    forall k :: 0 <= k < |calls| ==>
      && rows[calls[k]].at.Some? && native[children[k]].started.Some?
      && rows[calls[k]].at.value <= native[children[k]].started.value
      && (k > 0 ==> StartedBefore(native[children[k - 1]], rows[calls[k]].at.value))
  }

  /** `at` are the children that name no call, in order. */
  ghost predicate UnnamedAmong(native: seq<Sub>, at: seq<nat>) {
    Rising(at, |native|) && forall k: nat :: k in at <==> k < |native| && native[k].anchor == ""
  }

  /** The children that name no call are placed if and only if there is one idle call for each and the
      times prove which; then each is under its own. */
  lemma FallbackFiresIff(claude: bool, rows: seq<Row>, native: seq<Sub>, claims: seq<Placement>)
    returns (calls: seq<nat>, children: seq<nat>)
    ensures IdleFrom(rows, 0, claims, calls) && UnnamedAmong(native, children)
    ensures var pairs := Fallback(claude, rows, native, claims);
      if claude && |calls| == |children| && Interleaved(rows, native, calls, children) then
        |pairs| == |calls| &&
        forall k :: 0 <= k < |pairs| ==> pairs[k] == (rows[calls[k]].tool.value.id, Native(children[k]))
      else pairs == []
  {
    hide IdleFrom, UnnamedAmong, Interleaved, OneToOne, Free, Tools, Pairs, Rising;
    calls := FreeCalls(rows, 0, claims);
    children := Unnamed(native, 0);
    assert rows[0..] == rows;
    var free := Free(rows, Tools(claims));
    UnnamedRise(native);
    CallsRise(rows, claims, calls);
    Bounded(children, |native|);
    if |calls| == |children| {
      if calls == [] {
        NonePair(free, native, calls, children);
      } else {
        OneToOneIff(rows, native, calls, children, free);
      }
      if claude && Interleaved(rows, native, calls, children) { PairsAre(free, children); }
    } else {
      NotOneEach(free, native, children);
    }
  }

  lemma CallsRise(rows: seq<Row>, claims: seq<Placement>, at: seq<nat>)
    requires IdleFrom(rows, 0, claims, at)
    ensures Rising(at, |rows|) && forall k :: 0 <= k < |at| ==> at[k] < |rows|
  {
  }

  lemma UnnamedRise(native: seq<Sub>)
    ensures Rising(Unnamed(native, 0), |native|) && UnnamedAmong(native, Unnamed(native, 0))
  {
    var c := Unnamed(native, 0);
    assert forall k :: 0 <= k < |c| ==> c[k] in c;
  }

  lemma NonePair(free: seq<Row>, native: seq<Sub>, calls: seq<nat>, children: seq<nat>)
    requires free == [] && children == []
    ensures !OneToOne(free, native, children) && Pairs(free, children) == []
  {
  }

  lemma NotOneEach(free: seq<Row>, native: seq<Sub>, children: seq<nat>)
    requires |free| != |children| && forall k :: 0 <= k < |children| ==> children[k] < |native|
    ensures !OneToOne(free, native, children)
  {
  }

  lemma OneToOneIff(rows: seq<Row>, native: seq<Sub>, calls: seq<nat>, children: seq<nat>, free: seq<Row>)
    requires |calls| == |children| == |free| && free != [] && Rising(calls, |rows|) && Rising(children, |native|)
    requires forall k :: 0 <= k < |calls| ==> free[k] == rows[calls[k]]
    ensures OneToOne(free, native, children) <==> Interleaved(rows, native, calls, children)
  {
    if Interleaved(rows, native, calls, children) {
      forall i | 0 <= i < |free|
        ensures AtOrBefore(free[i].at, native[children[i]].started)
        ensures i < |free| - 1 ==> NotAfter(free[i].at, free[i + 1].at)
        ensures i < |free| - 1 ==> Before(native[children[i]].started, free[i + 1].at)
        ensures i < |free| - 1 ==> NotAfter(native[children[i]].started, native[children[i + 1]].started)
      {
        assert rows[calls[i]].at.Some?;
        if i < |free| - 1 {
          var j := i + 1;
          assert rows[calls[j]].at.Some? && native[children[j]].started.Some?;
        }
      }
    }
    if OneToOne(free, native, children) {
      forall k | 0 <= k < |calls|
        ensures rows[calls[k]].at.Some? && native[children[k]].started.Some?
        ensures rows[calls[k]].at.value <= native[children[k]].started.value
        ensures k > 0 ==> StartedBefore(native[children[k - 1]], rows[calls[k]].at.value)
      {
        assert AtOrBefore(free[k].at, native[children[k]].started);
        if k > 0 { assert Before(native[children[k - 1]].started, free[k - 1 + 1].at); }
      }
    }
  }

  lemma {:induction false} PairsAre(free: seq<Row>, children: seq<nat>)
    requires |free| == |children| && forall r :: r in free ==> r.tool.Some?
    ensures |Pairs(free, children)| == |free|
    ensures forall k :: 0 <= k < |free| ==> Pairs(free, children)[k] == (free[k].tool.value.id, Native(children[k]))
  {
    if free != [] {
      assert forall r :: r in free[1..] ==> r in free;
      assert free[0] in free;
      PairsAre(free[1..], children[1..]);
    }
  }

  // ---- exact anchors and receipts ----------------------------------------

  /** Row `k` is a subagent call of this id, and no repetition of an earlier row's receipt. */
  predicate Takes(rows: seq<Row>, k: nat, tool: string)
    requires k < |rows|
  {
    rows[k].tool.Some? && rows[k].tool.value.id == tool && rows[k].tool.value.subagent &&
    (rows[k].tool.value.spawned.Some? ==> forall j :: 0 <= j < k ==>
       !(rows[j].tool.Some? && rows[j].tool.value.id != "" &&
         rows[j].tool.value.spawned == rows[k].tool.value.spawned))
  }

  lemma TakesReaches(rows: seq<Row>, k: nat, tool: string)
    requires k < |rows| && tool != ""
    ensures Takes(rows, k, tool) <==> Reaches(rows, k, tool)
  {
    if rows[k].tool.Some? && rows[k].tool.value.spawned.Some? {
      var id := rows[k].tool.value.spawned.value;
      if SpawnedIn(rows[..k], id) {
        var r :| r in rows[..k] && Spawns(r, id);
        var j :| 0 <= j < k && rows[..k][j] == r;
        assert rows[j] == r;
      } else {
        forall j | 0 <= j < k ensures !Spawns(rows[j], id) { assert rows[..k][j] in rows[..k]; }
      }
    }
  }

  /** A child that names a tool call is shown under it if and only if some row takes children for it. */
  lemma NamedChildIsShownIff(claude: bool, rows: seq<Row>, native: seq<Sub>, i: nat)
    requires i < |native| && native[i].anchor != ""
    ensures (native[i].anchor, Native(i)) in Placed(claude, rows, native) <==>
      exists k :: 0 <= k < |rows| && Takes(rows, k, native[i].anchor)
  {
    hide Placed, Reaches, Takes;
    var tool, placed := native[i].anchor, Placed(claude, rows, native);
    PlacedTimes(claude, rows, native, Native(i));
    HeldMeansPlaced(placed, Native(i));
    forall k: nat | k < |rows| ensures Takes(rows, k, tool) <==> Reaches(rows, k, tool) { TakesReaches(rows, k, tool); }
    assert ReachedIn(rows, |rows|, tool) <==> exists k :: 0 <= k < |rows| && Takes(rows, k, tool);
    if Native(i) in Holds(placed) {
      var p :| p in placed && p.1 == Native(i);
      assert p == (p.0, Native(i));
      NamedChildIsUnderItsTool(claude, rows, native, i, p.0);
    }
  }

  predicate Receipt(row: Row, id: string) {
    row.tool.Some? && row.tool.value.id != "" && row.tool.value.spawned == Some(id)
  }

  /** A session is shown under the call of its first receipt, and under no other. */
  lemma SessionIsUnderItsFirstReceipt(claude: bool, rows: seq<Row>, native: seq<Sub>, id: string, k: nat, tool: string)
    requires k < |rows| && Receipt(rows[k], id) && forall j :: 0 <= j < k ==> !Receipt(rows[j], id)
    ensures (tool, Spawned(id)) in Placed(claude, rows, native) <==> tool == rows[k].tool.value.id
  {
    hide Claims, Fallback, SpawnedIn;
    var claims, p := Claims(rows, native, |rows|), (tool, Spawned(id));
    FallbackTimes(claude, rows, native, claims, Spawned(id));
    HeldMeansPlaced(Fallback(claude, rows, native, claims), Spawned(id));
    ReceiptClaims(rows, native, |rows|, id, k, p);
  }

  lemma {:induction false} ReceiptClaims(
    rows: seq<Row>, native: seq<Sub>, n: nat, id: string, k: nat, p: Placement)
    requires n <= |rows| && k < |rows| && Receipt(rows[k], id) && forall j :: 0 <= j < k ==> !Receipt(rows[j], id)
    requires p.1 == Spawned(id)
    ensures p in Claims(rows, native, n) <==> k < n && p.0 == rows[k].tool.value.id
  {
    hide RowClaims, Receipt;
    if n > 0 {
      ReceiptClaims(rows, native, n - 1, id, k, p);
      RowReceipt(rows, native, n - 1, id, k, p);
    }
  }

  lemma RowReceipt(rows: seq<Row>, native: seq<Sub>, n: nat, id: string, k: nat, p: Placement)
    requires n < |rows| && k < |rows| && Receipt(rows[k], id) && forall j :: 0 <= j < k ==> !Receipt(rows[j], id)
    requires p.1 == Spawned(id)
    ensures p in RowClaims(rows, native, n) <==> n == k && p.0 == rows[k].tool.value.id
  {
    hide Handled, ReachedIn, Naming;
    FirstReceipt(rows, n, id, k);
    if Handled(rows, n) {
      HandledHasATool(rows, n);
      if p in Naming(native, rows[n].tool.value.id, 0) { NamingOwn(native, rows[n].tool.value.id, 0, p); }
    }
  }

  lemma HandledHasATool(rows: seq<Row>, n: nat)
    requires n < |rows| && Handled(rows, n)
    ensures rows[n].tool.Some?
  {
  }

  lemma FirstReceipt(rows: seq<Row>, n: nat, id: string, k: nat)
    requires n < |rows| && k < |rows| && Receipt(rows[k], id) && forall j :: 0 <= j < k ==> !Receipt(rows[j], id)
    ensures Handled(rows, n) && rows[n].tool.value.spawned == Some(id) <==> n == k
  {
    if n > k {
      assert rows[..n][k] in rows[..n] && Spawns(rows[k], id);
    } else if n == k {
      forall r | r in rows[..k] ensures !Spawns(r, id) {
        var j :| 0 <= j < k && rows[..k][j] == r;
        assert !Receipt(rows[j], id);
      }
    }
  }

  // ---- what is unanchored ------------------------------------------------

  lemma {:induction false} LeftoverAre(native: seq<Sub>, held: set<Child>, i: nat) returns (at: seq<nat>)
    requires i <= |native|
    ensures Rising(at, |native|) && forall k: nat :: k in at <==> i <= k < |native| && Native(k) !in held
    ensures |at| == |Leftover(native, held, i)|
    ensures forall k :: 0 <= k < |at| ==> Leftover(native, held, i)[k] == Native(at[k])
    decreases |native| - i
  {
    if i == |native| {
      at := [];
    } else {
      var rest := LeftoverAre(native, held, i + 1);
      Front(i, rest, |native|);
      at := if Native(i) in held then rest else [i] + rest;
    }
  }

  lemma {:induction false} UnclaimedAre(children: seq<Session>, i: nat, sessions: set<string>) returns (at: seq<nat>)
    requires i <= |children|
    ensures Rising(at, |children|) && forall k: nat :: k in at ==> i <= k
    ensures var u := Unclaimed(children[i..], sessions);
      |at| == |u| && forall k :: 0 <= k < |at| ==> u[k] == Spawned(children[at[k]].id)
    decreases |children| - i
  {
    if i == |children| {
      at := [];
    } else {
      assert children[i..][0] == children[i] && children[i..][1..] == children[i + 1..];
      if children[i].id in sessions {
        at := UnclaimedAre(children, i + 1, sessions);
      } else {
        var rest := UnclaimedAre(children, i + 1, sessions + {children[i].id});
        Front(i, rest, |children|);
        at := [i] + rest;
      }
    }
  }

  /** Unanchored children keep their order: the provider's as reported, then the sessions as the fleet lists them. */
  lemma UnanchoredKeepsOrder(parent: string, fleet: seq<Session>, native: seq<Sub>, placed: seq<Placement>)
    returns (own: seq<nat>, others: seq<nat>)
    ensures Rising(own, |native|) && forall k: nat :: k in own <==> k < |native| && Native(k) !in Holds(placed)
    ensures Rising(others, |Offspring(fleet, parent)|)
    ensures var children, shown := Offspring(fleet, parent), Unanchored(parent, fleet, native, placed);
      && |shown| == |own| + |others|
      && (forall k :: 0 <= k < |own| ==> shown[k] == Native(own[k]))
      && (forall k :: 0 <= k < |others| ==>
            shown[|own| + k] == Spawned(children[others[k]].id))
  {
    var children := Take(Offspring(fleet, parent), MAX_PROVIDER_CHILDREN);
    own := LeftoverAre(native, Holds(placed), 0);
    others := UnclaimedAre(children, 0, Sessions(placed));
    assert children[0..] == children;
  }
}
