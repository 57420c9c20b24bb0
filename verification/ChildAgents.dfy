/** Where each child agent is shown (child_agents.rs): under the tool call that started it, or unanchored. */
module ChildAgents {
  import opened Wrappers

  const MAX_PROVIDER_CHILDREN := 32

  /** A provider's own child as reported: its id, the tool call it names, and when it started. */
  datatype Sub = Sub(id: string, anchor: string, started: Option<int>)

  datatype Tool = Tool(id: string, name: string, subagent: bool, spawned: Option<string>)

  datatype Row = Row(tool: Option<Tool>, at: Option<int>)

  datatype Session = Session(id: string, parent: string)

  /** A child, named by where it comes from: the provider's list or a session id. */
  datatype Child = Native(index: nat) | Spawned(session: string)

  datatype Shown = Shown(byTool: map<string, seq<Child>>, unanchored: seq<Child>)

  function Take<T>(s: seq<T>, n: nat): (r: seq<T>)
    ensures r <= s && |r| == if |s| < n then |s| else n
  {
    if |s| <= n then s else s[..n]
  }

  // ---- the provider's children, each id once -----------------------------

  function Dedup(subs: seq<Sub>, seen: set<string>): seq<Sub> {
    if subs == [] then []
    else if subs[0].id == "" || subs[0].id in seen then Dedup(subs[1..], seen)
    else [subs[0]] + Dedup(subs[1..], seen + {subs[0].id})
  }

  // ---- what each row of the transcript claims ----------------------------

  /** A row with a named tool call. */
  predicate Named(row: Row) {
    row.tool.Some? && row.tool.value.id != ""
  }

  predicate Spawns(row: Row, id: string) {
    Named(row) && row.tool.value.spawned == Some(id)
  }

  predicate SpawnedIn(rows: seq<Row>, id: string) {
    exists r :: r in rows && Spawns(r, id)
  }

  /** A second receipt for a session ends its row's turn. */
  predicate Handled(rows: seq<Row>, k: nat)
    requires k < |rows|
  {
    Named(rows[k]) &&
    (rows[k].tool.value.spawned.Some? ==> !SpawnedIn(rows[..k], rows[k].tool.value.spawned.value))
  }

  /** Row `k` can claim the children that name its tool call. */
  predicate Reaches(rows: seq<Row>, k: nat, tool: string)
    requires k < |rows|
  {
    Handled(rows, k) && rows[k].tool.value.subagent && rows[k].tool.value.id == tool
  }

  predicate ReachedIn(rows: seq<Row>, upTo: nat, tool: string)
    requires upTo <= |rows|
  {
    exists k: nat :: k < upTo && Reaches(rows, k, tool)
  }

  type Placement = (string, Child)

  /** The children naming `tool`, in the provider's order, from index `i` on. */
  function Naming(native: seq<Sub>, tool: string, i: nat): seq<Placement>
    requires i <= |native|
    decreases |native| - i
  {
    if i == |native| then []
    else (if native[i].anchor == tool then [(tool, Native(i))] else []) + Naming(native, tool, i + 1)
  }

  function RowClaims(rows: seq<Row>, native: seq<Sub>, k: nat): seq<Placement>
    requires k < |rows|
  {
    if !Handled(rows, k) then []
    else
      var tool := rows[k].tool.value;
      (if tool.spawned.Some? then [(tool.id, Spawned(tool.spawned.value))] else []) +
      (if tool.subagent && !ReachedIn(rows, k, tool.id) then Naming(native, tool.id, 0) else [])
  }

  /** What the first `k` rows claim, in order. */
  function Claims(rows: seq<Row>, native: seq<Sub>, k: nat): seq<Placement>
    requires k <= |rows|
  {
    if k == 0 then [] else Claims(rows, native, k - 1) + RowClaims(rows, native, k - 1)
  }

  function Tools(placed: seq<Placement>): set<string> {
    set p | p in placed :: p.0
  }

  // ---- the historical order fallback -------------------------------------

  /** Named `Agent` calls nothing is shown under. */
  function Free(rows: seq<Row>, taken: set<string>): (free: seq<Row>)
    ensures forall r :: r in free ==> r in rows && Named(r) && r.tool.value.name == "Agent" && r.tool.value.id !in taken
  {
    if rows == [] then []
    else (if Named(rows[0]) && rows[0].tool.value.name == "Agent" && rows[0].tool.value.id !in taken
          then [rows[0]] else []) + Free(rows[1..], taken)
  }

  /** Children that name no tool call, from index `i` on. */
  function Unnamed(native: seq<Sub>, i: nat): (c: seq<nat>)
    requires i <= |native|
    ensures forall x :: x in c <==> i <= x < |native| && native[x].anchor == ""
    ensures forall a, b :: 0 <= a < b < |c| ==> c[a] < c[b]
    decreases |native| - i
  {
    if i == |native| then []
    else
      var rest := Unnamed(native, i + 1);
      assert forall a :: 0 <= a < |rest| ==> rest[a] in rest;
      if native[i].anchor == "" then [i] + rest else rest
  }

  predicate AtOrBefore(call: Option<int>, start: Option<int>) {
    call.Some? && start.Some? && call.value <= start.value
  }

  predicate Before(start: Option<int>, call: Option<int>) {
    start.Some? && call.Some? && start.value < call.value
  }

  /** Options compare with nothing first. */
  predicate NotAfter(a: Option<int>, b: Option<int>) {
    a.None? || (b.Some? && a.value <= b.value)
  }

  /** One call for each child, and the times prove which. */
  predicate OneToOne(free: seq<Row>, native: seq<Sub>, candidates: seq<nat>)
    requires forall k :: 0 <= k < |candidates| ==> candidates[k] < |native|
  {
    && free != [] && |free| == |candidates|
    && (forall i :: 0 <= i < |free| ==> AtOrBefore(free[i].at, native[candidates[i]].started))
    && (forall i :: 0 <= i < |free| - 1 ==> NotAfter(free[i].at, free[i + 1].at))
    && (forall i :: 0 <= i < |free| - 1 ==> Before(native[candidates[i]].started, free[i + 1].at))
    && (forall i :: 0 <= i < |free| - 1 ==> NotAfter(native[candidates[i]].started, native[candidates[i + 1]].started))
  }

  function Pairs(free: seq<Row>, candidates: seq<nat>): seq<Placement>
    requires |free| == |candidates| && forall r :: r in free ==> r.tool.Some?
  {
    if free == [] then []
    else [(free[0].tool.value.id, Native(candidates[0]))] + Pairs(free[1..], candidates[1..])
  }

  function Fallback(claude: bool, rows: seq<Row>, native: seq<Sub>, placed: seq<Placement>): seq<Placement> {
    var free, candidates := Free(rows, Tools(placed)), Unnamed(native, 0);
    assert forall k :: 0 <= k < |candidates| ==> candidates[k] in candidates;
    if claude && OneToOne(free, native, candidates) then Pairs(free, candidates) else []
  }

  // ---- what is left ------------------------------------------------------

  function Holds(placed: seq<Placement>): set<Child> {
    set p | p in placed :: p.1
  }

  function Leftover(native: seq<Sub>, held: set<Child>, i: nat): seq<Child>
    requires i <= |native|
    decreases |native| - i
  {
    if i == |native| then []
    else (if Native(i) in held then [] else [Native(i)]) + Leftover(native, held, i + 1)
  }

  function Offspring(fleet: seq<Session>, parent: string): seq<Session> {
    if fleet == [] then []
    else (if fleet[0].parent == parent && fleet[0].id != parent then [fleet[0]] else []) + Offspring(fleet[1..], parent)
  }

  function Unclaimed(children: seq<Session>, sessions: set<string>): seq<Child> {
    if children == [] then []
    else if children[0].id in sessions then Unclaimed(children[1..], sessions)
    else [Spawned(children[0].id)] + Unclaimed(children[1..], sessions + {children[0].id})
  }

  function Sessions(placed: seq<Placement>): set<string> {
    set p | p in placed && p.1.Spawned? :: p.1.session
  }

  /** Everything placed under a tool call, in the order it was placed. */
  function Placed(claude: bool, rows: seq<Row>, native: seq<Sub>): seq<Placement> {
    var claims := Claims(rows, native, |rows|);
    claims + Fallback(claude, rows, native, claims)
  }

  function Unanchored(parent: string, fleet: seq<Session>, native: seq<Sub>, placed: seq<Placement>): seq<Child> {
    Leftover(native, Holds(placed), 0) +
    Unclaimed(Take(Offspring(fleet, parent), MAX_PROVIDER_CHILDREN), Sessions(placed))
  }

  function Push(m: map<string, seq<Child>>, tool: string, child: Child): map<string, seq<Child>> {
    m[tool := (if tool in m then m[tool] else []) + [child]]
  }

  /** The lists under each tool call. */
  function Grouped(placed: seq<Placement>): map<string, seq<Child>> {
    if placed == [] then map[]
    else
      var last := |placed| - 1;
      Push(Grouped(placed[..last]), placed[last].0, placed[last].1)
  }
}
