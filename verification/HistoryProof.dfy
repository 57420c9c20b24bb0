/** What the history screen may rely on. */
module HistoryProof {
  import opened History
  import opened Sorting
  import opened Wrappers

  // A partition of the rows, true totals and times, and their order; and a search that only leaves out.

  // ---- filing ------------------------------------------------------------

  function WithKey(place: Entry -> Place, key: string): Entry -> bool {
    e => KeyOf(place(e)) == key
  }

  /** The group's rows are exactly the entries that file under its key, in their order. */
  predicate FiledRight(g: Group, entries: seq<Entry>, place: Entry -> Place) {
    && g.entries == Filter(entries, WithKey(place, g.key)) && g.entries != []
    && g.total == |g.entries|
    && (forall e :: e in g.entries ==> e.updatedAt <= g.updatedAt)
    && (exists e :: e in g.entries && e.updatedAt == g.updatedAt)
    && place(g.entries[0]) == Place(g.path, g.name, g.kind)
  }

  predicate UniqueKeys(groups: seq<Group>) {
    forall i, j :: 0 <= i < j < |groups| ==> groups[i].key != groups[j].key
  }

  predicate Right(groups: seq<Group>, entries: seq<Entry>, place: Entry -> Place) {
    && UniqueKeys(groups)
    && (forall i :: 0 <= i < |groups| ==> FiledRight(groups[i], entries, place))
    && (forall e :: e in entries ==> Position(groups, KeyOf(place(e))) < |groups|)
  }

  lemma FilterSnoc(entries: seq<Entry>, e: Entry, p: Entry -> bool)
    ensures Filter(entries + [e], p) == Filter(entries, p) + if p(e) then [e] else []
  {
    FilterConcat(entries, [e], p);
    assert [e][1..] == [];
  }

  lemma AddedRight(g: Group, entries: seq<Entry>, place: Entry -> Place, e: Entry)
    requires FiledRight(g, entries, place) && KeyOf(place(e)) == g.key
    ensures FiledRight(Added(g, e), entries + [e], place)
  {
    hide KeyOf;
    FilterSnoc(entries, e, WithKey(place, g.key));
    var h := Added(g, e);
    assert forall x :: x in h.entries <==> x in g.entries || x == e;
    if e.updatedAt >= g.updatedAt {
      assert e in h.entries;
    } else {
      var x :| x in g.entries && x.updatedAt == g.updatedAt;
      assert x in h.entries;
    }
  }

  lemma OtherRight(g: Group, entries: seq<Entry>, place: Entry -> Place, e: Entry)
    requires FiledRight(g, entries, place) && KeyOf(place(e)) != g.key
    ensures FiledRight(g, entries + [e], place)
  {
    hide KeyOf;
    FilterSnoc(entries, e, WithKey(place, g.key));
    assert g.entries + [] == g.entries;
  }

  lemma {:induction false} NoneFiled(entries: seq<Entry>, place: Entry -> Place, key: string)
    requires forall e :: e in entries ==> KeyOf(place(e)) != key
    ensures Filter(entries, WithKey(place, key)) == []
  {
    hide KeyOf;
    if entries != [] {
      assert entries[0] in entries && forall e :: e in entries[1..] ==> e in entries;
      NoneFiled(entries[1..], place, key);
    }
  }

  lemma NewRight(entries: seq<Entry>, place: Entry -> Place, e: Entry)
    requires forall x :: x in entries ==> KeyOf(place(x)) != KeyOf(place(e))
    ensures var p := place(e);
      FiledRight(Added(Group(KeyOf(p), p.name, p.path, p.kind, [], 0, I64_MIN), e), entries + [e], place)
  {
    hide KeyOf;
    var p := place(e);
    var g := Added(Group(KeyOf(p), p.name, p.path, p.kind, [], 0, I64_MIN), e);
    NoneFiled(entries, place, KeyOf(p));
    FilterSnoc(entries, e, WithKey(place, KeyOf(p)));
    assert g.entries == [e] && e in g.entries;
  }

  lemma {:induction false} PositionKept(groups: seq<Group>, other: seq<Group>, key: string)
    requires |groups| <= |other| && forall i :: 0 <= i < |groups| ==> groups[i].key == other[i].key
    requires Position(groups, key) < |groups|
    ensures Position(other, key) < |other|
  {
    if groups[0].key != key {
      PositionKept(groups[1..], other[1..], key);
    }
  }

  lemma FileRight(groups: seq<Group>, entries: seq<Entry>, place: Entry -> Place, e: Entry)
    requires Right(groups, entries, place)
    ensures Right(File(groups, e, place(e)), entries + [e], place)
  {
    hide KeyOf, FiledRight, Added;
    var p := place(e);
    var ix, t := Position(groups, KeyOf(p)), File(groups, e, p);
    AddedKeepsKey(groups, e, p);
    forall i | 0 <= i < |t| ensures FiledRight(t[i], entries + [e], place) {
      if i == ix && ix < |groups| {
        AddedRight(groups[ix], entries, place, e);
      } else if i < |groups| {
        assert groups[i].key != KeyOf(p) by { if ix < |groups| && i > ix { assert groups[ix].key != groups[i].key; } }
        OtherRight(groups[i], entries, place, e);
      } else {
        forall x | x in entries ensures KeyOf(place(x)) != KeyOf(p) {
          assert Position(groups, KeyOf(place(x))) < |groups|;
        }
        NewRight(entries, place, e);
      }
    }
    forall x | x in entries + [e] ensures Position(t, KeyOf(place(x))) < |t| {
      if x in entries {
        PositionKept(groups, t, KeyOf(place(x)));
      } else {
        assert t[if ix < |groups| then ix else |groups|].key == KeyOf(p);
      }
    }
  }

  lemma AddedKeepsKey(groups: seq<Group>, e: Entry, p: Place)
    ensures var t := File(groups, e, p);
      && |groups| <= |t| && (forall i :: 0 <= i < |groups| ==> groups[i].key == t[i].key)
      && (forall i :: |groups| <= i < |t| ==>
            t[i].key == KeyOf(p) && i == |groups| && Position(groups, KeyOf(p)) == |groups|)
  {
  }

  lemma {:induction false} FiledIsRight(entries: seq<Entry>, place: Entry -> Place)
    ensures Right(Filed(entries, place), entries, place)
  {
    hide FiledRight, Position, File;
    if entries != [] {
      var before, last := entries[..|entries| - 1], entries[|entries| - 1];
      FiledIsRight(before, place);
      FileRight(Filed(before, place), before, place, last);
      assert before + [last] == entries;
    }
  }

  // ---- the rows are partitioned ------------------------------------------

  /** All rows of all groups. */
  function Rows(groups: seq<Group>): multiset<Entry> {
    if groups == [] then multiset{} else multiset(groups[0].entries) + Rows(groups[1..])
  }

  lemma {:induction false} RowsUpdated(groups: seq<Group>, i: nat, e: Entry)
    requires i < |groups|
    ensures Rows(groups[i := Added(groups[i], e)]) == Rows(groups) + multiset{e}
  {
    var t := groups[i := Added(groups[i], e)];
    if i == 0 {
      assert t[1..] == groups[1..];
    } else {
      assert t[1..] == groups[1..][i - 1 := Added(groups[i], e)];
      RowsUpdated(groups[1..], i - 1, e);
    }
  }

  lemma {:induction false} RowsSnoc(groups: seq<Group>, g: Group)
    ensures Rows(groups + [g]) == Rows(groups) + multiset(g.entries)
  {
    if groups == [] {
      assert (groups + [g])[1..] == [];
    } else {
      assert (groups + [g])[1..] == groups[1..] + [g];
      RowsSnoc(groups[1..], g);
    }
  }

  lemma OnlyRow(g: Group, e: Entry)
    requires g.entries == []
    ensures Added(g, e).entries == [e]
  {
  }

  lemma {:induction false} FiledRows(entries: seq<Entry>, place: Entry -> Place)
    ensures Rows(Filed(entries, place)) == multiset(entries)
  {
    hide KeyOf, Position, Added;
    if entries != [] {
      var before, e := entries[..|entries| - 1], entries[|entries| - 1];
      FiledRows(before, place);
      var groups, p := Filed(before, place), place(e);
      var ix := Position(groups, KeyOf(p));
      if ix < |groups| {
        RowsUpdated(groups, ix, e);
      } else {
        var g := Group(KeyOf(p), p.name, p.path, p.kind, [], 0, I64_MIN);
        RowsSnoc(groups, Added(g, e));
        assert Added(g, e).entries == [e] by { OnlyRow(g, e); }
      }
      assert entries == before + [e];
    }
  }

  lemma {:induction false} RowsOfSorted(groups: seq<Group>)
    ensures Rows(RowsSorted(groups)) == Rows(groups)
  {
    if groups != [] {
      SortKeeps(groups[0].entries, EntryOrder());
      RowsOfSorted(groups[1..]);
      assert RowsSorted(groups)[1..] == RowsSorted(groups[1..]);
    }
  }

  lemma {:induction false} RowsOfInsert(g: Group, groups: seq<Group>, le: (Group, Group) -> bool)
    ensures Rows(Insert(g, groups, le)) == multiset(g.entries) + Rows(groups)
  {
    if groups == [] || le(g, groups[0]) {
      assert ([g] + groups)[1..] == groups;
    } else {
      RowsOfInsert(g, groups[1..], le);
      assert Insert(g, groups, le)[1..] == Insert(g, groups[1..], le);
    }
  }

  lemma {:induction false} RowsOfSort(groups: seq<Group>, le: (Group, Group) -> bool)
    ensures Rows(Sort(groups, le)) == Rows(groups)
  {
    if groups != [] {
      RowsOfSort(groups[1..], le);
      RowsOfInsert(groups[0], Sort(groups[1..], le), le);
    }
  }

  /** Every entry is a row of exactly one group, as often as it was reported. */
  lemma {:induction false} GroupsPartitionTheEntries(w: Paths, saved: seq<Saved>, entries: seq<Entry>)
    ensures Rows(Groups(w, saved, entries)) == multiset(entries)
  {
    hide Filed, RowsSorted, Sort;
    var place := PlaceIn(w, saved, Folders(w, entries));
    FiledRows(entries, place);
    RowsOfSorted(Filed(entries, place));
    RowsOfSort(RowsSorted(Filed(entries, place)), GroupOrder(w.lower));
  }

  // ---- the groups as shown -----------------------------------------------

  /** The rows a group shows: its entries, newest first, those of one time as reported. */
  predicate ShownRight(g: Group, entries: seq<Entry>, place: Entry -> Place) {
    var own := Filter(entries, WithKey(place, g.key));
    && g.entries == Sort(own, EntryOrder()) && own != []
    && g.total == |own|
    && (forall e :: e in own ==> e.updatedAt <= g.updatedAt)
    && (exists e :: e in own && e.updatedAt == g.updatedAt)
    && place(own[0]) == Place(g.path, g.name, g.kind)
  }

  lemma {:induction false} InsertUnique(g: Group, groups: seq<Group>, le: (Group, Group) -> bool)
    requires UniqueKeys(groups) && forall h :: h in groups ==> h.key != g.key
    ensures UniqueKeys(Insert(g, groups, le))
  {
    if !(groups == [] || le(g, groups[0])) {
      assert forall h :: h in groups[1..] ==> h in groups;
      InsertUnique(g, groups[1..], le);
      InsertKeeps(g, groups[1..], le);
      var t := Insert(g, groups[1..], le);
      forall j | 0 <= j < |t| ensures t[j].key != groups[0].key {
        assert t[j] in multiset(t);
        assert t[j] == g || t[j] in groups[1..];
        if t[j] != g {
          var k :| 0 <= k < |groups[1..]| && groups[1..][k] == t[j];
          assert groups[0].key != groups[k + 1].key;
        } else {
          assert groups[0] in groups;
        }
      }
    }
  }

  lemma {:induction false} SortUnique(groups: seq<Group>, le: (Group, Group) -> bool)
    requires UniqueKeys(groups)
    ensures UniqueKeys(Sort(groups, le))
  {
    if groups != [] {
      SortUnique(groups[1..], le);
      SortKeeps(groups[1..], le);
      forall h | h in Sort(groups[1..], le) ensures h.key != groups[0].key {
        var k :| 0 <= k < |groups[1..]| && groups[1..][k] == h;
        assert groups[0].key != groups[k + 1].key;
      }
      InsertUnique(groups[0], Sort(groups[1..], le), le);
    }
  }

  /** Keys are unique; each group shows what files under its key, with the true count and newest time. */
  lemma {:induction false} EveryGroupIsRight(w: Paths, saved: seq<Saved>, entries: seq<Entry>)
    ensures UniqueKeys(Groups(w, saved, entries))
    ensures forall g :: g in Groups(w, saved, entries) ==>
      ShownRight(g, entries, PlaceIn(w, saved, Folders(w, entries)))
    ensures forall e :: e in entries ==>
      exists g :: g in Groups(w, saved, entries) && g.key == KeyOf(PlaceIn(w, saved, Folders(w, entries))(e))
  {
    hide KeyOf, PlaceIn, Sort, FiledRight, ShownRight;
    var place := PlaceIn(w, saved, Folders(w, entries));
    var filed := Filed(entries, place);
    var rows := RowsSorted(filed);
    FiledIsRight(entries, place);
    assert UniqueKeys(rows);
    SortUnique(rows, GroupOrder(w.lower));
    SortKeeps(rows, GroupOrder(w.lower));
    forall g | g in rows ensures ShownRight(g, entries, place) {
      var i :| 0 <= i < |rows| && rows[i] == g;
      SortedRight(filed[i], entries, place);
    }
    forall e | e in entries ensures exists g :: g in Groups(w, saved, entries) && g.key == KeyOf(place(e)) {
      var i := Position(filed, KeyOf(place(e)));
      assert rows[i] in rows && rows[i].key == KeyOf(place(e));
    }
  }

  lemma SortedRight(g: Group, entries: seq<Entry>, place: Entry -> Place)
    requires FiledRight(g, entries, place)
    ensures ShownRight(g.(entries := Sort(g.entries, EntryOrder())), entries, place)
  {
    hide KeyOf, Sort;
  }

  // ---- order -------------------------------------------------------------

  /** A group's rows run newest first, and rows of one time stay in the order they were reported. */
  lemma RowsRunNewestFirst(w: Paths, saved: seq<Saved>, entries: seq<Entry>, g: Group, time: I64)
    requires g in Groups(w, saved, entries)
    ensures forall i, j :: 0 <= i < j < |g.entries| ==> g.entries[i].updatedAt >= g.entries[j].updatedAt
    ensures var own := Filter(entries, WithKey(PlaceIn(w, saved, Folders(w, entries)), g.key));
      Filter(g.entries, (e: Entry) => e.updatedAt == time) == Filter(own, (e: Entry) => e.updatedAt == time)
  {
    hide Groups, PlaceIn, KeyOf, Folders;
    EveryGroupIsRight(w, saved, entries);
    var own := Filter(entries, WithKey(PlaceIn(w, saved, Folders(w, entries)), g.key));
    assert TotalOrder(EntryOrder());
    SortSorts(own, EntryOrder());
    SortIsStable(own, EntryOrder(), (e: Entry) => e.updatedAt == time);
    assert g.entries == Sort(own, EntryOrder());
  }

  lemma {:induction false} LexTotal(a: string, b: string)
    ensures LexLe(a, b) || LexLe(b, a)
    ensures LexLe(a, b) && LexLe(b, a) ==> a == b
  {
    if a != "" && b != "" && a[0] == b[0] {
      LexTotal(a[1..], b[1..]);
      assert a == [a[0]] + a[1..] && b == [b[0]] + b[1..];
    }
  }

  lemma {:induction false} LexTransitive(a: string, b: string, c: string)
    requires LexLe(a, b) && LexLe(b, c)
    ensures LexLe(a, c)
  {
    if a != "" && b != "" && c != "" && a[0] == b[0] == c[0] {
      LexTransitive(a[1..], b[1..], c[1..]);
    }
  }

  lemma GroupLeTotal(lower: string -> string, a: Group, b: Group)
    ensures GroupLe(lower, a, b) || GroupLe(lower, b, a)
  {
    hide LexLe;
    LexTotal(lower(a.name), lower(b.name));
    LexTotal(a.path, b.path);
  }

  lemma GroupLeTransitive(lower: string -> string, a: Group, b: Group, c: Group)
    requires GroupLe(lower, a, b) && GroupLe(lower, b, c)
    ensures GroupLe(lower, a, c)
  {
    hide LexLe;
    var x, y, z := lower(a.name), lower(b.name), lower(c.name);
    LexTotal(x, y);
    LexTotal(y, z);
    LexTotal(x, z);
    if LexLe(x, y) && LexLe(y, z) { LexTransitive(x, y, z); }
    if LexLe(a.path, b.path) && LexLe(b.path, c.path) { LexTransitive(a.path, b.path, c.path); }
  }

  lemma GroupsSorted(w: Paths, saved: seq<Saved>, entries: seq<Entry>)
    ensures Sorted(Groups(w, saved, entries), GroupOrder(w.lower))
  {
    hide GroupLe, Sort;
    var le := GroupOrder(w.lower);
    forall x: Group, y: Group ensures le(x, y) || le(y, x) {
      GroupLeTotal(w.lower, x, y);
    }
    forall x: Group, y: Group, z: Group | le(x, y) && le(y, z) ensures le(x, z) {
      GroupLeTransitive(w.lower, x, y, z);
    }
    SortSorts(RowsSorted(Filed(entries, PlaceIn(w, saved, Folders(w, entries)))), le);
  }

  /** A prefix comes first; else the first character that differs decides. */
  predicate Alphabetical(a: string, b: string) {
    a <= b || exists k :: 0 <= k < |a| && k < |b| && a[..k] == b[..k] && a[k] < b[k]
  }

  lemma {:induction false} LexIsAlphabetical(a: string, b: string)
    requires LexLe(a, b)
    ensures Alphabetical(a, b)
  {
    if a != "" && a[0] == b[0] {
      LexIsAlphabetical(a[1..], b[1..]);
      assert a == [a[0]] + a[1..] && b == [b[0]] + b[1..];
      if !(a[1..] <= b[1..]) {
        var k :| 0 <= k < |a[1..]| && k < |b[1..]| && a[1..][..k] == b[1..][..k] && a[1..][k] < b[1..][k];
        assert a[..k + 1] == [a[0]] + a[1..][..k] && b[..k + 1] == [b[0]] + b[1..][..k];
        assert a[k + 1] < b[k + 1];
      }
    } else if a != "" {
      assert a[..0] == b[..0];
    }
  }

  /** Groups run by newest activity, folderless last, then by name without case, then by path. */
  lemma GroupsRunInOrder(w: Paths, saved: seq<Saved>, entries: seq<Entry>, i: nat, j: nat)
    requires i < j < |Groups(w, saved, entries)|
    ensures var a, b := Groups(w, saved, entries)[i], Groups(w, saved, entries)[j];
      && a.updatedAt >= b.updatedAt
      && (a.updatedAt == b.updatedAt && a.kind == NoFolder ==> b.kind == NoFolder)
      && (a.updatedAt == b.updatedAt && (a.kind == NoFolder <==> b.kind == NoFolder) ==>
            && Alphabetical(w.lower(a.name), w.lower(b.name))
            && (w.lower(a.name) == w.lower(b.name) ==> Alphabetical(a.path, b.path)))
  {
    hide Groups, LexLe, Alphabetical;
    GroupsSorted(w, saved, entries);
    var a, b := Groups(w, saved, entries)[i], Groups(w, saved, entries)[j];
    assert GroupOrder(w.lower)(a, b);
    Reflexive(w.lower(a.name));
    if LexLe(w.lower(a.name), w.lower(b.name)) { LexIsAlphabetical(w.lower(a.name), w.lower(b.name)); }
    if LexLe(a.path, b.path) { LexIsAlphabetical(a.path, b.path); }
  }

  lemma Reflexive(a: string)
    ensures Alphabetical(a, a)
  {
  }

  // ---- search ------------------------------------------------------------

  /** Whether a row answers the search, from its own fields and its group's name and path. */
  type Hit = (Entry, string, string) -> bool

  function Answering(hit: Hit, name: string, path: string): Entry -> bool {
    e => hit(e, name, path)
  }

  function Kept(g: Group, hit: Hit): Group {
    g.(entries := Filter(g.entries, Answering(hit, g.name, g.path)))
  }

  function KeptGroups(groups: seq<Group>, hit: Hit): seq<Group> {
    if groups == [] then []
    else
      var last := |groups| - 1;
      KeptGroups(groups[..last], hit) + if Kept(groups[last], hit).entries == [] then [] else [Kept(groups[last], hit)]
  }

  function SearchWith(groups: seq<Group>, blank: bool, hit: Hit): seq<Group> {
    if blank then groups else KeptGroups(groups, hit)
  }

  predicate Hits(g: Group, hit: Hit) {
    exists e :: e in g.entries && hit(e, g.name, g.path)
  }

  lemma KeptIffHits(g: Group, hit: Hit)
    ensures Kept(g, hit).entries != [] <==> Hits(g, hit)
  {
    FilterMembers(g.entries, Answering(hit, g.name, g.path));
    if Kept(g, hit).entries != [] {
      assert Kept(g, hit).entries[0] in Kept(g, hit).entries;
    }
  }

  /** The places of the groups with a row that answers, in order. */
  function HitPlaces(groups: seq<Group>, hit: Hit): (at: seq<nat>)
    ensures forall i :: 0 <= i < |at| ==> at[i] < |groups|
  {
    if groups == [] then []
    else
      var last := |groups| - 1;
      HitPlaces(groups[..last], hit) + if Hits(groups[last], hit) then [last] else []
  }

  lemma {:induction false} HitPlacesRise(groups: seq<Group>, hit: Hit)
    ensures forall i, j :: 0 <= i < j < |HitPlaces(groups, hit)| ==>
      HitPlaces(groups, hit)[i] < HitPlaces(groups, hit)[j]
  {
    hide Hits;
    if groups != [] { HitPlacesRise(groups[..|groups| - 1], hit); }
  }

  lemma {:induction false} HitPlacesAll(groups: seq<Group>, hit: Hit, k: nat)
    requires k < |groups|
    ensures k in HitPlaces(groups, hit) <==> Hits(groups[k], hit)
  {
    hide Hits;
    var last := |groups| - 1;
    var before := HitPlaces(groups[..last], hit);
    assert forall i :: 0 <= i < |before| ==> before[i] < last;
    if k < last { HitPlacesAll(groups[..last], hit, k); }
  }

  /** A search keeps the groups with a row that answers, in order, showing just those rows, with everything
      else about them, the total included, unchanged. */
  lemma {:induction false} SearchOnlyLeavesOut(groups: seq<Group>, hit: Hit)
    ensures var at, found := HitPlaces(groups, hit), SearchWith(groups, false, hit);
      |found| == |at| && forall i :: 0 <= i < |at| ==>
        var g := groups[at[i]];
        found[i] == Group(g.key, g.name, g.path, g.kind, Filter(g.entries, (e: Entry) => hit(e, g.name, g.path)),
          g.total, g.updatedAt)
    ensures SearchWith(groups, true, hit) == groups
  {
    KeptAreHits(groups, hit);
    var at, found := HitPlaces(groups, hit), KeptGroups(groups, hit);
    forall i | 0 <= i < |at|
      ensures found[i].entries == Filter(groups[at[i]].entries,
        (e: Entry) => hit(e, groups[at[i]].name, groups[at[i]].path))
    {
      var g := groups[at[i]];
      FilterSame(g.entries, Answering(hit, g.name, g.path), (e: Entry) => hit(e, g.name, g.path));
    }
  }

  lemma {:induction false} FilterSame(s: seq<Entry>, p: Entry -> bool, q: Entry -> bool)
    requires forall x :: x in s ==> p(x) == q(x)
    ensures Filter(s, p) == Filter(s, q)
  {
    if s != [] { FilterSame(s[1..], p, q); }
  }

  lemma {:induction false} KeptAreHits(groups: seq<Group>, hit: Hit)
    ensures var at, found := HitPlaces(groups, hit), KeptGroups(groups, hit);
      |found| == |at| && forall i :: 0 <= i < |at| ==> found[i] == Kept(groups[at[i]], hit)
  {
    hide Kept, Hits;
    if groups != [] {
      var last := |groups| - 1;
      KeptAreHits(groups[..last], hit);
      KeptIffHits(groups[last], hit);
    }
  }

  /** Searching what a search found finds it again. */
  lemma SearchTwiceIsSearchOnce(groups: seq<Group>, blank: bool, hit: Hit)
    ensures SearchWith(SearchWith(groups, blank, hit), blank, hit) == SearchWith(groups, blank, hit)
  {
    if !blank { KeptGroupsTwice(groups, hit); }
  }

  lemma {:induction false} KeptGroupsTwice(groups: seq<Group>, hit: Hit)
    ensures KeptGroups(KeptGroups(groups, hit), hit) == KeptGroups(groups, hit)
  {
    hide Kept;
    if groups != [] {
      var last := |groups| - 1;
      var before, k := KeptGroups(groups[..last], hit), Kept(groups[last], hit);
      KeptGroupsTwice(groups[..last], hit);
      KeptTwice(groups[last], hit);
      if k.entries != [] {
        assert (before + [k])[..|before|] == before;
      } else {
        assert before + [] == before;
      }
    }
  }

  lemma KeptTwice(g: Group, hit: Hit)
    ensures Kept(Kept(g, hit), hit) == Kept(g, hit)
  {
    FilterMembers(g.entries, Answering(hit, g.name, g.path));
    FilterAll(Kept(g, hit).entries, Answering(hit, g.name, g.path));
  }

  lemma {:induction false} FilterAll(s: seq<Entry>, p: Entry -> bool)
    requires forall x :: x in s ==> p(x)
    ensures Filter(s, p) == s
  {
    if s != [] { FilterAll(s[1..], p); }
  }
}
