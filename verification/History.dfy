/** Session history filed by project (history.rs): each row in one group, groups and rows newest first. */
module History {
  import opened Sorting
  import opened Wrappers

  const I64_MIN := -0x8000_0000_0000_0000

  type I64 = x: int | I64_MIN <= x < 0x8000_0000_0000_0000

  datatype Entry = Entry(id: string, title: string, cwd: string, home: Option<string>, updatedAt: I64)

  datatype GroupKind = Project | Folder | Worktrees | NoFolder

  /** Where a folder files: the group's path, name and kind. */
  datatype Place = Place(path: string, name: string, kind: GroupKind)

  datatype Group = Group(
    key: string, name: string, path: string, kind: GroupKind, entries: seq<Entry>, total: nat, updatedAt: I64)

  // ---- where a folder files ----------------------------------------------

  datatype Saved = Saved(path: string, title: string, fromSessions: bool)

  datatype Repo = Dir(repo: string) | Named(name: string, dir: string)

  /** The path helpers of projects.rs, which is not part of this model. */
  datatype Paths = Paths(
    blank: string -> bool, key: string -> string, sameDir: (string, string) -> bool, basename: string -> string,
    worktree: string -> Option<Repo>, inside: (string, string) -> bool, lower: string -> string)

  function DirOf(e: Entry): string {
    if e.home.Some? then e.home.value else e.cwd
  }

  /** The first saved project, or folder, that `ok` accepts. */
  function First<T>(s: seq<T>, ok: T -> bool): (r: Option<T>)
    ensures r.Some? ==> r.value in s && ok(r.value)
    ensures r.None? ==> forall x :: x in s ==> !ok(x)
  {
    if s == [] then None else if ok(s[0]) then Some(s[0]) else First(s[1..], ok)
  }

  predicate Holds(w: Paths, p: Saved, dir: string) {
    w.sameDir(p.path, dir) || (!p.fromSessions && w.inside(p.path, dir))
  }

  /** The holder with the longest key, the last of several. */
  function Holder(w: Paths, saved: seq<Saved>, dir: string): (r: Option<Saved>)
    ensures r.Some? ==> r.value in saved && Holds(w, r.value, dir)
    ensures r.Some? ==> forall p :: p in saved && Holds(w, p, dir) ==> |w.key(p.path)| <= |w.key(r.value.path)|
    ensures r.None? ==> forall p :: p in saved ==> !Holds(w, p, dir)
  {
    if saved == [] then None
    else
      var last, rest := saved[|saved| - 1], saved[..|saved| - 1];
      var best := Holder(w, rest, dir);
      assert saved == rest + [last];
      if Holds(w, last, dir) && (best.None? || |w.key(best.value.path)| <= |w.key(last.path)|) then Some(last)
      else best
  }

  /** Of several holders as specific, the last one listed: every later one is less specific. */
  lemma {:induction false} HolderIsTheLast(w: Paths, saved: seq<Saved>, dir: string) returns (i: nat)
    requires Holder(w, saved, dir).Some?
    ensures i < |saved| && saved[i] == Holder(w, saved, dir).value
    ensures forall j :: i < j < |saved| && Holds(w, saved[j], dir) ==> |w.key(saved[j].path)| < |w.key(saved[i].path)|
    decreases |saved|
  {
    i := |saved| - 1;
    var rest := saved[..i];
    var best := Holder(w, rest, dir);
    if !Holds(w, saved[i], dir) || (best.Some? && |w.key(best.value.path)| > |w.key(saved[i].path)|) {
      i := HolderIsTheLast(w, rest, dir);
    }
  }

  function ProjectPlace(p: Saved): Place {
    Place(p.path, p.title, Project)
  }

  function InFolder(w: Paths, saved: seq<Saved>, dir: string): Place {
    var holder := Holder(w, saved, dir);
    if holder.Some? then ProjectPlace(holder.value) else Place(dir, w.basename(dir), Folder)
  }

  function PlaceOf(w: Paths, saved: seq<Saved>, folders: seq<string>, dir: string): Place {
    if w.blank(dir) then Place("", "No folder", NoFolder)
    else
      var own := First(saved, (p: Saved) => w.sameDir(p.path, dir));
      if own.Some? then ProjectPlace(own.value)
      else match w.worktree(dir)
        case None => InFolder(w, saved, w.key(dir))
        case Some(Dir(repo)) => InFolder(w, saved, repo)
        case Some(Named(name, checkout)) =>
          var p := First(saved, (p: Saved) => w.basename(p.path) == name);
          if p.Some? then ProjectPlace(p.value)
          else
            var f := First(folders, (f: string) => w.basename(f) == name);
            if f.Some? then Place(f.value, name, Folder) else Place(checkout, name, Worktrees)
  }

  predicate NewFolder(w: Paths, folders: seq<string>, dir: string) {
    !w.blank(dir) && w.worktree(dir).None? && forall f :: f in folders ==> !w.sameDir(f, dir)
  }

  /** The folders sessions ran in directly, in order of first use. */
  function Folders(w: Paths, entries: seq<Entry>): seq<string> {
    if entries == [] then []
    else
      var before, dir := Folders(w, entries[..|entries| - 1]), DirOf(entries[|entries| - 1]);
      if NewFolder(w, before, dir) then before + [w.key(dir)] else before
  }

  predicate Direct(w: Paths, dir: string) {
    !w.blank(dir) && w.worktree(dir).None?
  }

  /** Each folder comes of an entry run in it directly, under its key, and is no folder listed before
      it; and every such entry's directory is listed, under its own key or as the same directory. */
  lemma {:induction false} FoldersOnce(w: Paths, entries: seq<Entry>) returns (dirs: seq<string>)
    ensures |dirs| == |Folders(w, entries)|
    ensures forall j :: 0 <= j < |dirs| ==> Direct(w, dirs[j]) && Folders(w, entries)[j] == w.key(dirs[j])
    ensures forall d :: d in dirs ==> exists e :: e in entries && DirOf(e) == d
    ensures forall i, j :: 0 <= i < j < |dirs| ==> !w.sameDir(Folders(w, entries)[i], dirs[j])
    ensures forall e :: e in entries && Direct(w, DirOf(e)) ==> Listed(w, Folders(w, entries), DirOf(e))
    decreases |entries|
  {
    if entries == [] {
      dirs := [];
    } else {
      var front, last := entries[..|entries| - 1], entries[|entries| - 1];
      var before, dir := Folders(w, front), DirOf(last);
      dirs := FoldersOnce(w, front);
      assert entries == front + [last];
      forall d | d in dirs ensures exists e :: e in entries && DirOf(e) == d {
        var e :| e in front && DirOf(e) == d;
        assert e in entries;
      }
      if NewFolder(w, before, dir) { dirs := dirs + [dir]; }
      forall e | e in entries && Direct(w, DirOf(e)) ensures Listed(w, Folders(w, entries), DirOf(e)) {
        if e in front {
          var f :| f in before && (w.sameDir(f, DirOf(e)) || f == w.key(DirOf(e)));
          assert f in Folders(w, entries);
        } else if NewFolder(w, before, dir) {
          assert w.key(dir) in Folders(w, entries);
        }
      }
    }
  }

  predicate Listed(w: Paths, folders: seq<string>, dir: string) {
    exists f :: f in folders && (w.sameDir(f, dir) || f == w.key(dir))
  }

  /** So when a key names its own directory, no folder is listed twice. */
  lemma FoldersAreDistinct(w: Paths, entries: seq<Entry>)
    requires forall d :: w.sameDir(w.key(d), d)
    ensures forall i, j :: 0 <= i < j < |Folders(w, entries)| ==> Folders(w, entries)[i] != Folders(w, entries)[j]
  {
    var dirs := FoldersOnce(w, entries);
  }

  // ---- grouping ----------------------------------------------------------

  function KindText(kind: GroupKind): string {
    match kind
    case Project => "Project"
    case Folder => "Folder"
    case Worktrees => "Worktrees"
    case NoFolder => "NoFolder"
  }

  function KeyOf(p: Place): string {
    KindText(p.kind) + ":" + p.path
  }

  /** A key names one kind and one path. */
  lemma KeysTellPlacesApart(p: Place, q: Place)
    requires KeyOf(p) == KeyOf(q)
    ensures p.kind == q.kind && p.path == q.path
  {
    assert KeyOf(p)[0] == KindText(p.kind)[0] && KeyOf(q)[0] == KindText(q.kind)[0];
    var n := |KindText(p.kind)| + 1;
    assert KeyOf(p)[n..] == p.path && KeyOf(q)[n..] == q.path;
  }

  function Position(groups: seq<Group>, key: string): (i: nat)
    ensures i <= |groups| && (i < |groups| ==> groups[i].key == key)
    ensures forall j :: 0 <= j < i ==> groups[j].key != key
  {
    if groups == [] || groups[0].key == key then 0 else 1 + Position(groups[1..], key)
  }

  function Max(a: I64, b: I64): I64 {
    if a < b then b else a
  }

  function Added(g: Group, e: Entry): Group {
    g.(entries := g.entries + [e], total := g.total + 1, updatedAt := Max(g.updatedAt, e.updatedAt))
  }

  function File(groups: seq<Group>, e: Entry, p: Place): seq<Group> {
    var ix := Position(groups, KeyOf(p));
    if ix < |groups| then groups[ix := Added(groups[ix], e)]
    else groups + [Added(Group(KeyOf(p), p.name, p.path, p.kind, [], 0, I64_MIN), e)]
  }

  function Filed(entries: seq<Entry>, place: Entry -> Place): seq<Group> {
    if entries == [] then []
    else
      var last := entries[|entries| - 1];
      File(Filed(entries[..|entries| - 1], place), last, place(last))
  }

  predicate NewestFirst(a: Entry, b: Entry) {
    a.updatedAt >= b.updatedAt
  }

  function LexLe(a: string, b: string): bool {
    a == "" || (b != "" && (a[0] < b[0] || (a[0] == b[0] && LexLe(a[1..], b[1..]))))
  }

  /** Newest activity first, folderless last among equals, then by name without case, then by path. */
  predicate GroupLe(lower: string -> string, a: Group, b: Group) {
    if a.updatedAt != b.updatedAt then a.updatedAt > b.updatedAt
    else if (a.kind == NoFolder) != (b.kind == NoFolder) then b.kind == NoFolder
    else if lower(a.name) != lower(b.name) then LexLe(lower(a.name), lower(b.name))
    else LexLe(a.path, b.path)
  }

  function EntryOrder(): (Entry, Entry) -> bool {
    (a, b) => NewestFirst(a, b)
  }

  function GroupOrder(lower: string -> string): (Group, Group) -> bool {
    (a, b) => GroupLe(lower, a, b)
  }

  function RowsSorted(groups: seq<Group>): (r: seq<Group>)
    ensures |r| == |groups|
    ensures forall i :: 0 <= i < |r| ==> r[i] == groups[i].(entries := Sort(groups[i].entries, EntryOrder()))
  {
    if groups == [] then []
    else [groups[0].(entries := Sort(groups[0].entries, EntryOrder()))] + RowsSorted(groups[1..])
  }

  function PlaceIn(w: Paths, saved: seq<Saved>, folders: seq<string>): Entry -> Place {
    e => PlaceOf(w, saved, folders, DirOf(e))
  }

  function Groups(w: Paths, saved: seq<Saved>, entries: seq<Entry>): seq<Group> {
    Sort(RowsSorted(Filed(entries, PlaceIn(w, saved, Folders(w, entries)))), GroupOrder(w.lower))
  }

  method FoldersOf(w: Paths, entries: seq<Entry>) returns (folders: seq<string>)
    ensures folders == Folders(w, entries)
  {
    folders := [];
    for i := 0 to |entries|
      invariant folders == Folders(w, entries[..i])
    {
      assert entries[..i + 1][..i] == entries[..i];
      var dir := DirOf(entries[i]);
      if !w.blank(dir) && w.worktree(dir).None? && forall f :: f in folders ==> !w.sameDir(f, dir) {
        folders := folders + [w.key(dir)];
      }
    }
    assert entries[..|entries|] == entries;
  }

  method GroupEntries(w: Paths, saved: seq<Saved>, entries: seq<Entry>) returns (groups: seq<Group>)
    ensures groups == Groups(w, saved, entries)
  {
    hide PlaceOf, Sort, Folders, GroupLe, KeyOf;
    var folders := FoldersOf(w, entries);
    var place := PlaceIn(w, saved, folders);
    groups := [];
    for i := 0 to |entries|
      invariant groups == Filed(entries[..i], place)
    {
      assert entries[..i + 1][..i] == entries[..i];
      var entry := entries[i];
      var p := place(entry);
      var key := KeyOf(p);
      var ix := Position(groups, key);
      if ix == |groups| {
        groups := groups + [Group(key, p.name, p.path, p.kind, [], 0, I64_MIN)];
      }
      groups := groups[ix := Added(groups[ix], entry)];
    }
    assert entries[..|entries|] == entries;
    ghost var filed := groups;
    for i := 0 to |groups|
      invariant |groups| == |filed|
      invariant forall j :: 0 <= j < |groups| ==>
        groups[j] == if j < i then RowsSorted(filed)[j] else filed[j]
    {
      groups := groups[i := groups[i].(entries := Sort(groups[i].entries, EntryOrder()))];
    }
    assert groups == RowsSorted(filed);
    groups := Sort(groups, GroupOrder(w.lower));
  }
}
