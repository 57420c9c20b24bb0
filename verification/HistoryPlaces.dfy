/** Where a history row belongs. */
module HistoryPlaces {
  import opened History
  import opened HistoryProof
  import opened Sorting
  import opened Wrappers

  // The filing rule said by what it prefers, not by how it looks.

  /** A saved project claims a directory: it is that directory, or it is or holds the folder the directory
      counts for, its repository for a worktree of one, or it bears the repository's name. A folder only
      sessions know claims nothing inside it. */
  predicate Claims(w: Paths, s: Saved, dir: string) {
    w.sameDir(s.path, dir) ||
    match w.worktree(dir)
    case None => w.sameDir(s.path, w.key(dir)) || (!s.fromSessions && w.inside(s.path, w.key(dir)))
    case Some(Dir(repo)) => w.sameDir(s.path, repo) || (!s.fromSessions && w.inside(s.path, repo))
    case Some(Named(name, _)) => w.basename(s.path) == name
  }

  predicate ByName(w: Paths, dir: string) {
    w.worktree(dir).Some? && w.worktree(dir).value.Named?
  }

  /** Of the projects that claim a directory: the first that is it; else, by name, the first; else the most
      specific, the last of several. */
  predicate Foremost(w: Paths, saved: seq<Saved>, dir: string, i: nat)
    requires i < |saved|
  {
    Claims(w, saved[i], dir) &&
    if w.sameDir(saved[i].path, dir) then forall j :: 0 <= j < i ==> !w.sameDir(saved[j].path, dir)
    else
      (forall j :: 0 <= j < |saved| ==> !w.sameDir(saved[j].path, dir)) &&
      if ByName(w, dir) then forall j :: 0 <= j < i ==> !Claims(w, saved[j], dir)
      else forall j :: 0 <= j < |saved| && Claims(w, saved[j], dir) ==>
        |w.key(saved[j].path)| <= |w.key(saved[i].path)| &&
        (i < j ==> |w.key(saved[j].path)| < |w.key(saved[i].path)|)
  }

  /** What no project claims: a worktree of a repository known by name goes to the first folder of that
      name, or else with the repository's other worktrees; anything else to its own folder. */
  predicate ByItself(w: Paths, folders: seq<string>, dir: string, p: Place) {
    match w.worktree(dir)
    case None => p == Place(w.key(dir), w.basename(w.key(dir)), Folder)
    case Some(Dir(repo)) => p == Place(repo, w.basename(repo), Folder)
    case Some(Named(name, checkout)) =>
      if exists f :: f in folders && w.basename(f) == name then
        p.name == name && p.kind == Folder && w.basename(p.path) == name &&
        exists i :: (0 <= i < |folders| && folders[i] == p.path &&
                     forall j :: 0 <= j < i ==> w.basename(folders[j]) != name)
      else p == Place(checkout, name, Worktrees)
  }

  predicate Belongs(w: Paths, saved: seq<Saved>, folders: seq<string>, dir: string, p: Place) {
    if w.blank(dir) then p == Place("", "No folder", NoFolder)
    else if exists s :: s in saved && Claims(w, s, dir) then
      p.kind == Project &&
      exists i :: 0 <= i < |saved| && Foremost(w, saved, dir, i) && p.path == saved[i].path && p.name == saved[i].title
    else ByItself(w, folders, dir, p)
  }

  lemma {:induction false} FirstIsFirst<T>(s: seq<T>, ok: T -> bool) returns (i: nat)
    requires First(s, ok).Some?
    ensures i < |s| && s[i] == First(s, ok).value && ok(s[i]) && forall j :: 0 <= j < i ==> !ok(s[j])
  {
    if ok(s[0]) {
      i := 0;
    } else {
      i := FirstIsFirst(s[1..], ok);
      i := i + 1;
    }
  }

  /** Every directory is filed where it belongs. */
  lemma PlaceIsRight(w: Paths, saved: seq<Saved>, folders: seq<string>, dir: string)
    ensures Belongs(w, saved, folders, dir, PlaceOf(w, saved, folders, dir))
  {
    if !w.blank(dir) {
      var same := (s: Saved) => w.sameDir(s.path, dir);
      var own := First(saved, same);
      if own.Some? {
        var i := FirstIsFirst(saved, same);
        assert Foremost(w, saved, dir, i) && Claims(w, saved[i], dir);
      } else {
        match w.worktree(dir)
        case None => InFolderIsRight(w, saved, folders, dir, w.key(dir));
        case Some(Dir(repo)) => InFolderIsRight(w, saved, folders, dir, repo);
        case Some(Named(name, _)) => NamedIsRight(w, saved, folders, dir, name);
      }
    }
  }

  lemma InFolderIsRight(w: Paths, saved: seq<Saved>, folders: seq<string>, dir: string, folder: string)
    requires !w.blank(dir) && forall s :: s in saved ==> !w.sameDir(s.path, dir)
    requires (w.worktree(dir) == None && folder == w.key(dir)) || w.worktree(dir) == Some(Dir(folder))
    ensures Belongs(w, saved, folders, dir, InFolder(w, saved, folder))
  {
    assert forall s :: s in saved ==> (Claims(w, s, dir) <==> Holds(w, s, folder));
    if Holder(w, saved, folder).Some? {
      var i := HolderIsTheLast(w, saved, folder);
      assert Foremost(w, saved, dir, i);
    }
  }

  lemma NamedIsRight(w: Paths, saved: seq<Saved>, folders: seq<string>, dir: string, name: string)
    requires !w.blank(dir) && forall s :: s in saved ==> !w.sameDir(s.path, dir)
    requires ByName(w, dir) && w.worktree(dir).value.name == name
    ensures Belongs(w, saved, folders, dir, PlaceOf(w, saved, folders, dir))
  {
    var called, ours := (s: Saved) => w.basename(s.path) == name, (f: string) => w.basename(f) == name;
    if First(saved, called).Some? {
      var i := FirstIsFirst(saved, called);
      assert Foremost(w, saved, dir, i);
    } else if First(folders, ours).Some? {
      var i := FirstIsFirst(folders, ours);
      assert folders[i] in folders;
    }
  }

  /** So every row is in a group of the kind and path where what it ran in belongs: the home of its lineage
      when the fleet knows one, else its own folder. */
  lemma RowsAreWhereTheyBelong(w: Paths, saved: seq<Saved>, entries: seq<Entry>, g: Group, e: Entry, dir: string)
    returns (name: string)
    requires g in Groups(w, saved, entries) && e in g.entries
    requires e.home == Some(dir) || (e.home == None && e.cwd == dir)
    ensures Belongs(w, saved, Folders(w, entries), dir, Place(g.path, name, g.kind))
  {
    hide Belongs, Groups, PlaceOf, Sort, Folders;
    var folders := Folders(w, entries);
    var place := PlaceIn(w, saved, folders);
    EveryGroupIsRight(w, saved, entries);
    var own := Filter(entries, WithKey(place, g.key));
    SortKeeps(own, EntryOrder());
    FilterMembers(entries, WithKey(place, g.key));
    assert own[0] in own;
    var p := PlaceOf(w, saved, folders, dir);
    assert p == place(e) && KeyOf(p) == g.key == KeyOf(place(own[0]));
    KeysTellPlacesApart(p, place(own[0]));
    PlaceIsRight(w, saved, folders, dir);
    name := p.name;
  }
}
