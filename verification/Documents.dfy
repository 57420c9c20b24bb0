/** Versioned documents of a hub (controller.rs). */
module Documents {
  import opened Wrappers

  // The archive, the open set and the finished-turn marks, from replies and change events in any order.

  /** A field of a JSON value, as far as the checks look. */
  datatype Part = Null | Object | Other

  /** A value received as a document; `body` stands for all it says. */
  datatype Value = Value(version: Option<int>, archived: Part, open: Part, ended: Part, unseen: Part, body: string)

  datatype Kind = Archive | Open | Unseen

  predicate IsDocument(kind: Kind, v: Value) {
    v.version.Some? &&
    match kind
    case Archive => v.archived.Object?
    case Open => v.open.Object? && !v.ended.Other?
    case Unseen => v.unseen.Object?
  }

  /** What is held of one document, and whether the next one is taken whatever its version. */
  datatype Copy = Copy(held: Option<Value>, resync: bool)

  function VersionOf(v: Value): int {
    if v.version.Some? then v.version.value else 0
  }

  function Applied(kind: Kind, c: Copy, v: Value): Copy {
    if !IsDocument(kind, v) then c
    else if !c.resync && c.held.Some? && VersionOf(c.held.value) >= VersionOf(v) then c
    else Copy(Some(v), false)
  }

  function ApplyAll(kind: Kind, c: Copy, vs: seq<Value>): Copy
    decreases |vs|
  {
    if vs == [] then c else ApplyAll(kind, Applied(kind, c, vs[0]), vs[1..])
  }

  /** What was held when the connection began, and everything received since, oldest first. */
  datatype Story = Story(before: Copy, received: seq<Value>)

  /** The copy is what came of the story, and the first document of a connection is always taken. */
  ghost predicate Follows(kind: Kind, c: Copy, story: Story) {
    (story.before.resync || story.before.held.None?) && c == ApplyAll(kind, story.before, story.received)
  }

  function More(story: Story, v: Value): Story {
    story.(received := story.received + [v])
  }

  /** The requests whose replies carry a document. */
  predicate Carries(key: string, kind: Kind) {
    match kind
    case Archive => key in {"archive", "archive-set", "session-undo"}
    case Open => key in {"session-open", "session-snooze"}
    case Unseen => key in {"session-unseen", "session-seen"}
  }

  function Topic(kind: Kind): string {
    match kind
    case Archive => "sessionArchive.changed"
    case Open => "sessionOpen.changed"
    case Unseen => "sessionSeen.changed"
  }

  class Desk {
    var archive: Option<Value>
    var open: Option<Value>
    var unseen: Option<Value>
    var archiveResync: bool
    var openResync: bool
    var unseenResync: bool
    ghost var archiveStory: Story
    ghost var openStory: Story
    ghost var unseenStory: Story

    ghost function View(kind: Kind): Copy
      reads this
    {
      match kind
      case Archive => Copy(archive, archiveResync)
      case Open => Copy(open, openResync)
      case Unseen => Copy(unseen, unseenResync)
    }

    ghost function Told(kind: Kind): Story
      reads this
    {
      match kind
      case Archive => archiveStory
      case Open => openStory
      case Unseen => unseenStory
    }

    ghost predicate Valid()
      reads this
    {
      && Follows(Archive, Copy(archive, archiveResync), archiveStory)
      && Follows(Open, Copy(open, openResync), openStory)
      && Follows(Unseen, Copy(unseen, unseenResync), unseenStory)
    }

    constructor ()
      ensures Valid() && forall kind :: View(kind) == Copy(None, false)
    {
      archive, open, unseen, archiveResync, openResync, unseenResync := None, None, None, false, false, false;
      archiveStory, openStory, unseenStory :=
        Story(Copy(None, false), []), Story(Copy(None, false), []), Story(Copy(None, false), []);
    }

    method Connected()
      requires Valid()
      modifies this
      ensures Valid()
      ensures forall kind ::
        View(kind) == old(View(kind)).(resync := true) && Told(kind) == Story(View(kind), [])
    {
      archiveResync, openResync, unseenResync := true, true, true;
      archiveStory, openStory, unseenStory :=
        Story(View(Archive), []), Story(View(Open), []), Story(View(Unseen), []);
    }

    /** A document held is the first of the highest version received in this connection. */
    ghost method Newest(kind: Kind) returns (at: nat)
      requires Valid() && !NoneReceived(kind, Told(kind).received)
      ensures !View(kind).resync && View(kind).held.Some?
      ensures FirstNewest(kind, Told(kind).received, View(kind).held.value, at)
    {
      assert Follows(kind, View(kind), Told(kind));
      at := HeldIsTheNewestOfTheConnection(kind, Told(kind).before, Told(kind).received);
    }

    method ApplyArchive(data: Value)
      requires Valid()
      modifies `archive, `archiveResync, `archiveStory
      ensures View(Archive) == Applied(Archive, old(View(Archive)), data)
      ensures Valid() && archiveStory == More(old(archiveStory), data)
    {
      OneMore(Archive, archiveStory.before, archiveStory.received, data);
      archiveStory := More(archiveStory, data);
      if !IsDocument(Archive, data) {
        return;
      }
      if !archiveResync && archive.Some? && VersionOf(archive.value) >= VersionOf(data) {
        return;
      }
      archiveResync, archive := false, Some(data);
    }

    method ApplyUnseen(data: Value)
      requires Valid()
      modifies `unseen, `unseenResync, `unseenStory
      ensures View(Unseen) == Applied(Unseen, old(View(Unseen)), data)
      ensures Valid() && unseenStory == More(old(unseenStory), data)
    {
      OneMore(Unseen, unseenStory.before, unseenStory.received, data);
      unseenStory := More(unseenStory, data);
      if !IsDocument(Unseen, data) {
        return;
      }
      if !unseenResync && unseen.Some? && VersionOf(unseen.value) >= VersionOf(data) {
        return;
      }
      unseenResync, unseen := false, Some(data);
    }

    method ApplyOpen(data: Value)
      requires Valid()
      modifies `open, `openResync, `openStory
      ensures View(Open) == Applied(Open, old(View(Open)), data)
      ensures Valid() && openStory == More(old(openStory), data)
    {
      OneMore(Open, openStory.before, openStory.received, data);
      openStory := More(openStory, data);
      if !IsDocument(Open, data) {
        return;
      }
      if !openResync && open.Some? && VersionOf(open.value) >= VersionOf(data) {
        return;
      }
      openResync, open := false, Some(data);
    }

    /** A completed request: exactly the replies that carry a document are taken in. */
    method RequestDone(key: string, value: Value)
      requires Valid()
      modifies this
      ensures Valid()
      ensures forall kind ::
        (View(kind) == if Carries(key, kind) then Applied(kind, old(View(kind)), value) else old(View(kind)))
      ensures forall kind :: Told(kind) == if Carries(key, kind) then More(old(Told(kind)), value) else old(Told(kind))
    {
      if key in {"archive", "archive-set"} {
        ApplyArchive(value);
      }
      if key in {"session-open", "session-snooze"} {
        ApplyOpen(value);
      }
      if key in {"session-unseen", "session-seen"} {
        ApplyUnseen(value);
      }
      if key == "session-undo" {
        ApplyArchive(value);
      }
    }

    method Changed(topic: string, data: Value)
      requires Valid()
      modifies this
      ensures Valid()
      ensures forall kind ::
        (View(kind) == if topic == Topic(kind) then Applied(kind, old(View(kind)), data) else old(View(kind)))
      ensures forall kind :: Told(kind) == if topic == Topic(kind) then More(old(Told(kind)), data) else old(Told(kind))
    {
      if topic == "sessionArchive.changed" {
        ApplyArchive(data);
      } else if topic == "sessionOpen.changed" {
        ApplyOpen(data);
      } else if topic == "sessionSeen.changed" {
        ApplyUnseen(data);
      }
    }
  }

  // ---- what is held ------------------------------------------------------

  lemma {:induction false} OneMore(kind: Kind, c: Copy, vs: seq<Value>, v: Value)
    ensures ApplyAll(kind, c, vs + [v]) == Applied(kind, ApplyAll(kind, c, vs), v)
    decreases |vs|
  {
    if vs == [] {
      assert ([v])[1..] == [];
    } else {
      assert (vs + [v])[1..] == vs[1..] + [v];
      OneMore(kind, Applied(kind, c, vs[0]), vs[1..], v);
    }
  }

  predicate Received(kind: Kind, vs: seq<Value>, v: Value) {
    v in vs && IsDocument(kind, v)
  }

  predicate NoneReceived(kind: Kind, vs: seq<Value>) {
    forall v :: v in vs ==> !IsDocument(kind, v)
  }

  /** `v` is of the highest version in `vs`, and the first of those. */
  predicate FirstNewest(kind: Kind, vs: seq<Value>, v: Value, at: nat) {
    && at < |vs| && vs[at] == v && IsDocument(kind, v)
    && forall j :: 0 <= j < |vs| && IsDocument(kind, vs[j]) ==>
      VersionOf(vs[j]) <= VersionOf(v) && (j < at ==> VersionOf(vs[j]) < VersionOf(v))
  }

  /** Without a resync to come, later documents replace only older ones. */
  lemma {:induction false} KeptOrNewer(kind: Kind, held: Value, vs: seq<Value>) returns (at: Option<nat>)
    requires IsDocument(kind, held)
    ensures var last := ApplyAll(kind, Copy(Some(held), false), vs);
      && !last.resync && last.held.Some?
      && (at.None? ==> last.held == Some(held) && forall v :: Received(kind, vs, v) ==> VersionOf(v) <= VersionOf(held))
      && (at.Some? ==> FirstNewest(kind, vs, last.held.value, at.value) && VersionOf(last.held.value) > VersionOf(held))
    decreases |vs|
  {
    at := None;
    if vs != [] {
      var c := Applied(kind, Copy(Some(held), false), vs[0]);
      var later := KeptOrNewer(kind, c.held.value, vs[1..]);
      assert forall v :: v in vs <==> v == vs[0] || v in vs[1..];
      if later.Some? {
        at := Some(later.value + 1);
        assert forall j :: 1 <= j < |vs| ==> vs[j] == vs[1..][j - 1];
      } else if c.held.value != held || !(VersionOf(held) >= VersionOf(vs[0])) {
        if IsDocument(kind, vs[0]) {
          at := Some(0);
          assert forall j :: 1 <= j < |vs| ==> vs[j] == vs[1..][j - 1] && vs[j] in vs[1..];
        }
      }
    }
  }

  /** Within a connection the document held is the newest received since it began: its first document
      wins whatever its version, then only newer ones are taken. */
  lemma {:induction false} HeldIsTheNewestOfTheConnection(kind: Kind, before: Copy, vs: seq<Value>)
    returns (at: nat)
    requires !NoneReceived(kind, vs) && (before.resync || before.held.None?)
    ensures var last := ApplyAll(kind, before, vs);
      !last.resync && last.held.Some? && FirstNewest(kind, vs, last.held.value, at)
    decreases |vs|
  {
    assert vs != [];
    assert forall v :: v in vs <==> v == vs[0] || v in vs[1..];
    assert forall j :: 1 <= j < |vs| ==> vs[j] == vs[1..][j - 1];
    if IsDocument(kind, vs[0]) {
      var later := KeptOrNewer(kind, vs[0], vs[1..]);
      assert forall j :: 1 <= j < |vs| ==> vs[j] in vs[1..];
      at := if later.Some? then later.value + 1 else 0;
    } else {
      var later := HeldIsTheNewestOfTheConnection(kind, before, vs[1..]);
      at := later + 1;
    }
  }

  lemma {:induction false} NothingReceivedNothingChanges(kind: Kind, c: Copy, vs: seq<Value>)
    requires NoneReceived(kind, vs)
    ensures ApplyAll(kind, c, vs) == c
    decreases |vs|
  {
    if vs != [] {
      assert vs[0] in vs && forall v :: v in vs[1..] ==> v in vs;
      NothingReceivedNothingChanges(kind, c, vs[1..]);
    }
  }

  /** Equal versions mean equal documents. */
  ghost predicate Versioned(kind: Kind, vs: seq<Value>) {
    forall v, w :: Received(kind, vs, v) && Received(kind, vs, w) && VersionOf(v) == VersionOf(w) ==> v == w
  }

  /** The same documents in any order and any number of times leave the same one held. */
  lemma OrderAndRepeatsDoNotMatter(kind: Kind, before: Option<Value>, vs: seq<Value>, ws: seq<Value>)
    requires Versioned(kind, vs)
    requires forall v :: Received(kind, vs, v) <==> Received(kind, ws, v)
    ensures ApplyAll(kind, Copy(before, true), vs) == ApplyAll(kind, Copy(before, true), ws)
  {
    hide IsDocument, ApplyAll;
    if NoneReceived(kind, vs) {
      assert NoneReceived(kind, ws) by {
        forall w | w in ws ensures !IsDocument(kind, w) { assert Received(kind, vs, w) <==> Received(kind, ws, w); }
      }
      NothingReceivedNothingChanges(kind, Copy(before, true), vs);
      NothingReceivedNothingChanges(kind, Copy(before, true), ws);
    } else {
      var v :| v in vs && IsDocument(kind, v);
      assert Received(kind, vs, v) && Received(kind, ws, v);
      var i := HeldIsTheNewestOfTheConnection(kind, Copy(before, true), vs);
      var j := HeldIsTheNewestOfTheConnection(kind, Copy(before, true), ws);
      assert Received(kind, vs, vs[i]) && Received(kind, ws, ws[j]);
      assert Received(kind, ws, vs[i]) && Received(kind, vs, ws[j]);
      assert VersionOf(vs[i]) == VersionOf(ws[j]);
    }
  }

  /** The first value of a connection is taken if and only if it has a version and its parts are as the
      document has them: an object, and for the open set no ended part other than an object or nothing. */
  lemma TakenIff(kind: Kind, before: Option<Value>, v: Value)
    ensures ApplyAll(kind, Copy(before, true), [v]) == Copy(Some(v), false) <==>
      v.version.Some? && match kind
                         case Archive => v.archived == Object
                         case Open => v.open == Object && (v.ended == Object || v.ended == Null)
                         case Unseen => v.unseen == Object
  {
    assert [v][1..] == [];
  }
}
