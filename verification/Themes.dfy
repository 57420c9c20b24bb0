/** Custom themes over a base palette (appearance.rs). */
module Themes {
  import opened Numerals
  import opened Palettes
  import opened Wrappers

  datatype Corners = Crisp | Soft | Round

  /** A theme; its base stands for that appearance's palette. */
  datatype Theme = Theme(id: string, name: string, base: Palette, colors: map<string, string>, corners: Corners)

  // ---- what a theme shows ------------------------------------------------

  /** The colour stored under `key`, if it can be read. */
  function Stored(colors: map<string, string>, key: string): Option<nat> {
    if key in colors then ParseHex(colors[key], key == "selection") else None
  }

  /** The colour shown in a slot: the one stored for it, else the base's. */
  function ShownColor(theme: Theme, t: Token): nat {
    var c := Stored(theme.colors, NameOf(t));
    if c.Some? then c.value else Get(theme.base, t)
  }

  function InRange(t: Token, c: nat): bool {
    c < if t == Selection then U32 else RGB
  }

  /** The stored colours after one is set; the base's own value restores the base. */
  function ColorsSet(theme: Theme, key: string, color: Option<nat>): map<string, string> {
    var t := TokenOf(key);
    if color.Some? && (t.Some? ==> color.value != Get(theme.base, t.value)) then
      (if t.Some? then theme.colors[key := Hex(color.value, t.value)] else theme.colors)
    else theme.colors - {key}
  }

  class CustomTheme {
    const id: string
    const name: string
    const base: Palette
    var colors: map<string, string>
    var corners: Corners

    ghost function View(): Theme
      reads this
    {
      Theme(id, name, base, colors, corners)
    }

    constructor (id: string, name: string, base: Palette)
      ensures View() == Theme(id, name, base, map[], Soft)
    {
      this.id, this.name, this.base, colors, corners := id, name, base, map[], Soft;
    }

    /** The base with each readable stored colour put in its slot, in any order. */
    method ShownPalette() returns (p: Palette)
      ensures forall t :: Get(p, t) == ShownColor(View(), t)
    {
      hide Get, Put, TokenOf, NameOf;
      p := base;
      var left := colors.Keys;
      while left != {}
        invariant left <= colors.Keys
        invariant forall t :: Get(p, t) == (if NameOf(t) in left then Get(base, t) else ShownColor(View(), t))
        decreases |left|
      {
        var key :| key in left;
        var color, slot := ParseHex(colors[key], key == "selection"), TokenOf(key);
        ghost var before := p;
        if color.Some? && slot.Some? {
          p := Put(p, slot.value, color.value);
          forall t ensures Get(p, t) == if t == slot.value then color.value else Get(before, t) {
            GetPut(before, slot.value, color.value, t);
          }
          forall t | NameOf(t) == key ensures t == slot.value { NamesDiffer(t, slot.value); }
        }
        if slot.None? {
          forall t ensures NameOf(t) != key { EverySlotHasItsKey(t); }
        }
        left := left - {key};
      }
    }

    method SetColor(key: string, color: Option<nat>)
      modifies `colors
      ensures colors == ColorsSet(old(View()), key, color)
    {
      hide Get, Put, TokenOf, NameOf;
      var slot := TokenOf(key);
      var was := if slot.Some? then Some(Get(base, slot.value)) else None;
      if color.Some? && color != was {
        if slot.Some? {
          GetPut(base, slot.value, color.value, slot.value);
          var palette := Put(base, slot.value, color.value);
          colors := colors[key := Hex(Get(palette, slot.value), slot.value)];
        }
      } else {
        colors := colors - {key};
      }
    }
  }

  // ---- setting a colour --------------------------------------------------

  /** A colour set is shown exactly when it is within the slot's digits; the base's own is always shown. */
  lemma SetColorIsShown(theme: Theme, t: Token, color: nat)
    ensures var after := theme.(colors := ColorsSet(theme, NameOf(t), Some(color)));
      ShownColor(after, t) == color <==> InRange(t, color) || color == Get(theme.base, t)
  {
    hide TokenOf, NameOf, Get, Hex, ParseHex;
    EverySlotHasItsKey(t);
    SelectionKey(NameOf(t));
    ParseUndoesHex(color, t);
    HexOutOfRange(color, t);
  }

  lemma HexOutOfRange(color: nat, t: Token)
    ensures InRange(t, color) <==> ParseHex(Hex(color, t), t == Selection) == Some(color)
    ensures !InRange(t, color) ==> ParseHex(Hex(color, t), t == Selection) == None
  {
    ParseUndoesHex(color, t);
    if t == Selection && color >= U32 {
      WideHex(color);
    }
  }

  lemma WideHex(color: nat)
    requires color >= U32
    ensures ParseHex(Hex(color, Selection), true) == None
  {
    hide TrimStart, TrimEnd, TrimHash, FromHex;
    var s := Padded(color, 8);
    NothingToTrim(s);
    PaddedFits(color, 8);
    Rooms();
  }

  lemma SetColorLeavesTheOthers(theme: Theme, key: string, color: Option<nat>, u: Token)
    requires NameOf(u) != key
    ensures ShownColor(theme.(colors := ColorsSet(theme, key, color)), u) == ShownColor(theme, u)
  {
    hide TokenOf, NameOf, Get, Hex, ParseHex;
  }

  lemma RestoreShowsTheBase(theme: Theme, t: Token)
    ensures ShownColor(theme.(colors := ColorsSet(theme, NameOf(t), None)), t) == Get(theme.base, t)
  {
    hide NameOf, Get, ParseHex;
  }

  // ---- only changes are stored -------------------------------------------

  /** Every stored colour is a slot's, written in full, and not the base's. */
  predicate OnlyChanges(theme: Theme) {
    forall key {:trigger theme.colors[key]} :: key in theme.colors ==>
      TokenOf(key).Some? && Stored(theme.colors, key).Some?
      && theme.colors[key] == Hex(Stored(theme.colors, key).value, TokenOf(key).value)
      && Stored(theme.colors, key).value != Get(theme.base, TokenOf(key).value)
  }

  /** Setting a colour keeps it so exactly when the colour fits its slot's digits or is the base's own. */
  lemma SetColorStoresOnlyChanges(theme: Theme, key: string, color: Option<nat>)
    requires OnlyChanges(theme)
    ensures OnlyChanges(theme.(colors := ColorsSet(theme, key, color))) <==>
      (color.Some? && TokenOf(key).Some? ==>
         InRange(TokenOf(key).value, color.value) || color.value == Get(theme.base, TokenOf(key).value))
  {
    hide TokenOf, NameOf, Get, Hex, ParseHex;
    var t := theme.(colors := ColorsSet(theme, key, color));
    if color.Some? && TokenOf(key).Some? {
      SelectionKey(key);
      HexOutOfRange(color.value, TokenOf(key).value);
      if color.value != Get(theme.base, TokenOf(key).value) {
        assert key in t.colors && t.colors[key] == Hex(color.value, TokenOf(key).value);
      }
    }
    if color.Some? && TokenOf(key).Some? ==>
      InRange(TokenOf(key).value, color.value) || color.value == Get(theme.base, TokenOf(key).value)
    {
      forall k | k in t.colors
        ensures TokenOf(k).Some? && Stored(t.colors, k).Some?
          && t.colors[k] == Hex(Stored(t.colors, k).value, TokenOf(k).value)
          && Stored(t.colors, k).value != Get(t.base, TokenOf(k).value)
      {
        if k != key { assert k in theme.colors && Stored(t.colors, k) == Stored(theme.colors, k); }
      }
    }
  }

  /** On one base, the same colours shown means the same colours stored. */
  lemma SamePaletteSameColors(a: Theme, b: Theme)
    requires OnlyChanges(a) && OnlyChanges(b) && a.base == b.base
    requires forall t :: ShownColor(a, t) == ShownColor(b, t)
    ensures a.colors == b.colors
  {
    hide TokenOf, NameOf, Get, Hex, ParseHex;
    forall key | key in a.colors ensures key in b.colors && a.colors[key] == b.colors[key] {
      OneStored(a, b, key);
    }
    forall key | key in b.colors ensures key in a.colors {
      OneStored(b, a, key);
    }
  }

  lemma OneStored(a: Theme, b: Theme, key: string)
    requires OnlyChanges(a) && OnlyChanges(b) && a.base == b.base && key in a.colors
    requires forall t :: ShownColor(a, t) == ShownColor(b, t)
    ensures key in b.colors && a.colors[key] == b.colors[key]
  {
    hide TokenOf, NameOf, Get, Hex, ParseHex;
    var t := TokenOf(key).value;
    assert NameOf(t) == key;
    assert ShownColor(a, t) == ShownColor(b, t);
  }

  // ---- the themes of a device --------------------------------------------

  function DefaultName(n: nat): string
    requires n >= 1
  {
    if n == 1 then "My theme" else "My theme " + Digits(n)
  }

  function DefaultId(n: nat): string {
    "custom-" + Digits(n)
  }

  lemma DefaultNamesDiffer(m: nat, n: nat)
    requires 1 <= m && 1 <= n && m != n
    ensures DefaultName(m) != DefaultName(n)
  {
    DigitsDiffer(m, n);
    DigitsRead(m);
    DigitsRead(n);
    var p := "My theme ";
    assert (p + Digits(m))[|p|..] == Digits(m) && (p + Digits(n))[|p|..] == Digits(n);
  }

  lemma DefaultIdsDiffer(m: nat, n: nat)
    requires m != n
    ensures DefaultId(m) != DefaultId(n)
  {
    DigitsDiffer(m, n);
    var p := "custom-";
    assert (p + Digits(m))[|p|..] == Digits(m) && (p + Digits(n))[|p|..] == Digits(n);
  }

  predicate NameTaken(themes: seq<Theme>, name: string) {
    exists t :: t in themes && t.name == name
  }

  predicate IdTaken(themes: seq<Theme>, id: string) {
    exists t :: t in themes && t.id == id
  }

  /** More different labels than themes: one of them is free. */
  lemma {:induction false} Pigeonhole(labels: set<string>, themes: seq<Theme>, ids: bool)
    requires forall l :: l in labels ==> if ids then IdTaken(themes, l) else NameTaken(themes, l)
    ensures |labels| <= |themes|
    decreases |themes|
  {
    if themes == [] {
      assert forall l :: l !in labels;
      assert labels == {};
    } else {
      var first := if ids then themes[0].id else themes[0].name;
      forall l | l in labels - {first} ensures if ids then IdTaken(themes[1..], l) else NameTaken(themes[1..], l) {
        var t :| t in themes && (if ids then t.id else t.name) == l;
        assert t in themes[1..];
      }
      Pigeonhole(labels - {first}, themes[1..], ids);
      if first in labels { assert labels == (labels - {first}) + {first}; } else { assert labels - {first} == labels; }
    }
  }

  predicate UniqueIds(themes: seq<Theme>) {
    forall i, j :: 0 <= i < j < |themes| ==> themes[i].id != themes[j].id
  }

  /** The theme in use is one of the themes. */
  predicate ActiveKnown(active: Option<string>, themes: seq<Theme>) {
    active.Some? ==> IdTaken(themes, active.value)
  }

  /** The first theme with the id. */
  function Position(themes: seq<Theme>, id: string): (i: nat)
    ensures i <= |themes| && (i < |themes| ==> themes[i].id == id) && forall j :: 0 <= j < i ==> themes[j].id != id
  {
    if themes == [] || themes[0].id == id then 0 else 1 + Position(themes[1..], id)
  }

  lemma Removed(was: seq<Theme>, at: nat)
    requires at < |was|
    ensures var left := was[..at] + was[at + 1..];
      && (forall t :: t in was && t.id != was[at].id ==> t in left)
      && (UniqueIds(was) ==> UniqueIds(left) && !IdTaken(left, was[at].id))
  {
    var left := was[..at] + was[at + 1..];
    forall t | t in was && t.id != was[at].id ensures t in left {
      var k :| 0 <= k < |was| && was[k] == t;
      assert t == if k < at then left[k] else left[k - 1];
    }
  }

  class CustomThemes {
    var active: Option<string>
    var themes: seq<Theme>

    constructor ()
      ensures active == None && themes == []
    {
      active, themes := None, [];
    }

    method FreshName() returns (name: string)
      ensures !NameTaken(themes, name)
      ensures name == "My theme" || exists n: nat :: 2 <= n <= |themes| + 1 && name == DefaultName(n)
    {
      var n := 1;
      ghost var taken: set<string> := {};
      while NameTaken(themes, DefaultName(n))
        invariant 1 <= n && |taken| == n - 1 && n <= |themes| + 1
        invariant forall l :: l in taken ==> NameTaken(themes, l)
        invariant forall l :: l in taken ==> exists m: nat :: 1 <= m < n && l == DefaultName(m)
        decreases |themes| + 1 - n
      {
        if DefaultName(n) in taken {
          var m: nat :| 1 <= m < n && DefaultName(n) == DefaultName(m);
          DefaultNamesDiffer(m, n);
        }
        taken := taken + {DefaultName(n)};
        Pigeonhole(taken, themes, false);
        n := n + 1;
      }
      name := DefaultName(n);
    }

    method FreshId() returns (id: string)
      ensures !IdTaken(themes, id)
    {
      var n := |themes| + 1;
      ghost var taken: set<string> := {};
      while IdTaken(themes, DefaultId(n))
        invariant |themes| + 1 <= n && |taken| == n - |themes| - 1 && |taken| <= |themes|
        invariant forall l :: l in taken ==> IdTaken(themes, l)
        invariant forall l :: l in taken ==> exists m: nat :: m < n && l == DefaultId(m)
        decreases 2 * |themes| + 1 - n
      {
        if DefaultId(n) in taken {
          var m: nat :| m < n && DefaultId(n) == DefaultId(m);
          DefaultIdsDiffer(m, n);
        }
        taken := taken + {DefaultId(n)};
        Pigeonhole(taken, themes, true);
        n := n + 1;
      }
      id := DefaultId(n);
    }

    /** A fork of the theme in use, or a new theme on `base`, under a name and an id of its own. */
    method Create(base: Palette) returns (theme: Theme)
      modifies this
      ensures themes == old(themes) + [theme] && active == Some(theme.id)
      ensures !NameTaken(old(themes), theme.name) && !IdTaken(old(themes), theme.id)
      ensures old(UniqueIds(themes)) ==> UniqueIds(themes)
      ensures ActiveKnown(active, themes)
      ensures old(active.Some? && IdTaken(themes, active.value)) ==>
        var from := old(themes[Position(themes, active.value)]);
        theme.base == from.base && theme.colors == from.colors && theme.corners == from.corners
      ensures !old(active.Some? && IdTaken(themes, active.value)) ==>
        theme.base == base && theme.colors == map[] && theme.corners == Soft
    {
      theme := Theme("", "", base, map[], Soft);
      if active.Some? {
        var at := Position(themes, active.value);
        if at < |themes| {
          theme := themes[at];
          assert themes[at] in themes;
        } else {
          assert !IdTaken(themes, active.value);
        }
      }
      var name := FreshName();
      var id := FreshId();
      theme := theme.(id := id, name := name);
      assert forall i :: 0 <= i < |themes| ==> themes[i] in themes && themes[i].id != id;
      active := Some(id);
      themes := themes + [theme];
      assert theme in themes;
    }

    /** Removes a theme; the one in use falls back to its base. */
    method Remove(id: string) returns (base: Option<Palette>)
      modifies this
      ensures var at := old(Position(themes, id));
        if at == |old(themes)| then (base == None && themes == old(themes) && active == old(active))
        else (base == Some(old(themes)[at].base) && themes == old(themes)[..at] + old(themes)[at + 1..]
              && active == if old(active) == Some(id) then None else old(active))
      ensures old(UniqueIds(themes)) ==> UniqueIds(themes) && !IdTaken(themes, id)
      ensures old(ActiveKnown(active, themes)) ==> ActiveKnown(active, themes)
    {
      var at := Position(themes, id);
      if at == |themes| {
        return None;
      }
      ghost var was := themes;
      base := Some(themes[at].base);
      themes := themes[..at] + themes[at + 1..];
      Removed(was, at);
      if active == Some(id) {
        active := None;
      }
    }
  }
}
