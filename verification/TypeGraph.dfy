/** The walk over Go types (main.go). */
module TypeGraph {
  import opened Wrappers

  // It collects the keys a struct binds (tools/go-capability-reference/main.go).

  /** A declared field name; `exported` is Go's rule on its first letter. */
  datatype Name = Name(text: string, exported: bool)

  /** `json` is the value of the field's `json` tag, when its tag can be read and has one. */
  datatype Field = Field(names: seq<Name>, json: Option<string>, kind: Expr)

  datatype Expr = Star(x: Expr) | Array(elt: Expr) | Map(key: Expr, value: Expr) | Ident(name: string)
    | Struct(fields: seq<Field>) | Other

  type Declarations = map<string, Expr>

  // ---- the keys of one field ---------------------------------------------

  function UpToComma(s: string): (r: string)
    ensures r <= s && ',' !in r && (r == s || s[|r|] == ',')
  {
    if s == "" || s[0] == ',' then "" else [s[0]] + UpToComma(s[1..])
  }

  function Exported(names: seq<Name>): (keys: set<string>)
    ensures forall n :: n in names && n.exported ==> n.text in keys
    ensures forall k :: k in keys ==> exists n :: n in names && n.exported && n.text == k
  {
    set n | n in names && n.exported :: n.text
  }

  /** A tag's name, or nothing for "-", or without a name the exported field names. */
  function FieldKeys(f: Field): set<string> {
    var name := if f.json.Some? then UpToComma(f.json.value) else "";
    if name == "-" then {} else if name != "" then {name} else Exported(f.names)
  }

  /** `name` is what a tag has before its first comma. */
  predicate Names(tag: string, name: string) {
    ',' !in name && (tag == name || name + "," <= tag)
  }

  /** The rule of encoding/json: a tag's name, never "-"; without a name, the exported names of the field. */
  predicate Binds(f: Field, key: string) {
    if f.json.Some? && !Names(f.json.value, "") then key != "-" && Names(f.json.value, key)
    else exists n :: n in f.names && n.exported && n.text == key
  }

  lemma FieldBinds(f: Field, key: string)
    ensures key in FieldKeys(f) <==> Binds(f, key)
  {
    if f.json.Some? {
      var tag := f.json.value;
      OneName(tag, UpToComma(tag), "");
      OneName(tag, UpToComma(tag), key);
    }
  }

  lemma OneName(tag: string, name: string, other: string)
    requires ',' !in name && name <= tag && (name == tag || tag[|name|] == ',')
    ensures Names(tag, other) <==> other == name
  {
    assert name < tag ==> tag[..|name| + 1] == name + ",";
    assert other + "," <= tag ==> tag[|other|] == ',';
  }

  // ---- the walk ----------------------------------------------------------

  datatype Found = Found(seen: set<string>, out: set<string>)

  function Unseen(ds: Declarations, seen: set<string>): nat {
    |ds.Keys - seen|
  }

  lemma UnseenShrinks(ds: Declarations, seen: set<string>, more: set<string>)
    requires seen <= more
    ensures Unseen(ds, more) <= Unseen(ds, seen)
    ensures forall n :: n in ds && n in more && n !in seen ==> Unseen(ds, more) < Unseen(ds, seen)
  {
    Subset(ds.Keys - more, ds.Keys - seen);
    forall n | n in ds && n in more && n !in seen ensures Unseen(ds, more) < Unseen(ds, seen) {
      Subset(ds.Keys - more, ds.Keys - seen - {n});
    }
  }

  lemma {:induction false} Subset(a: set<string>, b: set<string>)
    requires a <= b
    ensures |a| <= |b|
  {
    if a != {} {
      var x :| x in a;
      Subset(a - {x}, b - {x});
    }
  }

  function Walk(ds: Declarations, e: Expr, s: Found): (t: Found)
    ensures s.seen <= t.seen
    decreases Unseen(ds, s.seen), e, 1
  {
    match e
    case Star(x) => Walk(ds, x, s)
    case Array(elt) => Walk(ds, elt, s)
    case Map(_, value) => Walk(ds, value, s)
    case Ident(n) =>
      if n in s.seen then s
      else
        var t := s.(seen := s.seen + {n});
        if n !in ds then t
        else
          UnseenShrinks(ds, s.seen, t.seen);
          Walk(ds, ds[n], t)
    case Struct(fields) => WalkFields(ds, fields, s)
    case Other => s
  }

  function WalkFields(ds: Declarations, fields: seq<Field>, s: Found): (t: Found)
    ensures s.seen <= t.seen
    decreases Unseen(ds, s.seen), fields, 0
  {
    if fields == [] then s
    else
      var f := fields[0];
      var t := Walk(ds, f.kind, s.(out := s.out + FieldKeys(f)));
      UnseenShrinks(ds, s.seen, t.seen);
      WalkFields(ds, fields[1..], t)
  }

  class ParamScan {
    const structs: Declarations
    var seen: set<string>
    var out: set<string>

    constructor (structs: Declarations)
      ensures this.structs == structs && seen == {} && out == {}
    {
      this.structs, seen, out := structs, {}, {};
    }

    function View(): Found
      reads this
    {
      Found(seen, out)
    }

    /** The keys one field binds. */
    method Bind(f: Field)
      modifies `out
      ensures out == old(out) + FieldKeys(f)
      ensures forall key :: key in out <==> key in old(out) || Binds(f, key)
    {
      forall key ensures key in FieldKeys(f) <==> Binds(f, key) { FieldBinds(f, key); }
      var tagged, skip := "", false;
      if f.json.Some? {
        var name := UpToComma(f.json.value);
        if name == "-" {
          skip := true;
        } else {
          tagged := name;
        }
      }
      if skip {
      } else if tagged != "" {
        out := out + {tagged};
      } else {
        // No usable tag: encoding/json binds by field name.
        ghost var start := out;
        for i := 0 to |f.names|
          invariant out == start + Exported(f.names[..i])
        {
          assert f.names[..i + 1] == f.names[..i] + [f.names[i]];
          if f.names[i].exported {
            out := out + {f.names[i].text};
          }
        }
        assert f.names[..|f.names|] == f.names;
      }
    }

    method JsonTagsOf(e: Expr)
      modifies `seen, `out
      ensures View() == Walk(structs, e, old(View()))
      decreases Unseen(structs, seen), e
    {
      hide Unseen, FieldKeys;
      match e
      case Star(x) => JsonTagsOf(x);
      case Array(elt) => JsonTagsOf(elt);
      case Map(_, value) => JsonTagsOf(value);
      case Ident(n) =>
        if n in seen {
          return;
        }
        UnseenShrinks(structs, seen, seen + {n});
        seen := seen + {n};
        if n in structs {
          JsonTagsOf(structs[n]);
        }
      case Struct(fields) =>
        ghost var start := View();
        var i := 0;
        while i < |fields|
          invariant 0 <= i <= |fields| && start.seen <= seen
          invariant WalkFields(structs, fields, start) == WalkFields(structs, fields[i..], View())
        {
          var f := fields[i];
          assert fields[i..][0] == f && fields[i..][1..] == fields[i + 1..];
          Bind(f);
          UnseenShrinks(structs, start.seen, seen);
          JsonTagsOf(f.kind);
          i := i + 1;
        }
      case Other =>
    }
  }

  // ---- what is collected -------------------------------------------------

  /** `to` is one step below `from`: through a pointer, an array, a map's values, a field or a declared name. */
  predicate Below(ds: Declarations, from: Expr, to: Expr) {
    match from
    case Star(x) => to == x
    case Array(elt) => to == elt
    case Map(_, value) => to == value
    case Ident(n) => n in ds && to == ds[n]
    case Struct(fields) => exists f :: f in fields && f.kind == to
    case Other => false
  }

  predicate Path(ds: Declarations, path: seq<Expr>) {
    path != [] && forall i :: 0 <= i < |path| - 1 ==> Below(ds, path[i], path[i + 1])
  }

  function Keys(fields: seq<Field>): set<string> {
    if fields == [] then {} else FieldKeys(fields[0]) + Keys(fields[1..])
  }

  predicate BindsAt(end: Expr, key: string) {
    end.Struct? && exists f :: f in end.fields && Binds(f, key)
  }

  lemma {:induction false} KeysBound(fields: seq<Field>, key: string)
    ensures key in Keys(fields) <==> exists f :: f in fields && Binds(f, key)
  {
    hide FieldKeys, Binds;
    if fields != [] {
      FieldBinds(fields[0], key);
      KeysBound(fields[1..], key);
      assert fields == [fields[0]] + fields[1..];
    }
  }

  lemma Extend(ds: Declarations, e: Expr, path: seq<Expr>)
    requires Path(ds, path) && Below(ds, e, path[0])
    ensures Path(ds, [e] + path)
  {
  }

  /** Every key collected is bound by a struct reached from the type. */
  lemma {:induction false} CollectedIsBound(ds: Declarations, e: Expr, s: Found, key: string) returns (path: seq<Expr>)
    requires key in Walk(ds, e, s).out && key !in s.out
    ensures Path(ds, path) && path[0] == e && BindsAt(path[|path| - 1], key)
    decreases Unseen(ds, s.seen), e, 1
  {
    hide FieldKeys, Unseen, Path, Binds;
    var rest: seq<Expr>;
    match e {
      case Star(x) => rest := CollectedIsBound(ds, x, s, key);
      case Array(elt) => rest := CollectedIsBound(ds, elt, s, key);
      case Map(_, value) => rest := CollectedIsBound(ds, value, s, key);
      case Ident(n) =>
        UnseenShrinks(ds, s.seen, s.seen + {n});
        rest := CollectedIsBound(ds, ds[n], s.(seen := s.seen + {n}), key);
      case Struct(fields) =>
        if key in Keys(fields) {
          path := [e];
          KeysBound(fields, key);
          assert Path(ds, path) by { One(ds, e); }
          return;
        }
        var f;
        f, rest := CollectedInFields(ds, fields, s, key);
    }
    NotEmpty(ds, rest);
    Extend(ds, e, rest);
    path := [e] + rest;
  }

  lemma One(ds: Declarations, e: Expr)
    ensures Path(ds, [e])
  {
  }

  lemma NotEmpty(ds: Declarations, path: seq<Expr>)
    requires Path(ds, path)
    ensures path != []
  {
  }

  lemma {:induction false} CollectedInFields(ds: Declarations, fields: seq<Field>, s: Found, key: string)
    returns (f: Field, path: seq<Expr>)
    requires key in WalkFields(ds, fields, s).out && key !in s.out && key !in Keys(fields)
    ensures f in fields && Path(ds, path) && path[0] == f.kind && BindsAt(path[|path| - 1], key)
    decreases Unseen(ds, s.seen), fields, 0
  {
    hide FieldKeys, Unseen, Path;
    var first := fields[0];
    var t := Walk(ds, first.kind, s.(out := s.out + FieldKeys(first)));
    if key in t.out {
      f := first;
      path := CollectedIsBound(ds, first.kind, s.(out := s.out + FieldKeys(first)), key);
    } else {
      UnseenShrinks(ds, s.seen, t.seen);
      f, path := CollectedInFields(ds, fields[1..], t, key);
    }
  }

  /** Everything the type binds without following another name is collected, and the names it uses are seen. */
  predicate Covered(e: Expr, s: Found)
    decreases e, 1
  {
    match e
    case Star(x) => Covered(x, s)
    case Array(elt) => Covered(elt, s)
    case Map(_, value) => Covered(value, s)
    case Ident(n) => n in s.seen
    case Struct(fields) => FieldsCovered(fields, s)
    case Other => true
  }

  predicate FieldsCovered(fields: seq<Field>, s: Found)
    decreases fields, 0
  {
    fields == [] || (FieldKeys(fields[0]) <= s.out && Covered(fields[0].kind, s) && FieldsCovered(fields[1..], s))
  }

  lemma {:induction false} StaysCovered(e: Expr, s: Found, t: Found)
    requires Covered(e, s) && s.seen <= t.seen && s.out <= t.out
    ensures Covered(e, t)
    decreases e, 1
  {
    match e
    case Star(x) => StaysCovered(x, s, t);
    case Array(elt) => StaysCovered(elt, s, t);
    case Map(_, value) => StaysCovered(value, s, t);
    case Struct(fields) => FieldsStayCovered(fields, s, t);
    case _ =>
  }

  lemma {:induction false} FieldsStayCovered(fields: seq<Field>, s: Found, t: Found)
    requires FieldsCovered(fields, s) && s.seen <= t.seen && s.out <= t.out
    ensures FieldsCovered(fields, t)
    decreases fields, 0
  {
    if fields != [] {
      StaysCovered(fields[0].kind, s, t);
      FieldsStayCovered(fields[1..], s, t);
    }
  }

  /** What a walk leaves behind: the names it newly met are covered in full. */
  predicate Finished(ds: Declarations, from: Found, t: Found) {
    from.seen <= t.seen && from.out <= t.out &&
    forall n :: n in ds && n in t.seen && n !in from.seen ==> Covered(ds[n], t)
  }

  lemma FinishedTwice(ds: Declarations, a: Found, b: Found, c: Found)
    requires Finished(ds, a, b) && Finished(ds, b, c)
    ensures Finished(ds, a, c)
  {
    forall n | n in ds && n in c.seen && n !in a.seen ensures Covered(ds[n], c) {
      if n in b.seen { StaysCovered(ds[n], b, c); }
    }
  }

  lemma {:induction false} WalkFinishes(ds: Declarations, e: Expr, s: Found)
    ensures var t := Walk(ds, e, s); Finished(ds, s, t) && Covered(e, t)
    decreases Unseen(ds, s.seen), e, 1
  {
    hide FieldKeys, Unseen;
    match e
    case Star(x) => WalkFinishes(ds, x, s);
    case Array(elt) => WalkFinishes(ds, elt, s);
    case Map(_, value) => WalkFinishes(ds, value, s);
    case Ident(n) =>
      if n !in s.seen && n in ds {
        UnseenShrinks(ds, s.seen, s.seen + {n});
        WalkFinishes(ds, ds[n], s.(seen := s.seen + {n}));
      }
    case Struct(fields) => FieldsFinish(ds, fields, s);
    case Other =>
  }

  lemma {:induction false} FieldsFinish(ds: Declarations, fields: seq<Field>, s: Found)
    ensures var t := WalkFields(ds, fields, s); Finished(ds, s, t) && FieldsCovered(fields, t)
    decreases Unseen(ds, s.seen), fields, 0
  {
    hide FieldKeys, Unseen, Covered, Finished;
    if fields == [] {
      assert Finished(ds, s, s) by { StandsStill(ds, s); }
    } else {
      var f := fields[0];
      var bound := s.(out := s.out + FieldKeys(f));
      WalkFinishes(ds, f.kind, bound);
      var t := Walk(ds, f.kind, bound);
      UnseenShrinks(ds, s.seen, t.seen);
      FieldsFinish(ds, fields[1..], t);
      var last := WalkFields(ds, fields[1..], t);
      Grows(ds, bound, t);
      Grows(ds, t, last);
      Bound(ds, s, bound, t);
      FinishedTwice(ds, s, t, last);
      StaysCovered(f.kind, t, last);
    }
  }

  lemma StandsStill(ds: Declarations, s: Found)
    ensures Finished(ds, s, s)
  {
  }

  lemma Grows(ds: Declarations, s: Found, t: Found)
    requires Finished(ds, s, t)
    ensures s.seen <= t.seen && s.out <= t.out
  {
  }

  lemma Bound(ds: Declarations, s: Found, bound: Found, t: Found)
    requires Finished(ds, bound, t) && bound.seen == s.seen && s.out <= bound.out
    ensures Finished(ds, s, t)
  {
  }

  lemma {:induction false} CoveredKeys(fields: seq<Field>, s: Found)
    requires FieldsCovered(fields, s)
    ensures Keys(fields) <= s.out
    ensures forall f :: f in fields ==> Covered(f.kind, s)
  {
    hide FieldKeys, Covered;
    if fields != [] {
      CoveredKeys(fields[1..], s);
    }
  }

  lemma StepCovered(ds: Declarations, from: Expr, to: Expr, s: Found)
    requires Covered(from, s) && Below(ds, from, to)
    requires forall n :: n in ds && n in s.seen ==> Covered(ds[n], s)
    ensures Covered(to, s)
  {
    if from.Struct? { CoveredKeys(from.fields, s); }
  }

  lemma {:induction false} PathCovered(ds: Declarations, path: seq<Expr>, s: Found)
    requires Path(ds, path) && Covered(path[0], s)
    requires forall n :: n in ds && n in s.seen ==> Covered(ds[n], s)
    ensures Covered(path[|path| - 1], s)
    decreases |path|
  {
    hide Covered, Below;
    if |path| > 1 {
      StepCovered(ds, path[0], path[1], s);
      assert forall i :: 0 <= i < |path[1..]| - 1 ==> Below(ds, path[1..][i], path[1..][i + 1]) by {
        forall i | 0 <= i < |path[1..]| - 1 ensures Below(ds, path[1..][i], path[1..][i + 1]) {
          assert Below(ds, path[i + 1], path[i + 2]);
        }
      }
      PathCovered(ds, path[1..], s);
    }
  }

  /** Every key a reachable struct binds is collected, whatever cycles the declarations form. */
  lemma BoundIsCollected(ds: Declarations, e: Expr, out: set<string>, path: seq<Expr>, key: string)
    requires Path(ds, path) && path[0] == e && BindsAt(path[|path| - 1], key)
    ensures key in Walk(ds, e, Found({}, out)).out
  {
    hide Walk, Covered, Path;
    NotEmpty(ds, path);
    WalkFinishes(ds, e, Found({}, out));
    var t := Walk(ds, e, Found({}, out));
    assert forall n :: n in ds && n in t.seen ==> Covered(ds[n], t);
    PathCovered(ds, path, t);
    LastKeys(path[|path| - 1], t);
    KeysBound(path[|path| - 1].fields, key);
  }

  lemma LastKeys(e: Expr, s: Found)
    requires e.Struct? && Covered(e, s)
    ensures Keys(e.fields) <= s.out
  {
    CoveredKeys(e.fields, s);
  }
}
