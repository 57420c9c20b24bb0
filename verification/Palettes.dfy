/** Colours as text and as a palette's slots, as they are typed, shown and stored (appearance.rs). */
module Palettes {
  import opened Wrappers

  /** Every palette colour a custom theme can change. */
  datatype Token =
    Chat | Base | Surface | Selected | Border | User | Text | Prose | Muted | Disabled | Accent | Primary |
    PrimaryHover | PrimaryPressed | OnPrimary | Success | Warning | Error | Busy | CodeInline | CodeBlock |
    CodeHeader | Selection | Shadow

  datatype Palette = Palette(
    chat: nat, base: nat, surface: nat, selected: nat, border: nat, user: nat, text: nat, prose: nat,
    muted: nat, disabled: nat, accent: nat, primary: nat, primaryHover: nat, primaryPressed: nat,
    onPrimary: nat, success: nat, warning: nat, error: nat, busy: nat, codeInline: nat, codeBlock: nat,
    codeHeader: nat, selection: nat, shadow: nat)

  function NameOf(t: Token): string {
    match t
    case Chat => "chat"
    case Base => "base"
    case Surface => "surface"
    case Selected => "selected"
    case Border => "border"
    case User => "user"
    case Text => "text"
    case Prose => "prose"
    case Muted => "muted"
    case Disabled => "disabled"
    case Accent => "accent"
    case Primary => "primary"
    case PrimaryHover => "primary_hover"
    case PrimaryPressed => "primary_pressed"
    case OnPrimary => "on_primary"
    case Success => "success"
    case Warning => "warning"
    case Error => "error"
    case Busy => "busy"
    case CodeInline => "code_inline"
    case CodeBlock => "code_block"
    case CodeHeader => "code_header"
    case Selection => "selection"
    case Shadow => "shadow"
  }

  lemma NamesDiffer(t: Token, u: Token)
    requires NameOf(t) == NameOf(u)
    ensures t == u
  {
    assert |NameOf(t)| == |NameOf(u)| && NameOf(t)[0] == NameOf(u)[0];
    var n := |NameOf(t)|;
    assert NameOf(t)[n - 1] == NameOf(u)[n - 1] && NameOf(t)[n - 2] == NameOf(u)[n - 2];
  }

  lemma NamesTellSlotsApart()
    ensures forall t, u :: NameOf(t) == NameOf(u) ==> t == u
  {
    forall t, u | NameOf(t) == NameOf(u) ensures t == u { NamesDiffer(t, u); }
  }

  /** The slot a key names. */
  function TokenOf(key: string): (t: Option<Token>)
    ensures t.Some? ==> NameOf(t.value) == key
    ensures t.None? ==> forall u :: NameOf(u) != key
  {
    if t: Token :| NameOf(t) == key then
      NamesTellSlotsApart();
      Some(t)
    else None
  }

  function Get(p: Palette, t: Token): nat {
    match t
    case Chat => p.chat
    case Base => p.base
    case Surface => p.surface
    case Selected => p.selected
    case Border => p.border
    case User => p.user
    case Text => p.text
    case Prose => p.prose
    case Muted => p.muted
    case Disabled => p.disabled
    case Accent => p.accent
    case Primary => p.primary
    case PrimaryHover => p.primaryHover
    case PrimaryPressed => p.primaryPressed
    case OnPrimary => p.onPrimary
    case Success => p.success
    case Warning => p.warning
    case Error => p.error
    case Busy => p.busy
    case CodeInline => p.codeInline
    case CodeBlock => p.codeBlock
    case CodeHeader => p.codeHeader
    case Selection => p.selection
    case Shadow => p.shadow
  }

  function Put(p: Palette, t: Token, c: nat): Palette {
    match t
    case Chat => p.(chat := c)
    case Base => p.(base := c)
    case Surface => p.(surface := c)
    case Selected => p.(selected := c)
    case Border => p.(border := c)
    case User => p.(user := c)
    case Text => p.(text := c)
    case Prose => p.(prose := c)
    case Muted => p.(muted := c)
    case Disabled => p.(disabled := c)
    case Accent => p.(accent := c)
    case Primary => p.(primary := c)
    case PrimaryHover => p.(primaryHover := c)
    case PrimaryPressed => p.(primaryPressed := c)
    case OnPrimary => p.(onPrimary := c)
    case Success => p.(success := c)
    case Warning => p.(warning := c)
    case Error => p.(error := c)
    case Busy => p.(busy := c)
    case CodeInline => p.(codeInline := c)
    case CodeBlock => p.(codeBlock := c)
    case CodeHeader => p.(codeHeader := c)
    case Selection => p.(selection := c)
    case Shadow => p.(shadow := c)
  }

  /** A slot written reads back, and no other slot moves. */
  lemma GetPut(p: Palette, t: Token, c: nat, u: Token)
    ensures Get(Put(p, t, c), u) == if t == u then c else Get(p, u)
  {
  }

  /** Every slot has its key, and that key no other slot. */
  lemma EverySlotHasItsKey(t: Token)
    ensures TokenOf(NameOf(t)) == Some(t)
  {
    var found := TokenOf(NameOf(t));
    assert found.Some?;
    NamesDiffer(found.value, t);
  }

  /** Two keys never share a slot. */
  lemma KeysDiffer(key: string, other: string)
    requires key != other && TokenOf(key).Some? && TokenOf(other).Some?
    ensures TokenOf(key) != TokenOf(other)
  {
  }

  lemma SelectionKey(key: string)
    requires TokenOf(key).Some?
    ensures key == "selection" <==> TokenOf(key).value == Selection
  {
    hide TokenOf;
  }

  // ---- hexadecimal -------------------------------------------------------

  const U32 := 0x1_0000_0000
  const RGB := 0x100_0000

  predicate HexChar(c: char) {
    '0' <= c <= '9' || 'a' <= c <= 'f' || 'A' <= c <= 'F'
  }

  function HexValue(c: char): (v: nat)
    requires HexChar(c)
    ensures v < 16
  {
    if '0' <= c <= '9' then c as int - '0' as int
    else if 'a' <= c <= 'f' then c as int - 'a' as int + 10
    else c as int - 'A' as int + 10
  }

  predicate AllHex(s: string) {
    forall i :: 0 <= i < |s| ==> HexChar(s[i])
  }

  function FromHex(s: string): nat
    requires AllHex(s)
  {
    if s == "" then 0 else FromHex(s[..|s| - 1]) * 16 + HexValue(s[|s| - 1])
  }

  function HexDigit(n: nat): (c: char)
    requires n < 16
    ensures HexChar(c) && HexValue(c) == n && c != '#'
  {
    if n < 10 then ('0' as int + n) as char else ('a' as int + n - 10) as char
  }

  /** At least `width` digits, zeros in front. */
  function Padded(value: nat, width: nat): (s: string)
    ensures AllHex(s) && FromHex(s) == value && |s| >= width && s != ""
    decreases value, width
  {
    if value < 16 && width <= 1 then
      assert [HexDigit(value)][..0] == "";
      [HexDigit(value)]
    else
      var front := Padded(value / 16, if width <= 1 then 0 else width - 1);
      var s := front + [HexDigit(value % 16)];
      assert s[..|s| - 1] == front;
      s
  }

  /** The powers of sixteen a width holds. */
  function Room(width: nat): nat {
    if width == 0 then 1 else 16 * Room(width - 1)
  }

  lemma {:induction false} PaddedFits(value: nat, width: nat)
    requires width >= 1
    ensures |Padded(value, width)| == width <==> value < Room(width)
    decreases width
  {
    if width == 1 {
      assert Room(1) == 16 * Room(0);
    } else {
      PaddedFits(value / 16, width - 1);
    }
  }

  predicate White(c: char) {
    var n := c as int;
    9 <= n <= 13 || n == 32 || n == 0x85 || n == 0xA0 || n == 0x1680 || 0x2000 <= n <= 0x200A || n == 0x2028 ||
    n == 0x2029 || n == 0x202F || n == 0x205F || n == 0x3000
  }

  function TrimStart(s: string): string {
    if s != "" && White(s[0]) then TrimStart(s[1..]) else s
  }

  function TrimEnd(s: string): string {
    if s != "" && White(s[|s| - 1]) then TrimEnd(s[..|s| - 1]) else s
  }

  function TrimHash(s: string): string {
    if s != "" && s[0] == '#' then TrimHash(s[1..]) else s
  }

  /** `#rgb`, `#rrggbb`, or with `alpha` also `#rrggbbaa`; a colour without alpha becomes opaque. */
  function ParseHex(text: string, alpha: bool): (c: Option<nat>)
    ensures c.Some? ==> c.value < if alpha then U32 else RGB
  {
    var digits := TrimHash(TrimEnd(TrimStart(text)));
    if !AllHex(digits) then None
    else if |digits| == 8 && alpha then (FromHexRoom(digits); Some(FromHex(digits)))
    else if |digits| == 3 || |digits| == 6 then
      FromHexRoom(digits);
      var v := FromHex(digits);
      var rgb := if |digits| == 6 then v
                 else v / 256 % 16 * 17 * 65536 + v / 16 % 16 * 17 * 256 + v % 16 * 17;
      Some(if alpha then rgb * 256 + 255 else rgb)
    else None
  }

  lemma {:induction false} FromHexRoom(s: string)
    requires AllHex(s)
    ensures FromHex(s) < Room(|s|)
    ensures Room(3) == 4096 && Room(6) == RGB && Room(8) == U32
  {
    Rooms();
    if s != "" {
      FromHexRoom(s[..|s| - 1]);
    }
  }

  lemma Rooms()
    ensures Room(3) == 4096 && Room(6) == RGB && Room(8) == U32
  {
    assert Room(2) == 256 && Room(4) == 65536;
    assert Room(5) == 16 * Room(4) && Room(7) == 16 * Room(6);
  }

  /** `#rrggbb`, and `#rrggbbaa` for the selection. */
  function Hex(value: nat, t: Token): string {
    "#" + Padded(value, if t == Selection then 8 else 6)
  }

  lemma NothingToTrim(s: string)
    requires AllHex(s) && s != ""
    ensures TrimStart("#" + s) == "#" + s && TrimEnd("#" + s) == "#" + s
    ensures TrimHash("#" + s) == s
  {
    var t := "#" + s;
    assert t[|t| - 1] == s[|s| - 1] && HexChar(s[|s| - 1]) && HexChar(s[0]);
    assert t[1..] == s;
  }

  /** What is written is read back exactly when the colour is within its digits. */
  lemma ParseUndoesHex(value: nat, t: Token)
    ensures ParseHex(Hex(value, t), t == Selection) == Some(value) <==>
      value < if t == Selection then U32 else RGB
    ensures value >= RGB && t != Selection ==> ParseHex(Hex(value, t), false) == None
  {
    hide TrimStart, TrimEnd, TrimHash, FromHex;
    var w := if t == Selection then 8 else 6;
    var s := Padded(value, w);
    NothingToTrim(s);
    PaddedFits(value, w);
    FromHexRoom(s);
  }

  /** A three-digit colour is the six-digit one with each digit doubled. */
  lemma ShortFormDoubles(a: char, b: char, c: char, alpha: bool)
    requires HexChar(a) && HexChar(b) && HexChar(c)
    ensures ParseHex("#" + [a, b, c], alpha) == ParseHex("#" + [a, a, b, b, c, c], alpha)
  {
    hide TrimStart, TrimEnd, TrimHash, FromHex, HexChar, HexValue, Room;
    NothingToTrim([a, b, c]);
    NothingToTrim([a, a, b, b, c, c]);
    ThreeDigits(a, b, c);
    SixDigits(a, b, c);
    Nibbles(HexValue(a), HexValue(b), HexValue(c));
  }

  lemma Nibbles(a: nat, b: nat, c: nat)
    requires a < 16 && b < 16 && c < 16
    ensures var v := a * 256 + b * 16 + c; v / 256 % 16 == a && v / 16 % 16 == b && v % 16 == c
  {
  }

  lemma OneDigit(s: string, c: char)
    requires AllHex(s) && HexChar(c)
    ensures FromHex(s + [c]) == FromHex(s) * 16 + HexValue(c)
  {
    assert (s + [c])[..|s|] == s;
  }

  lemma ThreeDigits(a: char, b: char, c: char)
    requires HexChar(a) && HexChar(b) && HexChar(c)
    ensures FromHex([a, b, c]) == HexValue(a) * 256 + HexValue(b) * 16 + HexValue(c)
  {
    OneDigit("", a);
    OneDigit([a], b);
    OneDigit([a, b], c);
    assert "" + [a] == [a] && [a] + [b] == [a, b] && [a, b] + [c] == [a, b, c];
  }

  lemma SixDigits(a: char, b: char, c: char)
    requires HexChar(a) && HexChar(b) && HexChar(c)
    ensures FromHex([a, a, b, b, c, c]) == HexValue(a) * 17 * 65536 + HexValue(b) * 17 * 256 + HexValue(c) * 17
  {
    ThreeDigits(a, a, b);
    OneDigit([a, a, b], b);
    OneDigit([a, a, b, b], c);
    OneDigit([a, a, b, b, c], c);
    assert [a, a, b] + [b] == [a, a, b, b] && [a, a, b, b] + [c] == [a, a, b, b, c];
    assert [a, a, b, b, c] + [c] == [a, a, b, b, c, c];
  }

  // ---- what a user may type ----------------------------------------------

  function Lower(c: char): char {
    if 'A' <= c <= 'Z' then (c as int + 32) as char else c
  }

  function Lowered(s: string): (r: string)
    ensures |r| == |s| && forall i :: 0 <= i < |s| ==> r[i] == Lower(s[i])
  {
    seq(|s|, i requires 0 <= i < |s| => Lower(s[i]))
  }

  lemma LowerDigit(c: char)
    ensures HexChar(Lower(c)) == HexChar(c) && White(Lower(c)) == White(c) && (Lower(c) == '#' <==> c == '#')
    ensures HexChar(c) ==> HexValue(Lower(c)) == HexValue(c)
  {
  }

  lemma {:induction false} LowerTrims(s: string)
    ensures TrimStart(Lowered(s)) == Lowered(TrimStart(s)) && TrimEnd(Lowered(s)) == Lowered(TrimEnd(s))
    ensures TrimHash(Lowered(s)) == Lowered(TrimHash(s))
  {
    if s != "" {
      LowerDigit(s[0]);
      LowerDigit(s[|s| - 1]);
      assert Lowered(s)[1..] == Lowered(s[1..]) && Lowered(s)[..|s| - 1] == Lowered(s[..|s| - 1]);
      LowerTrims(s[1..]);
      LowerTrims(s[..|s| - 1]);
    }
  }

  lemma {:induction false} LowerReads(s: string)
    ensures AllHex(Lowered(s)) <==> AllHex(s)
    ensures AllHex(s) ==> FromHex(Lowered(s)) == FromHex(s)
  {
    forall i | 0 <= i < |s| ensures HexChar(Lowered(s)[i]) == HexChar(s[i]) { LowerDigit(s[i]); }
    assert AllHex(Lowered(s)) ==> AllHex(s) by {
      forall i | 0 <= i < |s| && AllHex(Lowered(s)) ensures HexChar(s[i]) { assert HexChar(Lowered(s)[i]); }
    }
    if s != "" {
      LowerDigit(s[|s| - 1]);
      assert Lowered(s)[..|s| - 1] == Lowered(s[..|s| - 1]);
      LowerReads(s[..|s| - 1]);
    }
  }

  /** Capitals read as small letters do. */
  lemma CaseDoesNotMatter(text: string, alpha: bool)
    ensures ParseHex(Lowered(text), alpha) == ParseHex(text, alpha)
  {
    hide TrimStart, TrimEnd, TrimHash, FromHex;
    LowerTrims(text);
    LowerTrims(TrimStart(text));
    LowerTrims(TrimEnd(TrimStart(text)));
    LowerReads(TrimHash(TrimEnd(TrimStart(text))));
  }

  lemma {:induction false} BlankFront(front: string, s: string)
    requires forall c :: c in front ==> White(c)
    ensures TrimStart(front + s) == TrimStart(s)
  {
    if front == "" {
      assert front + s == s;
    } else {
      assert (front + s)[1..] == front[1..] + s;
      BlankFront(front[1..], s);
    }
  }

  lemma {:induction false} BlankBack(s: string, back: string)
    requires forall c :: c in back ==> White(c)
    ensures TrimEnd(s + back) == TrimEnd(s)
  {
    if back == "" {
      assert s + back == s;
    } else {
      assert (s + back)[..|s + back| - 1] == s + back[..|back| - 1];
      BlankBack(s, back[..|back| - 1]);
    }
  }

  lemma {:induction false} Hashes(marks: string, digits: string)
    requires (forall c :: c in marks ==> c == '#') && AllHex(digits)
    ensures TrimHash(marks + digits) == digits
  {
    if marks == "" {
      assert marks + digits == digits;
      assert digits != "" ==> HexChar(digits[0]);
    } else {
      assert marks[0] in marks && forall c :: c in marks[1..] ==> c in marks;
      assert (marks + digits)[1..] == marks[1..] + digits;
      Hashes(marks[1..], digits);
    }
  }

  lemma NotBlank(s: string)
    requires s != "" && !White(s[0]) && !White(s[|s| - 1])
    ensures TrimStart(s) == s && TrimEnd(s) == s
  {
  }

  /** Blanks around a colour and marks before it do not matter; six digits, or three, are opaque. */
  lemma ReadAsTyped(front: string, marks: string, digits: string, back: string, alpha: bool)
    requires (forall c :: c in front + back ==> White(c)) && (forall c :: c in marks ==> c == '#') && AllHex(digits)
    ensures var c := ParseHex(front + marks + digits + back, alpha);
      && (c.Some? <==> |digits| == 3 || |digits| == 6 || (alpha && |digits| == 8))
      && (|digits| == 6 ==> c == Some(if alpha then FromHex(digits) * 256 + 255 else FromHex(digits)))
      && (|digits| == 8 && alpha ==> c == Some(FromHex(digits)))
  {
    hide TrimStart, TrimEnd, TrimHash, FromHex, White;
    var s := marks + digits;
    assert front + marks + digits + back == front + (s + back);
    assert forall c :: c in front ==> c in front + back;
    assert forall c :: c in back ==> c in front + back;
    BlankFront(front, s + back);
    FromHexRoom(digits);
    Hashes(marks, digits);
    if s != "" {
      forall i | 0 <= i < |s| ensures s[i] == '#' || HexChar(s[i]) {
        if i < |marks| { assert marks[i] in marks; } else { assert s[i] == digits[i - |marks|]; }
      }
      assert (s + back)[0] == s[0];
      Solid(s[0]);
      Solid(s[|s| - 1]);
      Starts(s + back);
      BlankBack(s, back);
      NotBlank(s);
    } else {
      assert s + back == back + "";
      BlankFront(back, "");
      Nothing();
    }
  }

  lemma Nothing()
    ensures TrimStart("") == "" && TrimEnd("") == ""
  {
  }

  lemma Starts(s: string)
    requires s != "" && !White(s[0])
    ensures TrimStart(s) == s
  {
  }

  lemma Solid(c: char)
    requires c == '#' || HexChar(c)
    ensures !White(c)
  {
  }
}
