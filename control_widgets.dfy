/** The colour parser and the switch and toggle widgets of
    control/widgets.js. */
module ControlWidgets {
  import opened Wrappers
  import opened Vector
  import Widgets

  /** A character of "0123456789abcdef". */
  predicate IsDigit(c: char)
  {
    '0' <= c <= '9' || 'a' <= c <= 'f'
  }

  /** `digits.indexOf(c)` over "0123456789abcdef": the value of a lowercase
      hexadecimal digit, −1 for any other character (upper case
      included). */
  function Digit(c: char): (d: int)
    ensures -1 <= d < 16
    ensures d < 0 <==> !IsDigit(c)
  {
    if '0' <= c <= '9' then c as int - '0' as int
    else if 'a' <= c <= 'f' then c as int - 'a' as int + 10
    else -1
  }

  /** The lowercase digit of a value below 16. */
  function DigitChar(n: nat): (c: char)
    requires n < 16
    ensures IsDigit(c) && Digit(c) == n
  {
    if n < 10 then ('0' as int + n) as char else ('a' as int + n - 10) as char
  }

  /** `s.indexOf("#")` for a string holding one: the position of its
      first "#". */
  function FirstHash(s: string): (k: nat)
    requires '#' in s
    ensures k < |s| && s[k] == '#' && '#' !in s[..k]
  {
    if s[0] == '#' then 0 else 1 + FirstHash(s[1..])
  }

  /** `s.replace("#", "")`: the first "#", wherever it is, is removed. */
  function DropHash(s: string): (r: string)
    ensures '#' !in s ==> r == s
    ensures |s| > 0 && s[0] == '#' ==> r == s[1..]
    ensures '#' in s ==> r == s[..FirstHash(s)] + s[FirstHash(s) + 1..]
  {
    if s == [] then []
    else if s[0] == '#' then s[1..]
    else
      var t := DropHash(s[1..]);
      DropHashStep(s, t);
      [s[0]] + t
  }

  /** Past a first character that is not "#", dropping the first "#" of
      the string is dropping the first "#" of its tail. */
  lemma DropHashStep(s: string, t: string)
    requires s != [] && s[0] != '#'
    requires '#' !in s[1..] ==> t == s[1..]
    requires '#' in s[1..] ==> t == s[1..][..FirstHash(s[1..])] + s[1..][FirstHash(s[1..]) + 1..]
    ensures '#' !in s ==> [s[0]] + t == s
    ensures '#' in s ==> [s[0]] + t == s[..FirstHash(s)] + s[FirstHash(s) + 1..]
  {
    var tail := s[1..];
    assert s == [s[0]] + tail;
    if '#' in s {
      assert '#' in tail;
      var k := FirstHash(tail);
      assert FirstHash(s) == k + 1;
      assert s[..k + 1] == [s[0]] + tail[..k];
      assert s[k + 2..] == tail[k + 1..];
    }
  }

  /** Consecutive two-character groups of a string of even length. */
  function Pairs(s: string): (r: seq<string>)
    requires |s| % 2 == 0
    ensures |r| == |s| / 2
    ensures forall i :: 0 <= i < |r| ==> r[i] == s[2 * i..2 * i + 2]
  {
    if s == [] then [] else [s[..2]] + Pairs(s[2..])
  }

  /** `s.split(/(?=(?:..)*$)/)`: the string is cut before every position
      with an even number of characters after it, except the first, so the
      groups are pairs aligned to the right end, led by a single character
      when the length is odd; the empty string gives no group. */
  function Groups(s: string): (r: seq<string>)
    ensures |s| % 2 == 0 ==> r == Pairs(s)
    ensures forall i :: 0 <= i < |r| ==> 1 <= |r[i]| <= 2
  {
    if |s| % 2 == 0 then Pairs(s) else [s[..1]] + Pairs(s[1..])
  }

  /** `hex2float(g)`: the second digit of a one-character group is
      `undefined`, whose index is −1. */
  function HexFloat(g: string): real
    requires 1 <= |g| <= 2
  {
    (Digit(g[0]) * 16 + (if |g| == 2 then Digit(g[1]) else -1)) as real / 255.0
  }

  /** `hex2rgb(hex)`: the first three groups, each as a number; fewer than
      three groups make `hex2float(undefined)` throw. */
  function Hex2Rgb(hex: string): (r: Option<Triple>)
    ensures r.Some? <==> |Groups(DropHash(hex))| >= 3
  {
    var gs := Groups(DropHash(hex));
    if |gs| < 3 then None else Some([HexFloat(gs[0]), HexFloat(gs[1]), HexFloat(gs[2])])
  }

  /** The two lowercase digits of a byte. */
  function HexByte(n: nat): (s: string)
    requires n < 256
    ensures |s| == 2 && Digit(s[0]) == n / 16 && Digit(s[1]) == n % 16
  {
    [DigitChar(n / 16), DigitChar(n % 16)]
  }

  /** "#rrggbb" for three bytes. */
  function Hex(r: nat, g: nat, b: nat): (s: string)
    requires r < 256 && g < 256 && b < 256
    ensures |s| == 7 && s[0] == '#'
  {
    "#" + HexByte(r) + HexByte(g) + HexByte(b)
  }

  /** The groups of six digits are its three pairs, and of eight its
      four. */
  lemma GroupsOfBytes(s: string, r: nat, g: nat, b: nat)
    requires r < 256 && g < 256 && b < 256
    requires s == HexByte(r) + HexByte(g) + HexByte(b) || (exists a :: 0 <= a < 256 && s == HexByte(r) + HexByte(g) + HexByte(b) + HexByte(a))
    ensures |Groups(s)| >= 3
    ensures Groups(s)[0] == HexByte(r) && Groups(s)[1] == HexByte(g) && Groups(s)[2] == HexByte(b)
  {
    var gs := Groups(s);
    assert gs == Pairs(s);
    assert gs[0] == s[0..2] && gs[1] == s[2..4] && gs[2] == s[4..6];
  }

  /** Parsing "#rrggbb" gives each byte over 255, so every component lies
      in [0, 1]; a trailing alpha pair "#rrggbbaa" is ignored. */
  lemma {:induction false} Hex2RgbOfHex(r: nat, g: nat, b: nat, a: nat)
    requires r < 256 && g < 256 && b < 256 && a < 256
    ensures Hex2Rgb(Hex(r, g, b)) == Some([r as real / 255.0, g as real / 255.0, b as real / 255.0])
    ensures Hex2Rgb(Hex(r, g, b) + HexByte(a)) == Hex2Rgb(Hex(r, g, b))
    ensures forall c :: c in Hex2Rgb(Hex(r, g, b)).value ==> 0.0 <= c <= 1.0
  {
    HexBytesRead(r, g, b);
    HexAlphaIgnored(r, g, b, a);
    HexFloatOfByte(r);
    HexFloatOfByte(g);
    HexFloatOfByte(b);
    var v := [r as real / 255.0, g as real / 255.0, b as real / 255.0];
    assert forall c :: c in v ==> 0.0 <= c <= 1.0;
  }

  /** "#rrggbb" parses to the three bytes over 255. */
  lemma HexBytesRead(r: nat, g: nat, b: nat)
    requires r < 256 && g < 256 && b < 256
    ensures Hex2Rgb(Hex(r, g, b)) == Some([r as real / 255.0, g as real / 255.0, b as real / 255.0])
  {
    HexGroups(r, g, b, 0);
    HexFloatOfByte(r);
    HexFloatOfByte(g);
    HexFloatOfByte(b);
    var gs := Groups(DropHash(Hex(r, g, b)));
    assert Hex2Rgb(Hex(r, g, b)) == Some([HexFloat(gs[0]), HexFloat(gs[1]), HexFloat(gs[2])]);
  }

  /** An alpha pair after "#rrggbb" does not change the parse. */
  lemma HexAlphaIgnored(r: nat, g: nat, b: nat, a: nat)
    requires r < 256 && g < 256 && b < 256 && a < 256
    ensures Hex2Rgb(Hex(r, g, b) + HexByte(a)) == Hex2Rgb(Hex(r, g, b))
  {
    HexGroups(r, g, b, a);
    var gs := Groups(DropHash(Hex(r, g, b)));
    assert Hex2Rgb(Hex(r, g, b)) == Some([HexFloat(gs[0]), HexFloat(gs[1]), HexFloat(gs[2])]);
    var ts := Groups(DropHash(Hex(r, g, b) + HexByte(a)));
    assert Hex2Rgb(Hex(r, g, b) + HexByte(a)) == Some([HexFloat(ts[0]), HexFloat(ts[1]), HexFloat(ts[2])]);
  }

  /** The groups of "#rrggbb", and of the same with an alpha pair, start
      with the three pairs. */
  lemma HexGroups(r: nat, g: nat, b: nat, a: nat)
    requires r < 256 && g < 256 && b < 256 && a < 256
    ensures var gs := Groups(DropHash(Hex(r, g, b)));
      |gs| >= 3 && gs[0] == HexByte(r) && gs[1] == HexByte(g) && gs[2] == HexByte(b)
    ensures var gs := Groups(DropHash(Hex(r, g, b) + HexByte(a)));
      |gs| >= 3 && gs[0] == HexByte(r) && gs[1] == HexByte(g) && gs[2] == HexByte(b)
  {
    var s := HexByte(r) + HexByte(g) + HexByte(b);
    assert Hex(r, g, b) == "#" + s;
    assert DropHash("#" + s) == s;
    GroupsOfBytes(s, r, g, b);
    var t := s + HexByte(a);
    assert Hex(r, g, b) + HexByte(a) == "#" + t;
    assert DropHash("#" + t) == t;
    GroupsOfBytes(t, r, g, b);
  }

  /** A byte's two digits read back as the byte over 255. */
  lemma HexFloatOfByte(n: nat)
    requires n < 256
    ensures HexFloat(HexByte(n)) == n as real / 255.0
    ensures 0.0 <= n as real / 255.0 <= 1.0
  {
    assert (n / 16) * 16 + n % 16 == n;
  }

  /** Reading a digit and writing it back gives the same character. */
  lemma DigitBack(c: char)
    requires IsDigit(c)
    ensures DigitChar(Digit(c)) == c
  {
  }

  /** The two digits of `16 * hi + lo` are `hi` and `lo`. */
  lemma ByteOfDigits(s: string)
    requires |s| == 2 && IsDigit(s[0]) && IsDigit(s[1])
    ensures 0 <= Digit(s[0]) * 16 + Digit(s[1]) < 256
    ensures HexByte(Digit(s[0]) * 16 + Digit(s[1])) == s
  {
    var hi, lo := Digit(s[0]), Digit(s[1]);
    var n := hi * 16 + lo;
    assert n / 16 == hi && n % 16 == lo;
    DigitBack(s[0]);
    DigitBack(s[1]);
  }

  /** Every lowercase six-digit colour is "#rrggbb" for three bytes, so the
      parse of any of them lies in [0, 1]. */
  lemma {:induction false} Hex2RgbRange(s: string)
    requires |s| == 6 && forall i :: 0 <= i < 6 ==> IsDigit(s[i])
    ensures Hex2Rgb("#" + s).Some?
    ensures forall c :: c in Hex2Rgb("#" + s).value ==> 0.0 <= c <= 1.0
  {
    var r, g, b := SixDigits(s);
    Hex2RgbOfHex(r, g, b, 0);
  }

  /** Six lowercase digits are the three bytes they spell. */
  lemma SixDigits(s: string) returns (r: nat, g: nat, b: nat)
    requires |s| == 6 && forall i :: 0 <= i < 6 ==> IsDigit(s[i])
    ensures r < 256 && g < 256 && b < 256 && Hex(r, g, b) == "#" + s
  {
    ByteOfDigits(s[0..2]);
    ByteOfDigits(s[2..4]);
    ByteOfDigits(s[4..6]);
    r := Digit(s[0]) * 16 + Digit(s[1]);
    g := Digit(s[2]) * 16 + Digit(s[3]);
    b := Digit(s[4]) * 16 + Digit(s[5]);
    assert s == s[0..2] + s[2..4] + s[4..6];
    assert s == HexByte(r) + HexByte(g) + HexByte(b);
  }

  /** A switch made by `createSwitch`: its callback receives the label of
      the clicked button, or null. */
  class LabelSwitch {
    const options: seq<string>
    /** Whether each button has the "active" class. */
    const buttons: array<bool>
    /** The arguments `func` was called with, in order; `None` is null. */
    var calls: seq<Option<string>>

    ghost predicate Valid()
      reads this
    {
      buttons.Length == |options|
    }

    /** `createSwitch(parent, func, options, def, name)`: every button
        labelled `def` is active, and `func(def)` is called once. */
    constructor (options: seq<string>, def: string)
      ensures Valid() && this.options == options && fresh(buttons)
      ensures forall i :: 0 <= i < |options| ==> (buttons[i] <==> options[i] == def)
      ensures calls == [Some(def)]
    {
      this.options := options;
      buttons := new bool[|options|](i requires 0 <= i < |options| => options[i] == def);
      calls := [Some(def)];
    }

    /** A click on button `i`: on an active button every button goes
        inactive and `func(null)` is called; otherwise exactly button `i`
        becomes active and `func` gets its label. */
    method Click(i: nat)
      requires Valid() && i < buttons.Length
      modifies buttons, this`calls
      ensures Valid()
      ensures old(buttons[i]) ==> buttons[..] == Widgets.OnlyAt(buttons.Length, None) && calls == old(calls) + [None]
      ensures !old(buttons[i]) ==>
        buttons[..] == Widgets.OnlyAt(buttons.Length, Some(i)) && calls == old(calls) + [Some(options[i])]
    {
      if buttons[i] {
        Widgets.SetIndex(buttons, None);
        calls := calls + [None];
      } else {
        Widgets.SetIndex(buttons, None);
        buttons[i] := !buttons[i];
        calls := calls + [Some(options[i])];
        assert buttons[..] == Widgets.OnlyAt(buttons.Length, Some(i));
      }
    }
  }

  /** A toggle made by `createToggle`. */
  class LabelToggle {
    /** The `value` attribute: "true" or "false". */
    var value: bool
    /** The arguments `func` was called with, in order. */
    var calls: seq<bool>

    /** `createToggle(parent, func, name, def)`: the attribute shows `def`
        and `func(def)` is called once. */
    constructor (def: bool)
      ensures value == def && calls == [def]
    {
      value := def;
      calls := [def];
    }

    /** A click flips the attribute and reports the new value. */
    method Click()
      modifies this
      ensures value == !old(value) && calls == old(calls) + [value]
    {
      if !value {
        calls := calls + [true];
        value := true;
      } else {
        calls := calls + [false];
        value := false;
      }
    }
  }
}
