/**
  The few Python built-ins the plugin relies on, as pure functions on the
  values they act on: truthiness, `str.lstrip`, `str.split`, `str.join`,
  `str(int)` and `int(...)`.
*/
module Builtins {
  import opened Wrappers

  /** A value as it can be read from the plugin's configuration dictionary. */
  datatype PyValue = PyNone | PyBool(b: bool) | PyInt(i: int) | PyFloat(r: real) | PyStr(s: string)

  /** Python truthiness: what `if v:` and `not v` test. The falsy values are `None`, `False`, `0`, `0.0` and `""`. */
  predicate Truthy(v: PyValue): (r: bool)
    ensures r <==> v !in {PyNone, PyBool(false), PyInt(0), PyFloat(0.0), PyStr("")}
  {
    match v
    case PyNone => false
    case PyBool(b) => b
    case PyInt(i) => i != 0
    case PyFloat(x) => x != 0.0
    case PyStr(s) => s != ""
  }

  /** `s.lstrip(c)`: drops every leading occurrence of `c`, and nothing else. */
  function LStrip(s: string, c: char): (r: string)
    ensures |r| <= |s| && r == s[|s| - |r|..]
    ensures r == [] || r[0] != c
    ensures forall i :: 0 <= i < |s| - |r| ==> s[i] == c
  {
    if |s| > 0 && s[0] == c then LStrip(s[1..], c) else s
  }

  /** `sep.join(pieces)` for a non-empty list of pieces. */
  function Join(pieces: seq<string>, sep: char): string
    requires |pieces| >= 1
  {
    if |pieces| == 1 then pieces[0] else pieces[0] + [sep] + Join(pieces[1..], sep)
  }

  /**
    `s.split(sep)`: the maximal pieces between separators, always at least
    one (the empty string splits into one empty piece); joining them back
    with `sep` gives `s`.
  */
  function Split(s: string, sep: char): (r: seq<string>)
    ensures |r| >= 1
    ensures forall i :: 0 <= i < |r| ==> sep !in r[i]
    ensures Join(r, sep) == s
  {
    if s == [] then [[]]
    else
      var rest := Split(s[1..], sep);
      if s[0] == sep then [[]] + rest
      else [[s[0]] + rest[0]] + rest[1..]
  }

  predicate IsDigit(c: char) {
    '0' <= c <= '9'
  }

  predicate AllDigits(s: string) {
    forall i :: 0 <= i < |s| ==> IsDigit(s[i])
  }

  function DigitValue(c: char): nat
    requires IsDigit(c)
  {
    c as int - '0' as int
  }

  function DigitChar(d: nat): char
    requires d < 10
  {
    ('0' as int + d) as char
  }

  /** The value of a string of decimal digits, most significant first. */
  function DigitsValue(s: string): nat
    requires AllDigits(s)
  {
    if s == [] then 0 else DigitsValue(s[..|s| - 1]) * 10 + DigitValue(s[|s| - 1])
  }

  /** `int(s)` restricted to a plain non-empty run of decimal digits; `None` for anything else. */
  function ParseDigits(s: string): (r: Option<nat>)
    ensures r.Some? <==> |s| > 0 && AllDigits(s)
  {
    if |s| > 0 && AllDigits(s) then Some(DigitsValue(s)) else None
  }

  /** `str(n)` for a natural number: its shortest decimal representation. */
  function NatToDigits(n: nat): (r: string)
    ensures |r| >= 1 && AllDigits(r)
    ensures r[0] != '0' || n == 0
  {
    if n < 10 then [DigitChar(n)] else NatToDigits(n / 10) + [DigitChar(n % 10)]
  }

  /** `str(i)` for any integer. */
  function IntToString(i: int): string {
    if i < 0 then "-" + NatToDigits(-i) else NatToDigits(i)
  }

  /** `int(s)` on a string: an optional sign followed by decimal digits. */
  function ParseInt(s: string): (r: Option<int>)
    ensures r.Some? <==> (|s| > 0 && AllDigits(s)) || (|s| > 1 && (s[0] == '-' || s[0] == '+') && AllDigits(s[1..]))
    ensures r.Some? && r.value < 0 ==> s[0] == '-'
  {
    if |s| > 0 && (s[0] == '-' || s[0] == '+') then
      match ParseDigits(s[1..])
      case Some(n) => Some(if s[0] == '-' then 0 - n as int else n as int)
      case None => None
    else
      match ParseDigits(s)
      case Some(n) => Some(n as int)
      case None => None
  }

  /**
    `int(v)` on a configuration value; `None` where Python raises ValueError or
    TypeError. A float is truncated toward zero.
  */
  function IntOf(v: PyValue): (r: Option<int>)
    ensures v.PyNone? ==> r.None?
    ensures v.PyFloat? && v.r >= 0.0 ==> r.Some? && r.value as real <= v.r < r.value as real + 1.0
    ensures v.PyFloat? && v.r < 0.0 ==> r.Some? && r.value as real - 1.0 < v.r <= r.value as real
  {
    match v
    case PyNone => None
    case PyBool(b) => Some(if b then 1 else 0)
    case PyInt(i) => Some(i)
    case PyFloat(x) => Some(if x >= 0.0 then x.Floor else 0 - (0.0 - x).Floor)
    case PyStr(s) => ParseInt(s)
  }

  /** Appending text that does not start with `c` commutes with `lstrip(c)`. */
  lemma {:induction false} LStripAppend(x: string, y: string, c: char)
    requires |y| > 0 && y[0] != c
    ensures LStrip(x + y, c) == LStrip(x, c) + y
  {
    if |x| > 0 && x[0] == c {
      assert (x + y)[1..] == x[1..] + y;
      LStripAppend(x[1..], y, c);
    } else if |x| == 0 {
      assert x + y == y;
    }
  }

  /** Any number of leading `c`s is stripped. */
  lemma {:induction false} LStripRepeated(k: nat, s: string, c: char)
    ensures LStrip(seq(k, _ => c) + s, c) == LStrip(s, c)
  {
    if k > 0 {
      var t, u := seq(k, _ => c) + s, seq(k - 1, _ => c) + s;
      assert |t| > 0 && t[0] == c;
      assert t[1..] == u;
      LStripRepeated(k - 1, s, c);
    } else {
      assert seq(k, _ => c) + s == s;
    }
  }

  /** Splitting at an explicit separator concatenates the splits of both sides. */
  lemma {:induction false} SplitConcat(x: string, y: string, sep: char)
    ensures Split(x + [sep] + y, sep) == Split(x, sep) + Split(y, sep)
  {
    if x == [] {
      assert (x + [sep] + y)[1..] == y;
    } else {
      assert (x + [sep] + y)[1..] == x[1..] + [sep] + y;
      SplitConcat(x[1..], y, sep);
    }
  }

  /** A string without the separator splits into itself alone. */
  lemma {:induction false} SplitNoSep(x: string, sep: char)
    requires sep !in x
    ensures Split(x, sep) == [x]
  {
    if x != [] {
      SplitNoSep(x[1..], sep);
      assert [x[0]] + x[1..] == x;
    }
  }

  /** Splitting undoes joining, when no piece contains the separator. */
  lemma {:induction false} SplitJoin(pieces: seq<string>, sep: char)
    requires |pieces| >= 1
    requires forall i :: 0 <= i < |pieces| ==> sep !in pieces[i]
    ensures Split(Join(pieces, sep), sep) == pieces
  {
    SplitNoSep(pieces[0], sep);
    if |pieces| > 1 {
      SplitJoin(pieces[1..], sep);
      SplitConcat(pieces[0], Join(pieces[1..], sep), sep);
      assert [pieces[0]] + pieces[1..] == pieces;
    }
  }

  /** A join of non-empty digit strings starts with a digit and holds only digits and separators. */
  lemma {:induction false} JoinOfDigits(pieces: seq<string>, sep: char)
    requires |pieces| >= 1
    requires forall i :: 0 <= i < |pieces| ==> |pieces[i]| >= 1 && AllDigits(pieces[i])
    ensures |Join(pieces, sep)| >= 1 && IsDigit(Join(pieces, sep)[0])
    ensures forall i :: 0 <= i < |Join(pieces, sep)| ==> IsDigit(Join(pieces, sep)[i]) || Join(pieces, sep)[i] == sep
  {
    if |pieces| > 1 {
      JoinOfDigits(pieces[1..], sep);
    }
  }

  /** `int(str(n)) == n`. */
  lemma {:induction false} ParseDigitsRoundTrip(n: nat)
    ensures ParseDigits(NatToDigits(n)) == Some(n)
  {
    DigitsValueOfNat(n);
  }

  lemma {:induction false} DigitsValueOfNat(n: nat)
    ensures DigitsValue(NatToDigits(n)) == n
  {
    var s := NatToDigits(n);
    if n >= 10 {
      DigitsValueOfNat(n / 10);
      assert s[..|s| - 1] == NatToDigits(n / 10);
    } else {
      assert s[..|s| - 1] == [];
    }
  }

  /** A digit string that starts with a non-zero digit has a positive value. */
  lemma {:induction false} DigitsPositive(s: string)
    requires |s| > 0 && AllDigits(s) && s[0] != '0'
    ensures DigitsValue(s) > 0
  {
    if |s| > 1 {
      var init := s[..|s| - 1];
      assert init[0] == s[0];
      DigitsPositive(init);
    }
  }

  /** `str(int(s)) == s` for a digit string without leading zeros. */
  lemma ParseDigitsCanonical(s: string)
    requires ParseDigits(s).Some?
    ensures (s[0] != '0' || |s| == 1) ==> NatToDigits(ParseDigits(s).value) == s
  {
    CanonicalDigits(s);
  }

  /** The same fact on the digit value, by induction on the length of `s`. */
  lemma {:induction false} CanonicalDigits(s: string)
    requires |s| > 0 && AllDigits(s)
    ensures (s[0] != '0' || |s| == 1) ==> NatToDigits(DigitsValue(s)) == s
  {
    if s[0] != '0' || |s| == 1 {
      var init, d := s[..|s| - 1], DigitValue(s[|s| - 1]);
      var n := DigitsValue(s);
      assert n == DigitsValue(init) * 10 + d;
      assert DigitChar(d) == s[|s| - 1];
      if |s| == 1 {
        assert init == [];
        assert [s[0]] == s;
      } else {
        assert init[0] == s[0];
        CanonicalDigits(init);
        DigitsPositive(init);
        assert n / 10 == DigitsValue(init) && n % 10 == d;
        assert init + [s[|s| - 1]] == s;
      }
    }
  }

  /** `int(str(i)) == i` for every integer. */
  lemma ParseIntRoundTrip(i: int)
    ensures ParseInt(IntToString(i)) == Some(i)
  {
    if i < 0 {
      assert IntToString(i)[1..] == NatToDigits(-i);
      ParseDigitsRoundTrip(-i);
    } else {
      ParseDigitsRoundTrip(i);
    }
  }
}
