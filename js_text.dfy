/** The string operations of JavaScript the source uses: `trim`, `toUpperCase`,
    number-to-text, `parseInt(s, 10)`, `padStart` and `join`. */
module JsText {
  import opened Wrappers
  import opened Js

  /** The characters `trim` and `parseInt` skip: WhiteSpace and LineTerminator
      of ECMAScript (section 12.2 and 12.3 of ECMA-262). */
  predicate IsWhiteSpace(c: char) {
    c == '\t' || c == '\n' || c == '\U{B}' || c == '\U{C}' || c == '\r' || c == ' '
    || c == '\U{A0}' || c == '\U{1680}' || ('\U{2000}' <= c <= '\U{200A}')
    || c == '\U{2028}' || c == '\U{2029}' || c == '\U{202F}' || c == '\U{205F}'
    || c == '\U{3000}' || c == '\U{FEFF}'
  }

  function TrimStart(s: string): (r: string)
    ensures |r| <= |s| && r == s[|s| - |r|..]
    ensures r != [] ==> !IsWhiteSpace(r[0])
    ensures forall i | 0 <= i < |s| - |r| :: IsWhiteSpace(s[i])
    decreases |s|
  {
    if s != [] && IsWhiteSpace(s[0]) then TrimStart(s[1..]) else s
  }

  function TrimEnd(s: string): (r: string)
    ensures |r| <= |s| && r == s[..|r|]
    ensures r != [] ==> !IsWhiteSpace(r[|r| - 1])
    ensures forall i | |r| <= i < |s| :: IsWhiteSpace(s[i])
    decreases |s|
  {
    if s != [] && IsWhiteSpace(s[|s| - 1]) then TrimEnd(s[..|s| - 1]) else s
  }

  /** `s.trim()` */
  function Trim(s: string): string {
    TrimEnd(TrimStart(s))
  }

  /** A string trims to nothing exactly when every character is white space. */
  lemma TrimEmptyIffBlank(s: string)
    ensures Trim(s) == "" <==> forall i | 0 <= i < |s| :: IsWhiteSpace(s[i])
  {
    var t := TrimStart(s);
    if Trim(s) == "" {
      forall i | 0 <= i < |s| ensures IsWhiteSpace(s[i]) {
        if i >= |s| - |t| {
          assert s[i] == t[i - (|s| - |t|)];
        }
      }
    } else {
      var r := Trim(s);
      assert !IsWhiteSpace(r[0]) by {
        if t != [] { assert r[0] == t[0]; }
      }
      assert r[0] == s[|s| - |t|];
    }
  }

  function UpperChar(c: char): char {
    if 'a' <= c <= 'z' then (c as int - 32) as char else c
  }

  /** `s.toUpperCase()` on the Latin letters a-z. */
  function ToUpper(s: string): (r: string)
    ensures |r| == |s|
    ensures forall i | 0 <= i < |s| :: r[i] == UpperChar(s[i])
  {
    seq(|s|, i requires 0 <= i < |s| => UpperChar(s[i]))
  }

  lemma ToUpperIdempotent(s: string)
    ensures ToUpper(ToUpper(s)) == ToUpper(s)
  {
  }

  predicate IsDigit(c: char) {
    '0' <= c <= '9'
  }

  function DigitChar(d: nat): char
    requires d < 10
  {
    ('0' as int + d) as char
  }

  /** The decimal text of a natural number, without leading zeros. */
  function NatToString(n: nat): (r: string)
    ensures |r| >= 1
    ensures forall i | 0 <= i < |r| :: IsDigit(r[i])
    decreases n
  {
    if n < 10 then [DigitChar(n)] else NatToString(n / 10) + [DigitChar(n % 10)]
  }

  /** `String(n)` / `${n}` for an integer-valued number. */
  function IntToString(n: int): string {
    if n < 0 then "-" + NatToString(-n) else NatToString(n)
  }

  /** The value of a string of decimal digits, read left to right. */
  function DigitsValue(d: string): nat
    requires forall i | 0 <= i < |d| :: IsDigit(d[i])
    decreases |d|
  {
    if d == [] then 0 else DigitsValue(d[..|d| - 1]) * 10 + DigitValue(d[|d| - 1])
  }

  function DigitValue(c: char): nat
    requires IsDigit(c)
  {
    c as int - '0' as int
  }

  /** The number of leading decimal digits of `s`. */
  function DigitRun(s: string): (k: nat)
    ensures k <= |s|
    ensures forall i | 0 <= i < k :: IsDigit(s[i])
    ensures k < |s| ==> !IsDigit(s[k])
    decreases |s|
  {
    if s != [] && IsDigit(s[0]) then 1 + DigitRun(s[1..]) else 0
  }

  /** The number written by the digits at the front of `body`, if it starts with one. */
  function LeadingDigits(body: string): (r: Option<int>)
    ensures r.None? <==> body == [] || !IsDigit(body[0])
  {
    var k := DigitRun(body);
    if k == 0 then None else Some(DigitsValue(body[..k]) as int)
  }

  function Negated(r: Option<int>): Option<int> {
    match r
    case None => None
    case Some(v) => Some(-v)
  }

  /** `parseInt(s, 10)`: skip leading white space, read an optional sign and the
      longest run of decimal digits after it; `None` stands for NaN (no digits). */
  function ParseInt(s: string): (r: Option<int>)
    ensures r.None? <==> var t := TrimStart(s);
      var body := if t != [] && (t[0] == '-' || t[0] == '+') then t[1..] else t;
      body == [] || !IsDigit(body[0])
  {
    var t := TrimStart(s);
    if t != [] && t[0] == '-' then Negated(LeadingDigits(t[1..]))
    else if t != [] && t[0] == '+' then LeadingDigits(t[1..])
    else LeadingDigits(t)
  }

  lemma {:induction false} DigitsValueOfNatToString(n: nat)
    ensures DigitsValue(NatToString(n)) == n
    decreases n
  {
    var d := NatToString(n);
    if n >= 10 {
      DigitsValueOfNatToString(n / 10);
      assert d[..|d| - 1] == NatToString(n / 10);
    }
  }

  lemma DigitRunOfDigits(d: string)
    requires forall i | 0 <= i < |d| :: IsDigit(d[i])
    ensures DigitRun(d) == |d|
  {
  }

  /** The digit run of digits followed by a non-digit ends where the digits end. */
  lemma {:induction false} DigitRunOfDigitsThen(d: string, rest: string)
    requires forall i | 0 <= i < |d| :: IsDigit(d[i])
    requires rest == [] || !IsDigit(rest[0])
    ensures DigitRun(d + rest) == |d|
    decreases |d|
  {
    if d != [] {
      assert (d + rest)[1..] == d[1..] + rest;
      DigitRunOfDigitsThen(d[1..], rest);
    } else {
      assert d + rest == rest;
    }
  }

  /** The leading digits of digits followed by a non-digit are those digits. */
  lemma LeadingDigitsThen(d: string, rest: string)
    requires d != [] && forall i | 0 <= i < |d| :: IsDigit(d[i])
    requires rest == [] || !IsDigit(rest[0])
    ensures LeadingDigits(d + rest) == Some(DigitsValue(d) as int)
  {
    DigitRunOfDigitsThen(d, rest);
    assert (d + rest)[..|d|] == d;
  }

  /** A string that does not start with white space is its own `trimStart`. */
  lemma TrimStartOfUnspaced(s: string)
    requires s != [] && !IsWhiteSpace(s[0])
    ensures TrimStart(s) == s
  {
  }

  /** Without white space or a sign, `parseInt` reads the leading digits. */
  lemma ParseIntOfUnsigned(t: string)
    requires t != [] && IsDigit(t[0])
    ensures ParseInt(t) == LeadingDigits(t)
  {
    TrimStartOfUnspaced(t);
  }

  /** A minus sign in front of leading digits worth `v` reads as `-v`. */
  lemma ParseIntOfMinus(s: string, v: int)
    requires |s| >= 2 && s[0] == '-' && IsDigit(s[1]) && LeadingDigits(s[1..]) == Some(v)
    ensures ParseInt(s) == Some(-v)
  {
    assert Negated(LeadingDigits(s[1..])) == Some(-v);
    TrimStartOfUnspaced(s);
  }

  /** The text of a natural number, followed by anything that does not start
      with a digit, starts with a digit and has that number as leading digits. */
  lemma LeadingDigitsOfNatToString(m: nat, rest: string)
    requires rest == [] || !IsDigit(rest[0])
    ensures IsDigit((NatToString(m) + rest)[0])
    ensures LeadingDigits(NatToString(m) + rest) == Some(m)
  {
    var d := NatToString(m);
    DigitsValueOfNatToString(m);
    LeadingDigitsThen(d, rest);
  }

  /** The text of a negative integer is a minus sign and the text of its magnitude. */
  lemma NegativeTextThen(n: int, rest: string)
    requires n < 0
    ensures var s := IntToString(n) + rest;
      |s| >= 1 && s[0] == '-' && s[1..] == NatToString(-n) + rest
  {
    var d := NatToString(-n);
    assert IntToString(n) == "-" + d;
    assert (IntToString(n) + rest)[1..] == d + rest;
  }

  /** `parseInt` reads the text of an integer back from the front of a string
      when what follows it does not start with a digit. */
  lemma ParseIntOfIntToStringThen(n: int, rest: string)
    requires rest == [] || !IsDigit(rest[0])
    ensures ParseInt(IntToString(n) + rest) == Some(n)
  {
    if n < 0 {
      ParseIntOfNegativeThen(n, rest);
    } else {
      LeadingDigitsOfNatToString(n, rest);
      ParseIntOfUnsigned(NatToString(n) + rest);
    }
  }

  /** The negative case: a minus sign, then the magnitude's digits. */
  lemma ParseIntOfNegativeThen(n: int, rest: string)
    requires n < 0
    requires rest == [] || !IsDigit(rest[0])
    ensures ParseInt(IntToString(n) + rest) == Some(n)
  {
    NegativeTextThen(n, rest);
    LeadingDigitsOfNatToString(-n, rest);
    ParseIntOfMinus(IntToString(n) + rest, -n);
  }

  /** Reading back the text of an integer gives that integer. */
  lemma ParseIntOfIntToString(n: int)
    ensures ParseInt(IntToString(n)) == Some(n)
  {
    ParseIntOfIntToStringThen(n, []);
    assert IntToString(n) + [] == IntToString(n);
  }

  /** The text of distinct integers differs. */
  lemma IntToStringInjective(a: int, b: int)
    requires IntToString(a) == IntToString(b)
    ensures a == b
  {
    ParseIntOfIntToString(a);
    ParseIntOfIntToString(b);
  }

  function Repeat(c: char, n: nat): (r: string)
    ensures |r| == n
    ensures forall i | 0 <= i < n :: r[i] == c
  {
    seq(n, _ => c)
  }

  /** `s.padStart(width, fill)` for a one-character `fill`. */
  function PadStart(s: string, width: nat, fill: char): (r: string)
    ensures |r| == if |s| < width then width else |s|
    ensures r[|r| - |s|..] == s
    ensures forall i | 0 <= i < |r| - |s| :: r[i] == fill
  {
    if |s| < width then Repeat(fill, width - |s|) + s else s
  }

  lemma {:induction false} DigitsValueLeadingZeros(k: nat, d: string)
    requires forall i | 0 <= i < |d| :: IsDigit(d[i])
    ensures forall i | 0 <= i < k + |d| :: IsDigit((Repeat('0', k) + d)[i])
    ensures DigitsValue(Repeat('0', k) + d) == DigitsValue(d)
    decreases |d|
  {
    var z := Repeat('0', k) + d;
    if d == [] {
      ZerosValue(k);
      assert z == Repeat('0', k);
    } else {
      DigitsValueLeadingZeros(k, d[..|d| - 1]);
      assert z[..|z| - 1] == Repeat('0', k) + d[..|d| - 1];
    }
  }

  lemma {:induction false} ZerosValue(k: nat)
    ensures DigitsValue(Repeat('0', k)) == 0
    decreases k
  {
    if k > 0 {
      ZerosValue(k - 1);
      assert Repeat('0', k)[..k - 1] == Repeat('0', k - 1);
    }
  }

  /** A non-empty run of digits reads back as its decimal value. */
  lemma ParseIntOfDigits(s: string)
    requires s != [] && forall i | 0 <= i < |s| :: IsDigit(s[i])
    ensures ParseInt(s) == Some(DigitsValue(s))
  {
    ParseIntOfUnsigned(s);
    LeadingDigitsThen(s, []);
    assert s + [] == s;
  }

  /** Zero-padding the text of a natural number does not change the number read back. */
  lemma ParseIntOfPadded(n: nat, width: nat)
    ensures ParseInt(PadStart(IntToString(n), width, '0')) == Some(n)
  {
    var d := NatToString(n);
    var k: nat := if |d| < width then width - |d| else 0;
    var s := PadStart(d, width, '0');
    assert s == Repeat('0', k) + d;
    DigitsValueLeadingZeros(k, d);
    ParseIntOfDigits(s);
    DigitsValueOfNatToString(n);
  }

  /** `String(v)`, the text a value turns into when it is made an error message
      or interpolated: arrays join their elements with "," (null and undefined
      elements give nothing) and every object gives "[object Object]". */
  function ValueToString(v: Value): (r: string)
    ensures v.Str? ==> r == v.s
    ensures v.Num? ==> r == IntToString(v.n)
    decreases v
  {
    match v
    case Undefined => "undefined"
    case Null => "null"
    case Bool(b) => if b then "true" else "false"
    case Num(n) => IntToString(n)
    case Str(s) => s
    case Arr(elems) =>
      Join(seq(|elems|, i requires 0 <= i < |elems| =>
        if Nullish(elems[i]) then "" else ValueToString(elems[i])), ",")
    case Obj(_) => "[object Object]"
  }

  /** `xs.join(sep)` */
  function Join(xs: seq<string>, sep: string): (r: string)
    ensures xs == [] ==> r == ""
    ensures |xs| == 1 ==> r == xs[0]
    decreases |xs|
  {
    if xs == [] then "" else if |xs| == 1 then xs[0] else xs[0] + sep + Join(xs[1..], sep)
  }

  /** Joining extends at the end one element at a time: a left-to-right
      characterisation of `join` that mirrors its right-to-left definition. */
  lemma {:induction false} JoinSnoc(xs: seq<string>, x: string, sep: string)
    requires xs != []
    ensures Join(xs + [x], sep) == Join(xs, sep) + sep + x
    decreases |xs|
  {
    if |xs| == 1 {
      assert (xs + [x])[1..] == [x];
    } else {
      assert (xs + [x])[1..] == xs[1..] + [x];
      JoinSnoc(xs[1..], x, sep);
    }
  }

  /** The joined text is as long as the parts plus one separator between each two. */
  lemma {:induction false} JoinLength(xs: seq<string>, sep: string)
    requires xs != []
    ensures |Join(xs, sep)| == TotalLength(xs) + (|xs| - 1) * |sep|
    decreases |xs|
  {
    if |xs| > 1 {
      JoinLength(xs[1..], sep);
    }
  }

  function TotalLength(xs: seq<string>): nat
    decreases |xs|
  {
    if xs == [] then 0 else |xs[0]| + TotalLength(xs[1..])
  }
}
