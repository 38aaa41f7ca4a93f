/** Rendering and reading dates as text, as `datetime.strftime` and
    `datetime.strptime` do for the two formats the scripts use: the extended
    calendar-date form `%Y-%m-%d` (ISO 8601 `YYYY-MM-DD`) and the basic form
    `%Y%m%d` (`YYYYMMDD`). Digits are the ASCII digits. */
module DateFormat {
  import opened Wrappers
  import opened Calendar

  predicate IsDigit(c: char) { '0' <= c <= '9' }

  predicate AllDigits(s: string) {
    forall i :: 0 <= i < |s| ==> IsDigit(s[i])
  }

  function DigitValue(c: char): int
    requires IsDigit(c)
  {
    c as int - '0' as int
  }

  function Digit(n: int): (c: char)
    requires 0 <= n <= 9
    ensures IsDigit(c) && DigitValue(c) == n
  {
    ('0' as int + n) as char
  }

  /** The value of a string of decimal digits, most significant first. */
  function Number(s: string): nat
    requires AllDigits(s)
  {
    if s == [] then 0 else 10 * Number(s[..|s| - 1]) + DigitValue(s[|s| - 1])
  }

  /** Zero-padded renderings (`%m`, `%d` and `%Y`). */
  function Pad2(n: int): (s: string)
    requires 0 <= n <= 99
    ensures |s| == 2 && AllDigits(s) && Number(s) == n
  {
    var s := [Digit(n / 10), Digit(n % 10)];
    NumberOfTwo(s);
    s
  }

  function Pad4(n: int): (s: string)
    requires 0 <= n <= 9999
    ensures |s| == 4 && AllDigits(s) && Number(s) == n
  {
    var s := Pad2(n / 100) + Pad2(n % 100);
    NumberOfFour(s);
    s
  }

  lemma NumberOfFour(s: string)
    requires |s| == 4 && AllDigits(s)
    ensures Number(s) == 100 * Number(s[..2]) + Number(s[2..])
  {
    var hi, lo, three := s[..2], s[2..], s[..3];
    NumberOfTwo(hi);
    NumberOfTwo(lo);
    assert three[..2] == hi && three[2] == s[2] && s[..|s| - 1] == three;
    assert Number(three) == 10 * Number(hi) + DigitValue(s[2]);
    assert Number(s) == 10 * Number(three) + DigitValue(s[3]);
  }

  /** `date.strftime('%Y-%m-%d')`. */
  function ExtendedForm(d: Date): (s: string)
    requires IsValid(d)
    ensures |s| == 10 && s[4] == '-' && s[7] == '-'
  {
    Pad4(d.year) + "-" + Pad2(d.month) + "-" + Pad2(d.day)
  }

  /** `date.strftime('%Y%m%d')`. */
  function BasicForm(d: Date): (s: string)
    requires IsValid(d)
    ensures |s| == 8 && AllDigits(s)
  {
    Pad4(d.year) + Pad2(d.month) + Pad2(d.day)
  }

  /** The string with every hyphen removed. */
  function WithoutHyphens(s: string): (r: string)
    ensures |r| <= |s| && '-' !in r
    ensures forall c :: c != '-' ==> multiset(r)[c] == multiset(s)[c]
  {
    if s == [] then []
    else
      assert s == [s[0]] + s[1..];
      (if s[0] == '-' then [] else [s[0]]) + WithoutHyphens(s[1..])
  }

  lemma {:induction false} WithoutHyphensAppend(a: string, b: string)
    ensures WithoutHyphens(a + b) == WithoutHyphens(a) + WithoutHyphens(b)
    decreases |a|
  {
    if a != [] {
      var head := if a[0] == '-' then [] else [a[0]];
      assert (a + b)[0] == a[0] && (a + b)[1..] == a[1..] + b;
      WithoutHyphensAppend(a[1..], b);
      calc {
        WithoutHyphens(a + b);
        head + WithoutHyphens(a[1..] + b);
        head + (WithoutHyphens(a[1..]) + WithoutHyphens(b));
        (head + WithoutHyphens(a[1..])) + WithoutHyphens(b);
        WithoutHyphens(a) + WithoutHyphens(b);
      }
    } else {
      assert a + b == b;
    }
  }

  lemma {:induction false} WithoutHyphensDigits(s: string)
    requires AllDigits(s)
    ensures WithoutHyphens(s) == s
    decreases |s|
  {
    if s != [] {
      WithoutHyphensDigits(s[1..]);
    }
  }

  /** The basic form is the extended form with its hyphens removed. */
  lemma BasicIsExtendedWithoutHyphens(d: Date)
    requires IsValid(d)
    ensures BasicForm(d) == WithoutHyphens(ExtendedForm(d))
  {
    var y, m, dd := Pad4(d.year), Pad2(d.month), Pad2(d.day);
    WithoutHyphensDigits(y);
    WithoutHyphensDigits(m);
    WithoutHyphensDigits(dd);
    assert WithoutHyphens("-") == [];
    var a := y + "-";
    WithoutHyphensAppend(y, "-");
    assert WithoutHyphens(a) == y;
    var b := a + m;
    WithoutHyphensAppend(a, m);
    assert WithoutHyphens(b) == y + m;
    var c := b + "-";
    WithoutHyphensAppend(b, "-");
    assert WithoutHyphens(c) == y + m;
    WithoutHyphensAppend(c, dd);
    assert ExtendedForm(d) == c + dd;
  }

  /** The `%m` directive of `strptime`: the regular expression
      `1[0-2]|0[1-9]|[1-9]` at position `i`, alternatives tried in order.
      Gives the month and the position after it. Backtracking into a later
      alternative never rescues a match here, because what follows the month
      in `%Y-%m-%d` is a hyphen and a shorter month would leave a digit in
      its place. */
  function MatchMonth(s: string, i: nat): (r: Option<(int, nat)>)
    ensures r.Some? ==> 1 <= r.value.0 <= 12 && i < r.value.1 <= |s|
  {
    if i + 1 < |s| && s[i] == '1' && '0' <= s[i + 1] <= '2' then Some((10 + DigitValue(s[i + 1]), i + 2))
    else if i + 1 < |s| && s[i] == '0' && '1' <= s[i + 1] <= '9' then Some((DigitValue(s[i + 1]), i + 2))
    else if i < |s| && '1' <= s[i] <= '9' then Some((DigitValue(s[i]), i + 1))
    else None
  }

  /** The `%d` directive: `3[01]|[12]\d|0[1-9]|[1-9]| [1-9]`, alternatives tried
      in order. It ends the format, so the first alternative that matches is
      the one the match uses. */
  function MatchDay(s: string, i: nat): (r: Option<(int, nat)>)
    ensures r.Some? ==> 1 <= r.value.0 <= 31 && i < r.value.1 <= |s|
  {
    if i + 1 < |s| && s[i] == '3' && '0' <= s[i + 1] <= '1' then Some((30 + DigitValue(s[i + 1]), i + 2))
    else if i + 1 < |s| && '1' <= s[i] <= '2' && IsDigit(s[i + 1]) then Some((10 * DigitValue(s[i]) + DigitValue(s[i + 1]), i + 2))
    else if i + 1 < |s| && s[i] == '0' && '1' <= s[i + 1] <= '9' then Some((DigitValue(s[i + 1]), i + 2))
    else if i < |s| && '1' <= s[i] <= '9' then Some((DigitValue(s[i]), i + 1))
    else if i + 1 < |s| && s[i] == ' ' && '1' <= s[i + 1] <= '9' then Some((DigitValue(s[i + 1]), i + 2))
    else None
  }

  /** `datetime.strptime(s, '%Y-%m-%d')`: `None` where it raises `ValueError`
      (no match, unconverted data left over, or a day the month does not
      have, such as 2023-02-29, or the year 0000). */
  function ParseExtended(s: string): (r: Option<Date>)
    ensures r.Some? ==> IsValid(r.value)
  {
    if |s| < 5 || !AllDigits(s[..4]) || s[4] != '-' then None
    else
      match MatchMonth(s, 5)
      case None => None
      case Some((month, j)) =>
        if j >= |s| || s[j] != '-' then None
        else
          match MatchDay(s, j + 1)
          case None => None
          case Some((day, k)) =>
            var d := Date(Number(s[..4]), month, day);
            if k == |s| && IsValid(d) then Some(d) else None
  }

  /** The date that the digits of a `YYYY-MM-DD` string spell out, valid or not. */
  function SpelledDate(s: string): Date
    requires |s| == 10 && AllDigits(s[..4]) && AllDigits(s[5..7]) && AllDigits(s[8..])
  {
    Date(Number(s[..4]), Number(s[5..7]), Number(s[8..]))
  }

  lemma NumberOfTwo(s: string)
    requires |s| == 2 && AllDigits(s)
    ensures Number(s) == 10 * DigitValue(s[0]) + DigitValue(s[1])
  {
    var p := s[..1];
    assert p[..0] == [] && p[0] == s[0];
    assert Number(p) == 10 * Number(p[..0]) + DigitValue(s[0]);
    assert Number(s) == 10 * Number(p) + DigitValue(s[1]);
  }

  /** A string of the shape `DDDD-DD-DD` parses exactly when the date its
      digits spell exists, and then to that date: an impossible date raises. */
  lemma ParseExtendedOfShape(s: string)
    requires |s| == 10 && s[4] == '-' && s[7] == '-'
    requires AllDigits(s[..4]) && AllDigits(s[5..7]) && AllDigits(s[8..])
    ensures ParseExtended(s) == if IsValid(SpelledDate(s)) then Some(SpelledDate(s)) else None
  {
    assert IsDigit(s[5]) && IsDigit(s[6]) by { assert s[5] == s[5..7][0] && s[6] == s[5..7][1]; }
    assert IsDigit(s[8]) && IsDigit(s[9]) by { assert s[8] == s[8..][0] && s[9] == s[8..][1]; }
    NumberOfTwo(s[5..7]);
    NumberOfTwo(s[8..]);
  }

  /** Reading back what `%Y-%m-%d` rendered gives the same date. */
  lemma ParseExtendedRoundTrip(d: Date)
    requires IsValid(d)
    ensures ParseExtended(ExtendedForm(d)) == Some(d)
  {
    var s := ExtendedForm(d);
    assert s[..4] == Pad4(d.year);
    assert s[5..7] == Pad2(d.month);
    assert s[8..] == Pad2(d.day);
    ParseExtendedOfShape(s);
  }

  /** `datetime.strptime(token, '%Y%m%d')` on eight ASCII digits, the only
      strings it is given. With eight characters the regular expression
      `\d\d\d\d(1[0-2]|0[1-9]|[1-9])(3[01]|[12]\d|0[1-9]|[1-9]| [1-9])` leaves
      nothing unconverted only when month and day both take two digits, so the
      call succeeds exactly when `YYYY`, `MM`, `DD` name an existing date;
      otherwise it raises `ValueError` (`None`). */
  function ParseBasic(s: string): (r: Option<Date>)
    requires |s| == 8 && AllDigits(s)
    ensures r.Some? ==> IsValid(r.value)
  {
    var d := Date(Number(s[..4]), Number(s[4..6]), Number(s[6..]));
    if IsValid(d) then Some(d) else None
  }

  /** Two digits read and rendered again are the same two digits. */
  lemma PadTwoOfNumber(t: string)
    requires |t| == 2 && AllDigits(t)
    ensures Number(t) <= 99 && Pad2(Number(t)) == t
  {
    NumberOfTwo(t);
    var n := Number(t);
    assert n / 10 == DigitValue(t[0]) && n % 10 == DigitValue(t[1]);
    assert Digit(DigitValue(t[0])) == t[0] && Digit(DigitValue(t[1])) == t[1];
  }

  /** Four digits read and rendered again are the same four digits. */
  lemma PadFourOfNumber(t: string)
    requires |t| == 4 && AllDigits(t)
    ensures Number(t) <= 9999 && Pad4(Number(t)) == t
  {
    NumberOfFour(t);
    var hi, lo := t[..2], t[2..];
    PadTwoOfNumber(hi);
    PadTwoOfNumber(lo);
    var n := Number(t);
    assert n / 100 == Number(hi) && n % 100 == Number(lo);
    assert hi + lo == t;
  }

  /** Whatever `%Y%m%d` accepts is the rendering of the date it gives: with
      `ParseBasicRoundTrip`, the basic form and its reading are inverse on
      valid dates. */
  lemma BasicFormOfParse(s: string)
    requires |s| == 8 && AllDigits(s) && ParseBasic(s).Some?
    ensures BasicForm(ParseBasic(s).value) == s
  {
    var y, m, d := s[..4], s[4..6], s[6..];
    assert AllDigits(y) && AllDigits(m) && AllDigits(d);
    PadFourOfNumber(y);
    PadTwoOfNumber(m);
    PadTwoOfNumber(d);
    assert y + m + d == s;
  }

  /** Reading back what `%Y%m%d` rendered gives the same date. */
  lemma ParseBasicRoundTrip(d: Date)
    requires IsValid(d)
    ensures ParseBasic(BasicForm(d)) == Some(d)
  {
    var s := BasicForm(d);
    assert s[..4] == Pad4(d.year);
    assert s[4..6] == Pad2(d.month);
    assert s[6..] == Pad2(d.day);
  }
}
