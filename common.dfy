/** Helpers shared by the page models: optional values (JavaScript's `null` and
    `undefined`, which `??` treats alike), the signed-in user as the identity
    service hands it over, string falsiness, `split("@")[0]`, `trim()`, number
    text, and the rounding of `Math.round`, `Math.ceil` and `toFixed(2)`. */
module Common {

  datatype Option<T> = None | Some(value: T) {
    /** `x ?? default` */
    function GetOr(default: T): T {
      match this
      case Some(v) => v
      case None => default
    }
  }

  /** The user object of the identity service, reduced to what the pages read:
      its id, its email (possibly missing) and `user_metadata.name`. */
  datatype AuthUser = AuthUser(id: string, email: Option<string>, metadataName: Option<string>)

  /** `a || b` on two strings: the empty string is falsy. */
  function Or(a: string, b: string): (r: string)
    ensures a != [] ==> r == a
    ensures a == [] ==> r == b
  {
    if a != [] then a else b
  }

  /** `s.split("@")[0]`: the text before the first '@', or all of `s` when it
      has none. */
  function BeforeAt(s: string): (r: string)
    ensures r <= s
    ensures '@' !in r
    ensures |r| < |s| ==> s[|r|] == '@'
    ensures r == [] <==> (s == [] || s[0] == '@')
    decreases |s|
  {
    if s == [] || s[0] == '@' then [] else [s[0]] + BeforeAt(s[1..])
  }

  /** `name || email?.split("@")[0] || ""`, the display-name fallback of the
      sign-in and sign-up pages. */
  function NameOrEmailPrefix(name: string, email: Option<string>): (r: string)
    ensures name != [] ==> r == name
    ensures name == [] && email.None? ==> r == []
    ensures name == [] && email.Some? ==> r <= email.value && '@' !in r
    ensures name == [] && email.Some? ==> (|r| < |email.value| ==> email.value[|r|] == '@')
    ensures r == [] <==> name == [] && (email.None? || email.value == [] || email.value[0] == '@')
  {
    Or(Or(name, match email case Some(e) => BeforeAt(e) case None => []), [])
  }

  /** The characters `String.prototype.trim` removes that this model knows:
      ASCII white space, no-break space, the byte-order mark and the two
      Unicode line terminators. */
  predicate IsSpace(c: char) {
    c == ' ' || c == '\t' || c == '\n' || c == '\r' || c == '\U{B}' || c == '\U{C}'
    || c == '\U{A0}' || c == '\U{FEFF}' || c == '\U{2028}' || c == '\U{2029}'
  }

  /** Number of white-space characters at the start of `s`. */
  function Leading(s: string): (k: nat)
    ensures k <= |s|
    ensures forall i :: 0 <= i < k ==> IsSpace(s[i])
    ensures k < |s| ==> !IsSpace(s[k])
  {
    if s == [] || !IsSpace(s[0]) then 0 else 1 + Leading(s[1..])
  }

  /** Number of white-space characters at the end of `s`. */
  function Trailing(s: string): (k: nat)
    ensures k <= |s|
    ensures forall i :: |s| - k <= i < |s| ==> IsSpace(s[i])
    ensures k < |s| ==> !IsSpace(s[|s| - 1 - k])
  {
    if s == [] || !IsSpace(s[|s| - 1]) then 0 else 1 + Trailing(s[..|s| - 1])
  }

  ghost predicate AllSpace(s: string) {
    forall i :: 0 <= i < |s| ==> IsSpace(s[i])
  }

  /** `s.trim()` */
  function Trim(s: string): (r: string)
    ensures |r| <= |s|
    ensures r == [] <==> AllSpace(s)
    ensures r != [] ==> !IsSpace(r[0]) && !IsSpace(r[|r| - 1])
    ensures s != [] && !IsSpace(s[0]) && !IsSpace(s[|s| - 1]) ==> r == s
  {
    var rest := s[Leading(s)..];
    rest[..|rest| - Trailing(rest)]
  }

  /** `!s.trim()`: the string is empty or white space only. */
  predicate IsBlank(s: string) {
    Trim(s) == []
  }

  function DigitChar(d: nat): (c: char)
    requires d < 10
    ensures '0' <= c <= '9'
  {
    "0123456789"[d]
  }

  function DigitValue(c: char): nat
  {
    if '0' <= c <= '9' then (c as int - '0' as int) as nat else 0
  }

  /** The decimal digits of `n`, most significant first. */
  function Digits(n: nat): (r: string)
    ensures r != []
    ensures forall i :: 0 <= i < |r| ==> '0' <= r[i] <= '9'
    decreases n
  {
    if n < 10 then [DigitChar(n)] else Digits(n / 10) + [DigitChar(n % 10)]
  }

  /** The value of a string of decimal digits (the reading back of `Digits`). */
  function ParseDigits(s: string): nat
  {
    if s == [] then 0 else 10 * ParseDigits(s[..|s| - 1]) + DigitValue(s[|s| - 1])
  }

  lemma {:induction false} DigitsRoundTrip(n: nat)
    ensures ParseDigits(Digits(n)) == n
    decreases n
  {
    if n >= 10 {
      var s := Digits(n);
      assert s[..|s| - 1] == Digits(n / 10);
      DigitsRoundTrip(n / 10);
      assert DigitValue(DigitChar(n % 10)) == n % 10 by {
        assert "0123456789"[n % 10] as int - '0' as int == n % 10;
      }
    } else {
      assert DigitValue(DigitChar(n)) == n by {
        assert "0123456789"[n] as int - '0' as int == n;
      }
    }
  }

  /** `String(n)` for an integer number. */
  function IntText(n: int): (r: string)
    ensures r != []
    ensures r[0] == '-' || '0' <= r[0] <= '9'
    ensures r[0] == '-' <==> n < 0
  {
    if n < 0 then "-" + Digits(-n) else Digits(n)
  }

  /** Different numbers have different digit strings. */
  lemma DigitsInjective(a: nat, b: nat)
    requires a != b
    ensures Digits(a) != Digits(b)
  {
    DigitsRoundTrip(a);
    DigitsRoundTrip(b);
  }

  /** Different numbers have different texts, so ids built from different
      clock readings differ. */
  lemma IntTextInjective(a: int, b: int)
    requires a != b
    ensures IntText(a) != IntText(b)
  {
    var ta, tb := IntText(a), IntText(b);
    if a < 0 && b < 0 {
      assert ta == "-" + Digits(-a) && tb == "-" + Digits(-b);
      assert ta[1..] == Digits(-a) && tb[1..] == Digits(-b);
      DigitsInjective(-a, -b);
    } else if a >= 0 && b >= 0 {
      assert ta == Digits(a) && tb == Digits(b);
      DigitsInjective(a, b);
    } else {
      assert (ta[0] == '-') != (tb[0] == '-');
    }
  }

  /** `Math.round(x)`: the nearest integer, a half rounded up. */
  function Round(x: real): (r: int)
    ensures r as real - 0.5 <= x < r as real + 0.5
  {
    (x + 0.5).Floor
  }

  /** `Math.ceil(x)`: the least integer not below `x`. */
  function Ceil(x: real): (r: int)
    ensures r as real - 1.0 < x <= r as real
  {
    -((-x).Floor)
  }

  /** `x.toFixed(2)` read as a whole number of hundredths: the nearest one, a
      half rounded away from zero. */
  function Cents(x: real): (c: int)
    ensures -0.5 <= c as real - x * 100.0 <= 0.5
    ensures x >= 0.0 ==> c >= 0
    ensures x <= 0.0 ==> c <= 0
  {
    if x < 0.0 then -Round(-x * 100.0) else Round(x * 100.0)
  }

  /** `Number(x.toFixed(2))` over exact reals. */
  function Fixed2(x: real): (r: real)
    ensures -0.005 <= r - x <= 0.005
    ensures x >= 0.0 ==> r >= 0.0
    ensures x <= 0.0 ==> r <= 0.0
    ensures r * 100.0 == Cents(x) as real
  {
    Cents(x) as real / 100.0
  }
}
