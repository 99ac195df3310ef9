/**
 Text helpers shared by the modules: options, character classes and the
 decimal notation of `strconv.FormatInt` and `strconv.ParseInt`.
 */
module Text {

  datatype Option<+T> = None | Some(value: T) {
    function GetOr(default: T): T {
      match this
      case None => default
      case Some(v) => v
    }
  }

  // ---------- Character classes ----------

  predicate IsDigit(c: char) { '0' <= c <= '9' }

  predicate IsLowerHex(c: char) { IsDigit(c) || 'a' <= c <= 'f' }

  predicate IsLetter(c: char) { 'a' <= c <= 'z' || 'A' <= c <= 'Z' }

  /** The alphabet `[A-Za-z0-9_-]` of every identifier pattern. */
  predicate IsIdChar(c: char) { IsLetter(c) || IsDigit(c) || c == '_' || c == '-' }

  /** Unicode category Cc. */
  predicate IsControl(c: char) { c as int < 0x20 || 0x7F <= c as int < 0xA0 }

  /** Unicode White_Space. */
  predicate IsSpace(c: char) {
    var v := c as int;
    || 9 <= v <= 13 || v == 0x20 || v == 0x85 || v == 0xA0 || v == 0x1680
    || 0x2000 <= v <= 0x200A || v == 0x2028 || v == 0x2029 || v == 0x202F
    || v == 0x205F || v == 0x3000
  }

  /** `strings.TrimSpace(s) == s`. */
  predicate Trimmed(s: string) {
    s == "" || (!IsSpace(s[0]) && !IsSpace(s[|s| - 1]))
  }

  predicate HasPrefix(s: string, prefix: string) { prefix <= s }

  predicate HasSuffix(s: string, suffix: string) {
    |suffix| <= |s| && s[|s| - |suffix|..] == suffix
  }

  /** Length of `s` in UTF-8 bytes, Go's `len`. */
  function ByteLength(s: string): (n: nat)
    ensures n >= |s|
  {
    if s == "" then 0
    else
      var v := s[0] as int;
      (if v < 0x80 then 1 else if v < 0x800 then 2 else if v < 0x10000 then 3 else 4) + ByteLength(s[1..])
  }

  // ---------- Splitting ----------

  /** `strings.Split(s, string(separator))`. */
  function Split(s: string, separator: char): (parts: seq<string>)
    ensures |parts| >= 1
    ensures forall p | p in parts :: separator !in p
  {
    if s == "" then [""]
    else
      var rest := Split(s[1..], separator);
      if s[0] == separator then [""] + rest else [[s[0]] + rest[0]] + rest[1..]
  }

  /** Index of the first `c`, the length of `s` when there is none. */
  function IndexOf(s: string, c: char): (i: nat)
    ensures i <= |s| && (forall j | 0 <= j < i :: s[j] != c) && (i < |s| ==> s[i] == c)
  {
    if s == "" || s[0] == c then 0
    else 1 + IndexOf(s[1..], c)
  }

  /** Index of the last `c`, -1 when there is none. */
  function LastIndexOf(s: string, c: char): (i: int)
    ensures -1 <= i < |s| && (i >= 0 ==> s[i] == c) && forall j | i < j < |s| :: s[j] != c
  {
    if s == "" then -1
    else if s[|s| - 1] == c then |s| - 1
    else LastIndexOf(s[..|s| - 1], c)
  }

  // ---------- Text order ----------

  /** The order of `sort.Strings` on ASCII text. */
  predicate LexLess(a: string, b: string) {
    b != "" && (a == "" || a[0] < b[0] || (a[0] == b[0] && LexLess(a[1..], b[1..])))
  }

  lemma {:induction false} LexTotal(a: string, b: string)
    ensures a == b || LexLess(a, b) || LexLess(b, a)
  {
    if a != "" && b != "" && a[0] == b[0] {
      LexTotal(a[1..], b[1..]);
      assert a[1..] == b[1..] ==> a == [a[0]] + a[1..] == b;
    }
  }

  lemma {:induction false} LexIrreflexive(a: string)
    ensures !LexLess(a, a)
  {
    if a != "" { LexIrreflexive(a[1..]); }
  }

  lemma {:induction false} LexTransitive(a: string, b: string, c: string)
    requires LexLess(a, b) && LexLess(b, c)
    ensures LexLess(a, c)
  {
    if a != "" && a[0] == b[0] == c[0] { LexTransitive(a[1..], b[1..], c[1..]); }
  }

  // ---------- Decimal notation ----------

  /** `strconv.FormatInt(n, 10)` for n >= 0. */
  function Format(n: nat): (s: string)
    ensures s != "" && forall c :: c in s ==> IsDigit(c)
    ensures n > 0 ==> s[0] != '0'
  {
    if n < 10 then [DigitChar(n)] else Format(n / 10) + [DigitChar(n % 10)]
  }

  function DigitChar(d: nat): (c: char)
    requires d < 10
    ensures IsDigit(c)
  {
    ('0' as int + d) as char
  }

  function DigitValue(c: char): (d: nat)
    requires IsDigit(c)
    ensures d < 10 && DigitChar(d) == c
  {
    c as int - '0' as int
  }

  /** Value of a nonempty run of digits; the last digit is the least. */
  function Value(s: string): nat
    requires forall c :: c in s ==> IsDigit(c)
  {
    if s == "" then 0 else Value(s[..|s| - 1]) * 10 + DigitValue(s[|s| - 1])
  }

  predicate AllDigits(s: string) { s != "" && forall c :: c in s ==> IsDigit(c) }

  /** `strconv.ParseInt(s, 10, 64)` without its range error. */
  function ParseInt(s: string): Option<int> {
    if AllDigits(s) then Some(Value(s))
    else if s != "" && s[0] == '-' && AllDigits(s[1..]) then Some(0 - Value(s[1..]))
    else if s != "" && s[0] == '+' && AllDigits(s[1..]) then Some(Value(s[1..]))
    else None
  }

  lemma {:induction false} ValueOfFormat(n: nat)
    ensures Value(Format(n)) == n
  {
    if n < 10 {
      assert Format(n)[..0] == "";
    } else {
      ValueOfFormat(n / 10);
      var s := Format(n);
      assert s[..|s| - 1] == Format(n / 10);
    }
  }

  /** A numeral without a leading zero is the one `Format` prints. */
  lemma {:induction false} FormatOfValue(s: string)
    requires AllDigits(s) && (|s| > 1 ==> s[0] != '0')
    ensures Format(Value(s)) == s
    ensures s[0] != '0' ==> Value(s) > 0
  {
    var front := s[..|s| - 1];
    if front == "" {
      assert Value(front) == 0;
      assert s == [s[0]];
    } else {
      assert forall c :: c in front ==> c in s;
      FormatOfValue(front);
      assert Value(s) / 10 == Value(front) && Value(s) % 10 == DigitValue(s[|s| - 1]);
      assert s == front + [s[|s| - 1]];
    }
  }

  /** Parsing inverts printing, and a canonical numeral is what printing gives back. */
  lemma DecimalRoundTrip(n: nat)
    ensures ParseInt(Format(n)) == Some(n)
  {
    ValueOfFormat(n);
  }

  /** `strconv.FormatInt(n, 10)`. */
  function FormatInt(n: int): string {
    if n < 0 then "-" + Format(-n) else Format(n)
  }

  lemma IntRoundTrip(n: int)
    ensures ParseInt(FormatInt(n)) == Some(n)
  {
    ValueOfFormat(if n < 0 then -n else n);
    if n < 0 {
      var s := FormatInt(n);
      assert s[0] == '-' && s[0] in s && s[1..] == Format(-n);
    }
  }

  lemma FormatInjective(a: nat, b: nat)
    requires Format(a) == Format(b)
    ensures a == b
  {
    ValueOfFormat(a);
    ValueOfFormat(b);
  }

  lemma {:induction false} FormatLength(n: nat, k: nat)
    requires k >= 1 && n < Pow10(k)
    ensures |Format(n)| <= k
    decreases k
  {
    if n >= 10 {
      assert k > 1 by { assert Pow10(1) == 10 * Pow10(0); }
      FormatLength(n / 10, k - 1);
    }
  }

  function Pow10(k: nat): (p: nat)
    ensures p >= 1
  {
    if k == 0 then 1 else 10 * Pow10(k - 1)
  }
}
