/** Byte strings: searching, trimming quotes, decimal numerals and byte order.

A `string` stands for a Go string, one `char` for one byte. All the characters
the program gives a meaning to are ASCII, so working on bytes and working on
runes come to the same thing.
 */
module Text {

  datatype Option<+T> = None | Some(value: T)

  /** The least position at or after `from` that holds `c`, or `|s|`. */
  function IndexOf(s: string, c: char, from: nat): (i: nat)
    requires from <= |s|
    ensures from <= i <= |s|
    ensures i < |s| ==> s[i] == c
    ensures forall k :: from <= k < i ==> s[k] != c
    decreases |s| - from
  {
    if from == |s| || s[from] == c then from else IndexOf(s, c, from + 1)
  }

  // ---- quotes ----

  predicate IsQuote(c: char) {
    c == '\'' || c == '"'
  }

  function TrimLeft(s: string): string {
    if s != "" && IsQuote(s[0]) then TrimLeft(s[1..]) else s
  }

  function TrimRight(s: string): string {
    if s != "" && IsQuote(s[|s| - 1]) then TrimRight(s[..|s| - 1]) else s
  }

  predicate Unquoted(s: string) {
    s != "" ==> !IsQuote(s[0]) && !IsQuote(s[|s| - 1])
  }

  lemma TrimLeftSuffix(s: string)
    ensures exists k :: 0 <= k <= |s| && TrimLeft(s) == s[k..]
    ensures TrimLeft(s) != "" ==> !IsQuote(TrimLeft(s)[0])
  {
    if s != "" && IsQuote(s[0]) {
      TrimLeftSuffix(s[1..]);
      var k :| 0 <= k <= |s[1..]| && TrimLeft(s[1..]) == s[1..][k..];
      assert s[1..][k..] == s[k + 1..];
    } else {
      assert s == s[0..];
    }
  }

  lemma TrimRightPrefix(s: string)
    ensures exists k :: 0 <= k <= |s| && TrimRight(s) == s[..k]
    ensures TrimRight(s) != "" ==> !IsQuote(TrimRight(s)[|TrimRight(s)| - 1])
  {
    if s != "" && IsQuote(s[|s| - 1]) {
      var t := s[..|s| - 1];
      TrimRightPrefix(t);
      var k :| 0 <= k <= |t| && TrimRight(t) == t[..k];
      assert t[..k] == s[..k];
    } else {
      assert s == s[..|s|];
    }
  }

  /** `strings.Trim(s, "'\"")`: every quote at either end goes. */
  function Trim(s: string): string {
    TrimRight(TrimLeft(s))
  }

  /** Trimming leaves no outer quote, changes nothing that had none, and keeps
      a contiguous part of the string. */
  lemma TrimFacts(s: string)
    ensures Unquoted(Trim(s))
    ensures Unquoted(s) ==> Trim(s) == s
    ensures forall c :: c in Trim(s) ==> c in s
  {
    TrimLeftSuffix(s);
    TrimRightPrefix(TrimLeft(s));
  }

  // ---- decimal numerals ----

  const UINT32_LIMIT: nat := 0x1_0000_0000

  predicate IsDigit(c: char) {
    '0' <= c <= '9'
  }

  predicate AllDigits(s: string) {
    forall i :: 0 <= i < |s| ==> IsDigit(s[i])
  }

  function DigitsValue(s: string): nat
    requires AllDigits(s)
  {
    if s == "" then 0
    else DigitsValue(s[..|s| - 1]) * 10 + (s[|s| - 1] - '0') as nat
  }

  /** `strconv.ParseUint(s, 10, 32)`. */
  function ParseUint32(s: string): Option<nat> {
    if s != "" && AllDigits(s) && DigitsValue(s) < UINT32_LIMIT then Some(DigitsValue(s)) else None
  }

  /** `strconv.Itoa` and `%d` on a value that is not negative. */
  function Itoa(n: nat): string {
    if n < 10 then [('0' as int + n) as char]
    else Itoa(n / 10) + [('0' as int + n % 10) as char]
  }

  lemma {:induction false} ItoaDigits(n: nat)
    ensures Itoa(n) != "" && AllDigits(Itoa(n)) && DigitsValue(Itoa(n)) == n
    ensures n > 0 ==> Itoa(n)[0] != '0'
    ensures n == 0 ==> |Itoa(n)| == 1
  {
    if n < 10 {
      assert Itoa(n)[..0] == "";
    } else {
      ItoaDigits(n / 10);
      var front := Itoa(n / 10);
      assert Itoa(n)[..|Itoa(n)| - 1] == front;
    }
  }

  // ---- byte order ----

  /** Go's `<` on strings. */
  predicate Less(a: string, b: string) {
    b != "" && (a == "" || a[0] < b[0] || (a[0] == b[0] && Less(a[1..], b[1..])))
  }

  lemma {:induction false} LessIrreflexive(a: string)
    ensures !Less(a, a)
  {
    if a != "" { LessIrreflexive(a[1..]); }
  }

  lemma {:induction false} LessTransitive(a: string, b: string, c: string)
    requires Less(a, b) && Less(b, c)
    ensures Less(a, c)
  {
    if a != "" && a[0] == b[0] == c[0] { LessTransitive(a[1..], b[1..], c[1..]); }
  }

  lemma {:induction false} LessTotal(a: string, b: string)
    ensures Less(a, b) || a == b || Less(b, a)
  {
    if a != "" && b != "" && a[0] == b[0] {
      LessTotal(a[1..], b[1..]);
      assert a == [a[0]] + a[1..] && b == [b[0]] + b[1..];
    }
  }
}
