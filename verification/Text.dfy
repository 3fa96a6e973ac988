/**
  Texts as the operator prints and compares them.  A `string` here is a Go string: one `char`
  stands for one byte.  Numbers are printed without sign and without leading zeros (`%d`, `%X`).
*/
module Text {
  import opened Options

  const DIGITS: string := "0123456789ABCDEF"

  predicate IsBase(base: nat) { base == 10 || base == 16 }

  /** `n` in positional notation, most significant digit first. */
  function Print(n: nat, base: nat): (s: string)
    requires IsBase(base)
    ensures s != [] && forall i | 0 <= i < |s| :: s[i] in DIGITS[..base]
    decreases n
  {
    if n < base then [DIGITS[n]]
    else
      var rest: nat := if base == 10 then n / 10 else n / 16;
      Print(rest, base) + [DIGITS[if base == 10 then n % 10 else n % 16]]
  }

  function Decimal(n: nat): string { Print(n, 10) }

  function Hex(n: nat): string { Print(n, 16) }

  function DigitValue(c: char): nat
  {
    if '0' <= c <= '9' then c as nat - '0' as nat
    else if 'A' <= c <= 'F' then 10 + (c as nat - 'A' as nat)
    else 0
  }

  /** Reads positional notation back. */
  function Read(s: string, base: nat): nat
  {
    if s == [] then 0 else Read(s[..|s| - 1], base) * base + DigitValue(s[|s| - 1])
  }

  lemma {:induction false} ReadPrint(n: nat, base: nat)
    requires IsBase(base)
    ensures Read(Print(n, base), base) == n
  {
    assert forall d | 0 <= d < 16 :: DigitValue(DIGITS[d]) == d;
    var s := Print(n, base);
    if n < base {
      assert s[..|s| - 1] == [];
    } else {
      var rest: nat := if base == 10 then n / 10 else n / 16;
      ReadPrint(rest, base);
      assert s[..|s| - 1] == Print(rest, base);
    }
  }

  lemma PrintInjective(m: nat, n: nat, base: nat)
    requires IsBase(base) && Print(m, base) == Print(n, base)
    ensures m == n
  {
    ReadPrint(m, base);
    ReadPrint(n, base);
  }

  predicate IsDigit(c: char) { '0' <= c <= '9' }

  predicate AllDigits(s: string) { forall i | 0 <= i < |s| :: IsDigit(s[i]) }

  lemma DecimalIsDigits(n: nat)
    ensures Decimal(n) != [] && AllDigits(Decimal(n)) && '-' !in Decimal(n) && '/' !in Decimal(n)
  {
    var s := Decimal(n);
    forall i | 0 <= i < |s| ensures IsDigit(s[i]) {
      assert s[i] in DIGITS[..10];
      var j :| 0 <= j < 10 && DIGITS[..10][j] == s[i];
    }
  }

  /** A text is cut uniquely at the last occurrence of a separator. */
  lemma LastCutUnique(a: string, b: string, c: string, d: string, sep: char)
    requires a + [sep] + b == c + [sep] + d && sep !in b && sep !in d
    ensures a == c && b == d
  {
    var s, t := a + [sep] + b, c + [sep] + d;
    assert s[|a|] == sep && forall i | |a| < i < |s| :: s[i] == b[i - |a| - 1];
    assert t[|c|] == sep && forall i | |c| < i < |t| :: t[i] == d[i - |c| - 1];
    assert |a| == |c|;
    assert a == s[..|a|] && b == s[|a| + 1..];
    assert c == t[..|c|] && d == t[|c| + 1..];
  }

  lemma CancelPrefix(p: string, a: string, b: string)
    requires p + a == p + b
    ensures a == b
  {
    assert a == (p + a)[|p|..] && b == (p + b)[|p|..];
  }

  lemma CancelSuffix(a: string, b: string, s: string)
    requires a + s == b + s
    ensures a == b
  {
    assert a == (a + s)[..|a|] && b == (b + s)[..|b|];
  }

  /** Texts whose endings differ `d` characters from the end are different. */
  lemma EndsDiffer(a: string, s: string, b: string, t: string, d: nat)
    requires 1 <= d <= |s| && d <= |t| && s[|s| - d] != t[|t| - d]
    ensures a + s != b + t
  {
    assert (a + s)[|a + s| - d] == s[|s| - d];
    assert (b + t)[|b + t| - d] == t[|t| - d];
  }

  // ---- reading up to a character ----

  /** The text before the first `stop`. */
  function UpTo(text: string, stop: char): (r: Option<string>)
    ensures r.Some? ==> |r.value| < |text| && stop !in r.value
  {
    if text == "" then None
    else if text[0] == stop then Some("")
    else
      match UpTo(text[1..], stop)
      case None => None
      case Some(rest) => Some([text[0]] + rest)
  }

  lemma {:induction false} UpToFirst(name: string, rest: string, stop: char)
    requires stop !in name
    ensures UpTo(name + [stop] + rest, stop) == Some(name)
  {
    var text := name + [stop] + rest;
    if name != "" {
      assert text[1..] == name[1..] + [stop] + rest;
      UpToFirst(name[1..], rest, stop);
      assert name == [name[0]] + name[1..];
    }
  }

  // ---- order ----

  /** Byte-wise lexicographic order: Go's `<=` on strings. */
  predicate Leq(a: string, b: string)
  {
    a == [] || (b != [] && (a[0] < b[0] || (a[0] == b[0] && Leq(a[1..], b[1..]))))
  }

  lemma {:induction false} LeqTotal(a: string, b: string)
    ensures Leq(a, b) || Leq(b, a)
  {
    if a != [] && b != [] && a[0] == b[0] { LeqTotal(a[1..], b[1..]); }
  }

  lemma {:induction false} LeqAntisymmetric(a: string, b: string)
    requires Leq(a, b) && Leq(b, a)
    ensures a == b
  {
    if a != [] && b != [] {
      LeqAntisymmetric(a[1..], b[1..]);
      assert a == [a[0]] + a[1..] && b == [b[0]] + b[1..];
    }
  }

  lemma {:induction false} LeqTransitive(a: string, b: string, c: string)
    requires Leq(a, b) && Leq(b, c)
    ensures Leq(a, c)
  {
    if a != [] && b != [] && c != [] && a[0] == b[0] == c[0] { LeqTransitive(a[1..], b[1..], c[1..]); }
  }

  /** The first byte that differs decides. */
  lemma {:induction false} LeqAtDifference(common: string, c: char, x: string, d: char, y: string)
    requires c < d
    ensures Leq(common + [c] + x, common + [d] + y) && !Leq(common + [d] + y, common + [c] + x)
  {
    var a, b := common + [c] + x, common + [d] + y;
    if common != "" {
      assert a[1..] == common[1..] + [c] + x && b[1..] == common[1..] + [d] + y;
      LeqAtDifference(common[1..], c, x, d, y);
    }
  }

  /** A proper prefix comes first. */
  lemma {:induction false} LeqPrefix(a: string, x: string)
    ensures Leq(a, a + x) && (x != "" ==> !Leq(a + x, a))
  {
    if a != "" {
      assert (a + x)[1..] == a[1..] + x;
      LeqPrefix(a[1..], x);
    }
  }

  /** strings.Join */
  function Join(parts: seq<string>, separator: string): string
  {
    if parts == [] then ""
    else if |parts| == 1 then parts[0]
    else parts[0] + separator + Join(parts[1..], separator)
  }
}
