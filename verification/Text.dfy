/** Text helpers that the payment switch takes from the Go library: white-space
    trimming, decimal printing, and joining with a NUL separator.  The pre-hash
    text of a fingerprint is built from these three. */
module Text {

  const NUL: char := '\0'

  /** White space as `unicode.IsSpace` defines it. */
  predicate IsSpace(c: char) {
    || c in {'\t', '\n', '\U{0B}', '\U{0C}', '\r', ' ', '\U{85}', '\U{A0}', '\U{1680}'}
    || '\U{2000}' <= c <= '\U{200A}'
    || c in {'\U{2028}', '\U{2029}', '\U{202F}', '\U{205F}', '\U{3000}'}
  }

  function TrimLeft(s: string): string {
    if s != [] && IsSpace(s[0]) then TrimLeft(s[1..]) else s
  }

  function TrimRight(s: string): string {
    if s != [] && IsSpace(s[|s| - 1]) then TrimRight(s[..|s| - 1]) else s
  }

  function Trim(s: string): string {
    TrimRight(TrimLeft(s))
  }

  lemma {:induction false} TrimRightIsTrimmedPrefix(s: string)
    ensures TrimRight(s) <= s
    ensures TrimRight(s) != [] ==> !IsSpace(TrimRight(s)[|TrimRight(s)| - 1])
  {
    if s != [] && IsSpace(s[|s| - 1]) {
      TrimRightIsTrimmedPrefix(s[..|s| - 1]);
    }
  }

  lemma {:induction false} TrimLeftIsTrimmed(s: string)
    ensures TrimLeft(s) != [] ==> !IsSpace(TrimLeft(s)[0])
  {
    if s != [] && IsSpace(s[0]) {
      TrimLeftIsTrimmed(s[1..]);
    }
  }

  /** Trimming trimmed text changes nothing. */
  lemma TrimIdempotent(s: string)
    ensures Trim(Trim(s)) == Trim(s)
  {
    TrimLeftIsTrimmed(s);
    TrimRightIsTrimmedPrefix(TrimLeft(s));
    assert TrimLeft(Trim(s)) == Trim(s);
  }

  predicate Blank(s: string) {
    forall i :: 0 <= i < |s| ==> IsSpace(s[i])
  }

  lemma {:induction false} TrimLeftDrops(s: string) returns (front: string)
    ensures s == front + TrimLeft(s) && Blank(front)
  {
    if s != [] && IsSpace(s[0]) {
      var rest := TrimLeftDrops(s[1..]);
      front := [s[0]] + rest;
      assert s == [s[0]] + s[1..];
    } else {
      front := [];
    }
  }

  lemma {:induction false} TrimRightDrops(s: string) returns (back: string)
    ensures s == TrimRight(s) + back && Blank(back)
  {
    if s != [] && IsSpace(s[|s| - 1]) {
      var rest := TrimRightDrops(s[..|s| - 1]);
      back := rest + [s[|s| - 1]];
      assert s == s[..|s| - 1] + [s[|s| - 1]];
    } else {
      back := [];
    }
  }

  /** Trimming takes off white space at both ends, and all of it. */
  lemma TrimIs(s: string) returns (front: string, back: string)
    ensures s == front + Trim(s) + back && Blank(front) && Blank(back)
    ensures Trim(s) != "" ==> !IsSpace(Trim(s)[0]) && !IsSpace(Trim(s)[|Trim(s)| - 1])
  {
    front := TrimLeftDrops(s);
    back := TrimRightDrops(TrimLeft(s));
    TrimLeftIsTrimmed(s);
    TrimRightIsTrimmedPrefix(TrimLeft(s));
  }

  /** The blank that separates words is white space, a letter is not. */
  lemma SpacesAre(c: char)
    ensures c in {' ', '\t', '\n', '\r'} ==> IsSpace(c)
    ensures '!' <= c <= '~' || c == NUL ==> !IsSpace(c)
  {
  }

  predicate NulFree(s: string) {
    NUL !in s
  }

  // ---------------------------------------------------------------- decimal

  function Digit(d: nat): char
    requires d < 10
  {
    '0' + d as char
  }

  function DecimalNat(n: nat): string {
    if n < 10 then [Digit(n)] else DecimalNat(n / 10) + [Digit(n % 10)]
  }

  /** `fmt.Sprintf("%d", n)`. */
  function Decimal(n: int): string {
    if n < 0 then "-" + DecimalNat(-n) else DecimalNat(n)
  }

  /** Reads decimal digits back; the reference that makes printing injective. */
  function Value(s: string): int {
    if s == [] then 0 else 10 * Value(s[..|s| - 1]) + (s[|s| - 1] as int - '0' as int)
  }

  lemma {:induction false} DecimalNatReadsBack(n: nat)
    ensures Value(DecimalNat(n)) == n
    ensures DecimalNat(n) != []
    ensures forall c :: c in DecimalNat(n) ==> '0' <= c <= '9'
  {
    if n >= 10 {
      DecimalNatReadsBack(n / 10);
      var s := DecimalNat(n);
      assert s[..|s| - 1] == DecimalNat(n / 10);
    } else {
      assert DecimalNat(n)[..0] == [];
    }
  }

  lemma DecimalSign(n: int)
    ensures Decimal(n) != [] && (Decimal(n)[0] == '-' <==> n < 0)
  {
    if n >= 0 {
      DecimalNatReadsBack(n);
      assert Decimal(n)[0] in DecimalNat(n);
    }
  }

  lemma DecimalInjective(a: int, b: int)
    requires Decimal(a) == Decimal(b)
    ensures a == b
  {
    DecimalSign(a);
    DecimalSign(b);
    if a < 0 {
      DecimalNatReadsBack(-a);
      DecimalNatReadsBack(-b);
      assert Decimal(a)[1..] == DecimalNat(-a) && Decimal(b)[1..] == DecimalNat(-b);
    } else {
      DecimalNatReadsBack(a);
      DecimalNatReadsBack(b);
    }
  }

  lemma DecimalNulFree(n: int)
    ensures NulFree(Decimal(n))
  {
    DecimalNatReadsBack(if n < 0 then -n else n);
  }

  // ------------------------------------------------------------------- join

  /** `strings.Join(parts, "\x00")`. */
  function Join(parts: seq<string>): string {
    if |parts| == 0 then ""
    else if |parts| == 1 then parts[0]
    else parts[0] + [NUL] + Join(parts[1..])
  }

  /** NUL-free heads in front of a NUL can be read back from the whole text. */
  lemma HeadBeforeNul(a: string, restA: string, b: string, restB: string)
    requires NulFree(a) && NulFree(b)
    requires a + [NUL] + restA == b + [NUL] + restB
    ensures a == b && restA == restB
  {
    var whole := a + [NUL] + restA;
    assert whole[|a|] == NUL && whole[|b|] == NUL;
    assert forall i :: 0 <= i < |a| ==> whole[i] == a[i] && a[i] != NUL;
    assert forall i :: 0 <= i < |b| ==> whole[i] == b[i] && b[i] != NUL;
    assert a == whole[..|a|] && b == whole[..|b|];
    assert restA == whole[|a| + 1..] && restB == whole[|b| + 1..];
  }

  /** Joining separates part lists of one length, as long as no part before the
      last holds the separator; the last part is free to hold it. */
  lemma {:induction false} JoinInjective(p: seq<string>, q: seq<string>)
    requires |p| == |q| > 0
    requires forall i :: 0 <= i < |p| - 1 ==> NulFree(p[i]) && NulFree(q[i])
    requires Join(p) == Join(q)
    ensures p == q
  {
    if |p| > 1 {
      HeadBeforeNul(p[0], Join(p[1..]), q[0], Join(q[1..]));
      JoinInjective(p[1..], q[1..]);
      assert p == [p[0]] + p[1..] && q == [q[0]] + q[1..];
    }
  }

  // -------------------------------------------------------------- store keys

  predicate ColonFree(s: string) {
    ':' !in s
  }

  /** The store's composite map keys, `tenant + ":" + rest`. */
  function StoreKey(tenant: string, rest: string): string {
    tenant + ":" + rest
  }

  lemma StoreKeyInjective(t1: string, r1: string, t2: string, r2: string)
    requires ColonFree(t1) && ColonFree(t2)
    requires StoreKey(t1, r1) == StoreKey(t2, r2)
    ensures t1 == t2 && r1 == r2
  {
    var whole := StoreKey(t1, r1);
    assert whole[|t1|] == ':' && whole[|t2|] == ':';
    assert forall i :: 0 <= i < |t1| ==> whole[i] == t1[i] && t1[i] != ':';
    assert forall i :: 0 <= i < |t2| ==> whole[i] == t2[i] && t2[i] != ':';
    assert t1 == whole[..|t1|] && t2 == whole[..|t2|];
    assert r1 == whole[|t1| + 1..] && r2 == whole[|t2| + 1..];
  }
}
