/** Base62 text of a byte string, for key ring service names (vault/keyring_backend.go). */
module Base62 {
  import opened Seqs

  newtype byte = x: int | 0 <= x < 256

  /** The big-endian number that the bytes spell, as big.Int.SetBytes reads them. */
  function BytesValue(data: seq<byte>): nat {
    if data == [] then 0 else 256 * BytesValue(data[..|data| - 1]) + data[|data| - 1] as nat
  }

  predicate IsDigit(c: char) {
    '0' <= c <= '9' || 'a' <= c <= 'z' || 'A' <= c <= 'Z'
  }

  function DigitValue(c: char): (d: nat)
    requires IsDigit(c)
    ensures d < 62
  {
    if '0' <= c <= '9' then c as nat - '0' as nat
    else if 'a' <= c <= 'z' then c as nat - 'a' as nat + 10
    else c as nat - 'A' as nat + 36
  }

  /** Character number `d` of the alphabet: the digits, then the lower case, then the upper case letters. */
  function Base62Char(d: nat): (c: char)
    requires d < 62
    ensures IsDigit(c) && DigitValue(c) == d
  {
    if d < 10 then ('0' as int + d) as char
    else if d < 36 then ('a' as int + d - 10) as char
    else ('A' as int + d - 36) as char
  }

  ghost predicate AllDigits(s: string) {
    forall i :: 0 <= i < |s| ==> IsDigit(s[i])
  }

  /** The number a numeral denotes, most significant digit first. */
  ghost function Numeral(s: string): nat
    requires AllDigits(s)
  {
    if s == "" then 0 else 62 * Numeral(s[..|s| - 1]) + DigitValue(s[|s| - 1])
  }

  /** The same with the least significant digit first. */
  ghost function Little(s: string): nat
    requires AllDigits(s)
  {
    if s == "" then 0 else DigitValue(s[0]) + 62 * Little(s[1..])
  }

  function Pow62(n: nat): nat {
    if n == 0 then 1 else 62 * Pow62(n - 1)
  }

  lemma {:induction false} Scaled(p: nat, d: nat)
    ensures 62 * (p * d) == (62 * p) * d
  {
  }

  lemma {:induction false} SameSplit(x: nat, d: nat, y: nat, e: nat)
    requires 62 * x + d == 62 * y + e && d < 62 && e < 62
    ensures x == y && d == e
  {
  }

  lemma {:induction false} LittleSnoc(s: string, c: char)
    requires AllDigits(s) && IsDigit(c)
    ensures Little(s + [c]) == Little(s) + Pow62(|s|) * DigitValue(c)
  {
    if s != "" {
      LittleSnoc(s[1..], c);
      assert (s + [c])[1..] == s[1..] + [c];
      Scaled(Pow62(|s| - 1), DigitValue(c));
    } else {
      assert (s + [c])[1..] == "";
    }
  }

  lemma {:induction false} MirrorDenotesSame(s: string, r: string)
    requires AllDigits(s) && |r| == |s| && forall k :: 0 <= k < |s| ==> r[k] == s[|s| - 1 - k]
    ensures AllDigits(r) && Numeral(r) == Little(s)
  {
    if s != "" {
      var n := |s| - 1;
      MirrorDenotesSame(s[1..], r[..n]);
      assert r[n] == s[0];
    }
  }

  /** A numeral with no leading zero, or the numeral of zero. */
  predicate Canonical(s: string) {
    s == "0" || (s != "" && s[0] != '0')
  }

  /** `s` is the base62 text of the bytes. */
  ghost predicate Encodes(data: seq<byte>, s: string) {
    AllDigits(s) && Canonical(s) && Numeral(s) == BytesValue(data)
  }

  lemma {:induction false} DivideOnce(p: nat, n: nat, q: nat, m: nat)
    requires n == 62 * q + m
    ensures p * n == p * m + (62 * p) * q
  {
  }

  /** The digits taken off so far, least significant first, and the number left, make up `value`. */
  ghost predicate TakenOff(value: nat, n: nat, result: string) {
    && AllDigits(result) && value == Little(result) + Pow62(|result|) * n
    && (n == 0 && result != "" ==> result[|result| - 1] != '0')
  }

  lemma {:induction false} TakeOne(value: nat, n: nat, result: string)
    requires n > 0 && TakenOff(value, n, result)
    ensures TakenOff(value, n / 62, result + [Base62Char(n % 62)])
  {
    var c := Base62Char(n % 62);
    LittleSnoc(result, c);
    DivideOnce(Pow62(|result|), n, n / 62, n % 62);
  }

  method ToBase62(data: seq<byte>) returns (s: string)
    ensures Encodes(data, s)
  {
    var n := BytesValue(data);
    var result: string := "";
    while n > 0
      invariant TakenOff(BytesValue(data), n, result)
      invariant n == BytesValue(data) || result != ""
      decreases n
    {
      TakeOne(BytesValue(data), n, result);
      var digit := n % 62;
      n := n / 62;
      result := result + [Base62Char(digit)];
    }
    ghost var digits := result;
    var i, j := 0, |result| - 1;
    while i < j
      invariant 0 <= i <= j + 1 && j == |digits| - 1 - i && |result| == |digits|
      invariant forall k :: 0 <= k < i || j < k < |digits| ==> result[k] == digits[|digits| - 1 - k]
      invariant forall k :: i <= k <= j ==> result[k] == digits[k]
    {
      result := result[i := result[j]][j := result[i]];
      i, j := i + 1, j - 1;
    }
    MirrorDenotesSame(digits, result);
    if |result| == 0 {
      return "0";
    }
    return result;
  }

  // ---------------------------------------------------------------- the text determines the bytes

  lemma {:induction false} NoLeadingZeroIsPositive(s: string)
    requires AllDigits(s) && s != "" && s[0] != '0'
    ensures Numeral(s) > 0
  {
    if |s| > 1 {
      NoLeadingZeroIsPositive(s[..|s| - 1]);
    }
  }

  lemma {:induction false} SameDigit(c: char, d: char)
    requires IsDigit(c) && IsDigit(d) && DigitValue(c) == DigitValue(d)
    ensures c == d
  {
  }

  lemma {:induction false} NumeralUnique(s: string, t: string)
    requires AllDigits(s) && AllDigits(t) && Numeral(s) == Numeral(t)
    requires (s == "" || s[0] != '0') && (t == "" || t[0] != '0')
    ensures s == t
  {
    if s == "" || t == "" {
      if s != "" {
        NoLeadingZeroIsPositive(s);
      }
      if t != "" {
        NoLeadingZeroIsPositive(t);
      }
    } else {
      var a, b := s[..|s| - 1], t[..|t| - 1];
      SameSplit(Numeral(a), DigitValue(s[|s| - 1]), Numeral(b), DigitValue(t[|t| - 1]));
      SameDigit(s[|s| - 1], t[|t| - 1]);
      NumeralUnique(a, b);
      FrontAndLast(s);
      FrontAndLast(t);
    }
  }

  /** The bytes have one text only. */
  lemma {:induction false} EncodingUnique(data: seq<byte>, s: string, t: string)
    requires Encodes(data, s) && Encodes(data, t)
    ensures s == t
  {
    assert "0"[..0] == "" && Numeral("0") == 0;
    if s != "0" {
      NoLeadingZeroIsPositive(s);
    }
    if t != "0" {
      NoLeadingZeroIsPositive(t);
    }
    if s != "0" && t != "0" {
      NumeralUnique(s, t);
    }
  }

  lemma {:induction false} SameByteSplit(x: nat, d: byte, y: nat, e: byte)
    requires 256 * x + d as nat == 256 * y + e as nat
    ensures x == y && d == e
  {
  }

  lemma {:induction false} BytesValueInjective(a: seq<byte>, b: seq<byte>)
    requires |a| == |b| && BytesValue(a) == BytesValue(b)
    ensures a == b
  {
    if a != [] {
      var n := |a| - 1;
      SameByteSplit(BytesValue(a[..n]), a[n], BytesValue(b[..n]), b[n]);
      BytesValueInjective(a[..n], b[..n]);
      FrontAndLast(a);
      FrontAndLast(b);
    }
  }

  /** Byte strings of one length with one text are the same; of different lengths they differ only in
      leading zero bytes, which the text does not show. */
  lemma {:induction false} EncodingInjective(a: seq<byte>, b: seq<byte>, s: string)
    requires Encodes(a, s) && Encodes(b, s)
    ensures |a| == |b| ==> a == b
    ensures |a| <= |b| ==> b == Zeros(|b| - |a|) + a
  {
    if |a| <= |b| {
      LeadingZeros(|b| - |a|, a);
      BytesValueInjective(Zeros(|b| - |a|) + a, b);
      if |a| == |b| {
        assert Zeros(0) + a == a;
      }
    }
  }

  function Zeros(n: nat): (z: seq<byte>)
    ensures |z| == n
  {
    seq(n, _ => 0 as byte)
  }

  lemma {:induction false} LeadingZeros(n: nat, data: seq<byte>)
    ensures BytesValue(Zeros(n) + data) == BytesValue(data)
  {
    if data != [] {
      var k := |data| - 1;
      LeadingZeros(n, data[..k]);
      assert (Zeros(n) + data)[..n + k] == Zeros(n) + data[..k];
    } else if n > 0 {
      LeadingZeros(n - 1, data);
      assert (Zeros(n) + data)[..n - 1] == Zeros(n - 1) + data;
    }
  }
}
