/** UTF-8 text, byte by byte: a byte is a char below 256. */
module Utf8 {
  predicate In(c: char, lo: int, hi: int) { lo <= c as int <= hi }

  predicate IsAscii(c: char) { c as int < 0x80 }

  predicate IsCont(c: char) { In(c, 0x80, 0xbf) }

  /** The length a lead byte announces. */
  function Len(c: char): (n: nat)
    ensures 1 <= n <= 4
  {
    if c as int < 0x80 then 1 else if c as int >= 0xf0 then 4 else if c as int >= 0xe0 then 3 else 2
  }

  /** One well-formed byte sequence (the table of section 3.9 of Unicode). */
  predicate OneChar(s: string) {
    match |s|
    case 1 => IsAscii(s[0])
    case 2 => In(s[0], 0xc2, 0xdf) && IsCont(s[1])
    case 3 =>
      && In(s[0], 0xe0, 0xef) && IsCont(s[1]) && IsCont(s[2])
      && (s[0] as int == 0xe0 ==> s[1] as int >= 0xa0)
      && (s[0] as int == 0xed ==> s[1] as int <= 0x9f)
    case 4 =>
      && In(s[0], 0xf0, 0xf4) && IsCont(s[1]) && IsCont(s[2]) && IsCont(s[3])
      && (s[0] as int == 0xf0 ==> s[1] as int >= 0x90)
      && (s[0] as int == 0xf4 ==> s[1] as int <= 0x8f)
    case _ => false
  }

  predicate Valid(s: string) {
    s == "" || (Len(s[0]) <= |s| && OneChar(s[..Len(s[0])]) && Valid(s[Len(s[0])..]))
  }

  // ── encoding ──

  predicate IsScalar(v: nat) { v < 0xd800 || 0xe000 <= v < 0x11_0000 }

  function Byte(n: int): (c: char)
    requires 0 <= n < 256
    ensures c as int == n
  {
    n as char
  }

  /** The continuation byte of the low six bits. */
  function Low(v: nat): (c: char)
    ensures IsCont(c) && c as int == 0x80 + v % 0x40
  {
    Byte(0x80 + v % 0x40)
  }

  function Encode3(v: nat): (s: string)
    requires 0x800 <= v < 0x1_0000 && IsScalar(v)
    ensures s != "" && |s| == Len(s[0]) && OneChar(s)
  {
    var hi, mid := v / 0x1000, v / 0x40;
    assert mid / 0x40 == hi;
    [Byte(0xe0 + hi), Low(mid), Low(v)]
  }

  function Encode4(v: nat): (s: string)
    requires 0x1_0000 <= v < 0x11_0000
    ensures s != "" && |s| == Len(s[0]) && OneChar(s)
  {
    var hi, mid := v / 0x4_0000, v / 0x1000;
    assert mid / 0x40 == hi;
    [Byte(0xf0 + hi), Low(mid), Low(v / 0x40), Low(v)]
  }

  function Encode(v: nat): (s: string)
    requires IsScalar(v)
    ensures s != "" && |s| == Len(s[0]) && OneChar(s)
  {
    if v < 0x80 then [Byte(v)]
    else if v < 0x800 then [Byte(0xc0 + v / 0x40), Low(v)]
    else if v < 0x1_0000 then Encode3(v)
    else Encode4(v)
  }

  /** What an unencodable value becomes. */
  function EncodeLossy(v: nat): (s: string)
    ensures s != "" && |s| == Len(s[0]) && OneChar(s)
  {
    Encode(if IsScalar(v) then v else 0xfffd)
  }

  /** The number in the payload bits of a byte sequence (table 3-6 of Unicode). */
  function CodePoint(s: string): int {
    match |s|
    case 1 => s[0] as int
    case 2 => (s[0] as int - 0xc0) * 0x40 + (s[1] as int - 0x80)
    case 3 => (s[0] as int - 0xe0) * 0x1000 + (s[1] as int - 0x80) * 0x40 + (s[2] as int - 0x80)
    case 4 =>
      (s[0] as int - 0xf0) * 0x4_0000 + (s[1] as int - 0x80) * 0x1000 + (s[2] as int - 0x80) * 0x40
      + (s[3] as int - 0x80)
    case _ => -1
  }

  /** The encoding of a value is a well-formed sequence that carries it. */
  lemma EncodeCarries(v: nat)
    requires IsScalar(v)
    ensures OneChar(Encode(v)) && CodePoint(Encode(v)) == v
  {
    assert v / 0x40 / 0x40 == v / 0x1000 && v / 0x1000 / 0x40 == v / 0x4_0000;
  }

  // ── validity is local ──

  lemma OneCharLen(s: string)
    requires OneChar(s)
    ensures |s| == Len(s[0])
  {
  }

  lemma {:induction false} ValidJoin(a: string, b: string)
    requires Valid(a) && Valid(b)
    ensures Valid(a + b)
  {
    if a == "" {
      assert a + b == b;
    } else {
      var n := Len(a[0]);
      ValidJoin(a[n..], b);
      assert (a + b)[..n] == a[..n] && (a + b)[n..] == a[n..] + b;
    }
  }

  lemma ValidOne(c: string)
    requires OneChar(c)
    ensures Valid(c)
  {
    OneCharLen(c);
    assert c[..|c|] == c && c[|c|..] == "";
  }

  predicate AllAscii(s: string) { forall k | 0 <= k < |s| :: IsAscii(s[k]) }

  lemma {:induction false} ValidAscii(s: string)
    requires AllAscii(s)
    ensures Valid(s)
  {
    if s != "" {
      assert s[..1] == [s[0]];
      ValidAscii(s[1..]);
    }
  }

  /** The start of a byte sequence, or the end of the text. */
  predicate Boundary(s: string, i: nat) { i == |s| || (i < |s| && !IsCont(s[i])) }

  lemma OneCharBytes(s: string)
    requires OneChar(s)
    ensures |s| == Len(s[0]) && !IsCont(s[0]) && forall k | 0 < k < |s| :: IsCont(s[k])
  {
  }

  lemma FirstChar(s: string, i: nat)
    requires Valid(s) && 0 < i < |s| && Boundary(s, i)
    ensures Len(s[0]) <= i
  {
    var n := Len(s[0]);
    OneCharBytes(s[..n]);
    assert forall k | 0 < k < n :: s[k] == s[..n][k];
  }

  lemma {:induction false} Suffix(s: string, i: nat)
    requires Valid(s) && i <= |s| && Boundary(s, i)
    ensures Valid(s[i..])
    decreases |s|
  {
    hide OneChar, Len;
    if i == 0 {
      assert s[i..] == s;
    } else if i == |s| {
      assert s[i..] == "";
    } else {
      FirstChar(s, i);
      var t := s[Len(s[0])..];
      Suffix(t, i - Len(s[0]));
      assert s[i..] == t[i - Len(s[0])..];
    }
  }

  lemma {:induction false} Prefix(s: string, i: nat)
    requires Valid(s) && i <= |s| && Boundary(s, i)
    ensures Valid(s[..i])
    decreases |s|
  {
    hide OneChar, Len;
    if i == 0 {
      assert s[..i] == "";
    } else if i == |s| {
      assert s[..i] == s;
    } else {
      FirstChar(s, i);
      var n := Len(s[0]);
      var t := s[n..];
      Prefix(t, i - n);
      assert s[..i] == s[..n] + t[..i - n];
      ValidOne(s[..n]);
      ValidJoin(s[..n], t[..i - n]);
    }
  }

  lemma Head(s: string)
    requires Valid(s) && s != ""
    ensures Len(s[0]) <= |s| && OneChar(s[..Len(s[0])]) && Valid(s[Len(s[0])..])
  {
  }

  /** Every lead byte is followed by the bytes it announces. */
  lemma CharAt(s: string, i: nat)
    requires Valid(s) && i < |s| && Boundary(s, i)
    ensures i + Len(s[i]) <= |s| && OneChar(s[i..i + Len(s[i])])
    ensures Boundary(s, i + Len(s[i]))
  {
    hide OneChar, Len, Valid, IsCont;
    Suffix(s, i);
    var t, n := s[i..], Len(s[i]);
    Head(t);
    assert t[..n] == s[i..i + n];
    if i + n < |s| {
      NextStarts(t[n..]);
      assert t[n..][0] == s[i + n];
    }
  }

  lemma NextStarts(s: string)
    requires Valid(s) && s != ""
    ensures !IsCont(s[0])
  {
    OneCharBytes(s[..Len(s[0])]);
  }

  lemma Slice(s: string, i: nat, j: nat)
    requires Valid(s) && i <= j <= |s| && Boundary(s, i) && Boundary(s, j)
    ensures Valid(s[i..j])
  {
    Prefix(s, j);
    Suffix(s[..j], i);
    assert s[..j][i..] == s[i..j];
  }

  /** After an ASCII byte comes the start of a sequence. */
  lemma {:induction false} AfterAscii(s: string, i: nat)
    requires Valid(s) && i < |s| && IsAscii(s[i])
    ensures Boundary(s, i + 1)
  {
    CharAt(s, i);
  }
}
