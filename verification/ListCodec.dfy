/** The list printer and parser as index loops over bytes. */
module ListCodec {
  import opened Options
  import opened Utf8
  import opened ListText

  // ── printing ──

  method ScanElement(s: string) returns (mode: Mode)
    ensures mode == ModeOf(s)
  {
    if s == "" { return Brace; }
    var forbidNone, requireEscape, preferEscape, preferBrace := false, false, false, false;
    var nesting: int := 0;
    if s[0] == '{' || s[0] == '"' { forbidNone, preferBrace := true, true; }
    var i := 0;
    while i < |s|
      invariant 0 <= i <= |s|
      invariant ScanFrom(s, 0, Started(s))
             == ScanFrom(s, i, Scan(forbidNone, requireEscape, preferEscape, preferBrace, nesting))
    {
      var c := s[i];
      if c == '{' {
        nesting := nesting + 1;
      } else if c == '}' {
        nesting := nesting - 1;
        if nesting < 0 { requireEscape := true; }
      } else if c == ']' || c == '"' {
        forbidNone, preferEscape := true, true;
      } else if c == '[' || c == '$' || c == ';' {
        forbidNone, preferBrace := true, true;
      } else if c == '\\' {
        if i + 1 == |s| {
          requireEscape := true;
        } else if s[i + 1] == '\n' {
          requireEscape := true;
          i := i + 1;
        } else if s[i + 1] == '{' || s[i + 1] == '}' || s[i + 1] == '\\' {
          i := i + 1;
        }
        forbidNone, preferBrace := true, true;
      } else if IsSpace(c) {
        forbidNone, preferBrace := true, true;
      }
      i := i + 1;
    }
    if nesting != 0 { requireEscape := true; }
    mode := if requireEscape then Escape
            else if forbidNone then if preferEscape && !preferBrace then Mask else Brace
            else Plain;
  }

  lemma {:induction false} EscapeAppend(s: string, k: nat, mode: Mode)
    requires k < |s|
    ensures EscapeText(s[..k + 1], mode) == EscapeText(s[..k], mode) + EscapeByte(s[k], mode)
  {
    hide EscapeByte;
    if k == 0 {
      assert s[..1][1..] == "" && EscapeText("", mode) == "";
    } else {
      assert s[1..][..k] == s[..k + 1][1..] && s[1..][..k - 1] == s[..k][1..];
      EscapeAppend(s[1..], k - 1, mode);
    }
  }

  /** `out` with the text of one element appended. */
  method ConvertElement(out: string, s: string, quoteHash: bool) returns (r: string)
    ensures r == out + Convert(s, quoteHash)
  {
    hide EscapeByte;
    if s == "" { return out + "{}"; }
    r := out;
    var mode := ScanElement(s);
    var start := 0;
    if quoteHash && s[0] == '#' {
      if mode == Escape { r, start := r + "\\#", 1; } else { mode := Brace; }
    }
    match mode
    case Plain => r := r + s[start..];
    case Brace => r := r + "{" + s[start..] + "}";
    case _ =>
      ghost var before := r;
      var text := s[start..];
      var k := 0;
      while k < |text|
        invariant 0 <= k <= |text|
        invariant r == before + EscapeText(text[..k], mode)
      {
        EscapeAppend(text, k, mode);
        r := r + EscapeByte(text[k], mode);
        k := k + 1;
      }
      assert text[..k] == text;
  }

  lemma {:induction false} JoinAppend(items: seq<string>, k: nat, n: nat)
    requires k <= n < |items|
    ensures JoinFrom(items[..n + 1], k)
         == JoinFrom(items[..n], k) + (if n > 0 then " " else "") + Convert(items[n], n == 0)
    decreases n - k
  {
    hide Convert;
    if k < n {
      JoinAppend(items, k + 1, n);
      assert items[..n + 1][k] == items[..n][k] == items[k];
    } else {
      assert JoinFrom(items[..n + 1], n + 1) == "";
    }
  }

  method SerializeList(items: seq<string>) returns (text: string)
    ensures text == Serialize(items)
  {
    hide Convert, Valid;
    var out := "";
    var i := 0;
    while i < |items|
      invariant 0 <= i <= |items|
      invariant out == JoinFrom(items[..i], 0)
    {
      JoinAppend(items, 0, i);
      if i > 0 { out := out + " "; }
      out := ConvertElement(out, items[i], i == 0);
      i := i + 1;
    }
    assert items[..i] == items;
    text := if Valid(out) then out else "";
  }

  // ── backslash sequences ──

  method ScanHex(b: string, i: nat, max: nat) returns (n: nat, val: nat)
    requires i <= |b|
    ensures (n, val) == HexRun(b, i, max, 0, 0)
  {
    n, val := 0, 0;
    while n < max && i + n < |b| && IsHex(b[i + n])
      invariant n <= max && i + n <= |b|
      invariant HexRun(b, i, max, 0, 0) == HexRun(b, i, max, n, val)
    {
      val := Saturated(val * 16 + Digit(b[i + n]));
      n := n + 1;
    }
  }

  method ScanOctal(b: string, i: nat) returns (n: nat, val: nat)
    requires i < |b| && IsOctal(b[i])
    ensures (n, val) == OctalRun(b, i, 1, Digit(b[i]))
  {
    n, val := 1, Digit(b[i]);
    while n < 3 && i + n < |b| && IsOctal(b[i + n])
      invariant 1 <= n <= 3 && i + n <= |b|
      invariant OctalRun(b, i, 1, Digit(b[i])) == OctalRun(b, i, n, val)
    {
      if n == 2 && val >= 0x20 { break; }
      val := val * 8 + Digit(b[i + n]);
      n := n + 1;
    }
  }

  method ScanUnicode(b: string, i: nat) returns (n: nat, rep: string)
    requires i + 1 < |b| && (b[i + 1] == 'u' || b[i + 1] == 'U')
    ensures (n, rep) == UnicodeEscape(b, i)
  {
    hide HexRun, EncodeLossy;
    var c := b[i + 1];
    var digits, val := ScanHex(b, i + 2, if c == 'u' then 4 else 8);
    if digits == 0 { return 2, [c]; }
    if c == 'u' && PairAhead(b, i + 2, digits, val) {
      var m, low := ScanHex(b, i + 2 + digits + 2, 4);
      if m == 4 && 0xdc00 <= low < 0xe000 {
        return 2 + digits + 2 + m, EncodeLossy(Combined(val, low));
      }
    }
    return 2 + digits, EncodeLossy(val);
  }

  method ScanBackslash(b: string, i: nat) returns (n: nat, rep: string)
    requires i < |b| && b[i] == '\\'
    ensures (n, rep) == Backslash(b, i)
  {
    hide HexRun, OctalRun, UnicodeEscape, EncodeLossy, BlanksFrom;
    if i + 1 >= |b| { return 1, "\\"; }
    var c := b[i + 1];
    if Letter(c).Some? {
      return 2, Letter(c).value;
    } else if c == 'x' {
      var digits, val := ScanHex(b, i + 2, 2);
      if digits == 0 { return 2, "x"; }
      return 2 + digits, EncodeLossy(val % 0x100);
    } else if c == 'u' || c == 'U' {
      n, rep := ScanUnicode(b, i);
    } else if IsOctal(c) {
      var digits, val := ScanOctal(b, i + 1);
      return 1 + digits, EncodeLossy(val % 0x100);
    } else if c == '\n' {
      var j := SkipBlanks(b, i + 2);
      return j - i, " ";
    } else {
      var end := if i + 1 + Len(c) <= |b| then i + 1 + Len(c) else |b|;
      return end - i, b[i + 1..end];
    }
  }

  method SkipBlanks(b: string, i: nat) returns (j: nat)
    requires i <= |b|
    ensures j == BlanksFrom(b, i)
  {
    j := i;
    while j < |b| && (b[j] == ' ' || b[j] == '\t')
      invariant i <= j <= |b| && BlanksFrom(b, i) == BlanksFrom(b, j)
    {
      j := j + 1;
    }
  }

  method CollapseText(b: string) returns (out: string)
    ensures out == Collapse(b)
  {
    hide Backslash;
    out := "";
    var i := 0;
    while i < |b|
      invariant 0 <= i <= |b|
      invariant Collapse(b) == out + CollapseFrom(b, i)
      decreases |b| - i
    {
      if b[i] == '\\' {
        var n, rep := ScanBackslash(b, i);
        assert out + (rep + CollapseFrom(b, i + n)) == out + rep + CollapseFrom(b, i + n);
        out := out + rep;
        i := i + n;
      } else {
        var end := if i + Len(b[i]) <= |b| then i + Len(b[i]) else |b|;
        assert out + (b[i..end] + CollapseFrom(b, end)) == out + b[i..end] + CollapseFrom(b, end);
        out := out + b[i..end];
        i := end;
      }
    }
  }

  // ── parsing ──

  method Skip(b: string, i: nat) returns (j: nat)
    requires i <= |b|
    ensures j == SkipSpaces(b, i)
  {
    j := i;
    while j < |b| && IsSpace(b[j])
      invariant i <= j <= |b| && SkipSpaces(b, i) == SkipSpaces(b, j)
    {
      j := j + 1;
    }
  }

  method FindBracedElement(b: string, start: nat) returns (r: Result<(string, nat)>)
    requires start < |b| && b[start] == '{'
    ensures r == FindElement(b, start)
  {
    hide Backslash, SkipSpaces;
    var i := start + 1;
    var depth := 1;
    while i < |b|
      invariant start + 1 <= i <= |b| && depth > 0
      invariant CloseBrace(b, start + 1, 1) == CloseBrace(b, i, depth)
      decreases |b| - i
    {
      if b[i] == '{' {
        depth := depth + 1;
        i := i + 1;
      } else if b[i] == '}' {
        depth := depth - 1;
        i := i + 1;
        if depth == 0 {
          if i >= |b| || IsSpace(b[i]) {
            var j := Skip(b, i);
            return Ok((b[start + 1..i - 1], j));
          }
          return Error(JunkAfterBraces(i));
        }
      } else if b[i] == '\\' {
        var n, _ := ScanBackslash(b, i);
        i := i + n;
      } else {
        i := i + 1;
      }
    }
    return Error(OpenBrace);
  }

  lemma {:induction false} SliceHas(b: string, i: nat, j: nat, k: nat, has: bool)
    requires i <= j <= k <= |b| && has == HasBackslash(b[i..j])
    requires forall m | j <= m < k :: b[m] != '\\'
    ensures has == HasBackslash(b[i..k])
  {
    var s, t := b[i..j], b[i..k];
    if has { var m :| 0 <= m < |s| && s[m] == '\\'; assert t[m] == '\\'; }
    if HasBackslash(t) { var m :| 0 <= m < |t| && t[m] == '\\'; assert b[i + m] == '\\'; assert s[m] == '\\'; }
  }

  method FindQuotedElement(b: string, start: nat) returns (r: Result<(string, nat)>)
    requires start < |b| && b[start] == '"'
    ensures r == FindElement(b, start)
  {
    hide Backslash, SkipSpaces, Collapse;
    var i := start + 1;
    var hasBackslash := false;
    while i < |b|
      invariant start + 1 <= i <= |b|
      invariant CloseQuote(b, start + 1) == CloseQuote(b, i)
      invariant hasBackslash == HasBackslash(b[start + 1..i])
      decreases |b| - i
    {
      if b[i] == '"' {
        var raw := b[start + 1..i];
        i := i + 1;
        if i >= |b| || IsSpace(b[i]) {
          var j := Skip(b, i);
          var v := raw;
          if hasBackslash { v := CollapseText(raw); }
          return Ok((v, j));
        }
        return Error(JunkAfterQuotes(i));
      } else if b[i] == '\\' {
        hasBackslash := true;
        var n, _ := ScanBackslash(b, i);
        assert b[start + 1..i + n][i - start - 1] == '\\';
        i := i + n;
      } else {
        SliceHas(b, start + 1, i, i + 1, hasBackslash);
        i := i + 1;
      }
    }
    return Error(OpenQuote);
  }

  method FindBareElement(b: string, start: nat) returns (r: Result<(string, nat)>)
    requires start < |b| && !IsSpace(b[start]) && b[start] != '{' && b[start] != '"'
    ensures r == FindElement(b, start)
  {
    hide Backslash, Collapse;
    var i := start;
    var hasBackslash := false;
    while i < |b| && !IsSpace(b[i])
      invariant start <= i <= |b|
      invariant BareEnd(b, start) == BareEnd(b, i)
      invariant hasBackslash == HasBackslash(b[start..i])
      decreases |b| - i
    {
      if b[i] == '\\' {
        hasBackslash := true;
        var n, _ := ScanBackslash(b, i);
        assert b[start..i + n][i - start] == '\\';
        i := i + n;
      } else {
        SliceHas(b, start, i, i + 1, hasBackslash);
        i := i + 1;
      }
    }
    var v := b[start..i];
    if hasBackslash { v := CollapseText(v); }
    return Ok((v, i));
  }

  method ParseElements(b: string) returns (r: Result<seq<string>>)
    ensures r == Parse(b)
  {
    hide FindElement, SkipSpaces;
    var result: seq<string> := [];
    var i := 0;
    assert Parse(b).Ok? ==> [] + Parse(b).value == Parse(b).value;
    while true
      invariant 0 <= i <= |b|
      invariant Parse(b) == Prefixed(result, ParseFrom(b, i))
      decreases |b| - i
    {
      var j := Skip(b, i);
      if j >= |b| {
        assert result + [] == result;
        return Ok(result);
      }
      var e;
      if b[j] == '{' { e := FindBracedElement(b, j); }
      else if b[j] == '"' { e := FindQuotedElement(b, j); }
      else { e := FindBareElement(b, j); }
      if e.Error? { return Error(e.error); }
      PrefixedOne(result, e.value.0, ParseFrom(b, e.value.1));
      result := result + [e.value.0];
      i := e.value.1;
    }
  }

  function Prefixed(pre: seq<string>, r: Result<seq<string>>): Result<seq<string>> {
    match r case Ok(v) => Ok(pre + v) case Error(e) => Error(e)
  }

  lemma PrefixedOne(pre: seq<string>, x: string, r: Result<seq<string>>)
    ensures Prefixed(pre, Prefixed([x], r)) == Prefixed(pre + [x], r)
  {
    if r.Ok? { assert pre + ([x] + r.value) == pre + [x] + r.value; }
  }
}
