/** Parsing a printed list gives back its elements, whatever they contain and
    however each was quoted. */
module ListRoundTrip {
  import opened Options
  import opened Utf8
  import opened ListText

  // ── bare text: read to its end, and decoded byte by byte ──

  /** What a backslash may be put in front of, other than letters of its own. */
  predicate Special(c: char) {
    c == ']' || c == '[' || c == '$' || c == ';' || c == ' ' || c == '\\' || c == '"' || c == '{' || c == '}'
        || c == '#'
  }

  predicate Escapable(c: char) { Special(c) || c == 'f' || c == 'n' || c == 'r' || c == 't' || c == 'v' }

  /** No blank, and every backslash starts one of the printer's escapes. */
  predicate Bare(raw: string) {
    raw != "" ==>
      if raw[0] == '\\' then |raw| > 1 && Escapable(raw[1]) && Bare(raw[2..])
      else !IsSpace(raw[0]) && Bare(raw[1..])
  }

  /** The printer's escapes are two bytes wherever they stand. */
  lemma ShortEscape(b: string, i: nat)
    requires i + 1 < |b| && b[i] == '\\' && Escapable(b[i + 1])
    ensures Backslash(b, i).0 == 2
    ensures Special(b[i + 1]) ==> Backslash(b, i).1 == [b[i + 1]]
    ensures !Special(b[i + 1]) ==> Letter(b[i + 1]).Some? && Backslash(b, i).1 == Letter(b[i + 1]).value
  {
  }

  lemma {:induction false} BareRuns(b: string, i: nat, raw: string)
    requires Bare(raw) && i + |raw| <= |b| && b[i..i + |raw|] == raw && EndsElement(b, i + |raw|)
    ensures BareEnd(b, i) == i + |raw|
    decreases |raw|
  {
    if raw != "" {
      assert b[i] == raw[0];
      if raw[0] == '\\' {
        assert b[i + 1] == raw[1];
        ShortEscape(b, i);
        assert b[i + 2..i + |raw|] == raw[2..];
        BareRuns(b, i + 2, raw[2..]);
      } else {
        assert b[i + 1..i + |raw|] == raw[1..];
        BareRuns(b, i + 1, raw[1..]);
      }
    }
  }

  lemma {:induction false} BareJoin(a: string, b: string)
    requires Bare(a) && Bare(b)
    ensures Bare(a + b)
    decreases |a|
  {
    if a == "" {
      assert a + b == b;
    } else if a[0] == '\\' {
      BareJoin(a[2..], b);
      assert (a + b)[2..] == a[2..] + b;
    } else {
      BareJoin(a[1..], b);
      assert (a + b)[1..] == a[1..] + b;
    }
  }

  lemma BareByte(c: char, mode: Mode)
    ensures Bare(EscapeByte(c, mode))
  {
    var e := EscapeByte(c, mode);
    if |e| == 2 { assert e[2..] == ""; } else { assert e[1..] == ""; }
  }

  lemma {:induction false} BareEscaped(s: string, mode: Mode)
    ensures Bare(EscapeText(s, mode))
  {
    if s != "" {
      BareByte(s[0], mode);
      BareEscaped(s[1..], mode);
      BareJoin(EscapeByte(s[0], mode), EscapeText(s[1..], mode));
    }
  }

  // ── collapsing undoes escaping ──

  function Unescaped(c: char): string { if Letter(c).Some? && !Special(c) then Letter(c).value else [c] }

  /** Bare text read byte by byte. */
  function Decoded(raw: string): string {
    if raw == "" then ""
    else if raw[0] == '\\' && |raw| > 1 then Unescaped(raw[1]) + Decoded(raw[2..])
    else [raw[0]] + Decoded(raw[1..])
  }

  lemma EscapeShape(c: char, mode: Mode)
    requires mode.Escape? || mode.Mask?
    ensures var e := EscapeByte(c, mode);
            || (|e| == 2 && e[0] == '\\' && Unescaped(e[1]) == [c])
            || (e == [c] && c != '\\')
  {
  }

  lemma DecodeByte(c: char, mode: Mode, rest: string)
    requires mode.Escape? || mode.Mask?
    ensures Decoded(EscapeByte(c, mode) + rest) == [c] + Decoded(rest)
  {
    hide EscapeByte, Unescaped;
    EscapeShape(c, mode);
    var e := EscapeByte(c, mode);
    if |e| == 2 { assert (e + rest)[2..] == rest; } else { assert (e + rest)[1..] == rest; }
  }

  lemma {:induction false} DecodeEscaped(s: string, mode: Mode)
    requires mode.Escape? || mode.Mask?
    ensures Decoded(EscapeText(s, mode)) == s
  {
    hide EscapeByte;
    if s != "" {
      DecodeByte(s[0], mode, EscapeText(s[1..], mode));
      DecodeEscaped(s[1..], mode);
    }
  }

  /** Bytes of one character are decoded as they are. */
  lemma {:induction false} DecodedRun(raw: string, n: nat)
    requires n <= |raw| && forall k | 0 <= k < n :: raw[k] != '\\'
    ensures Decoded(raw) == raw[..n] + Decoded(raw[n..])
    decreases n
  {
    if n == 0 {
      assert raw[n..] == raw;
    } else {
      DecodedRun(raw[1..], n - 1);
      assert raw[1..][n - 1..] == raw[n..];
      assert raw[..n] == [raw[0]] + raw[1..][..n - 1];
    }
  }

  lemma AfterPair(raw: string)
    requires Valid(raw) && |raw| > 1 && raw[0] == '\\' && Escapable(raw[1])
    ensures Valid(raw[2..])
  {
    assert raw[1..][1..] == raw[2..];
  }

  /** Skipping one whole character of bare text. */
  lemma BareTail(raw: string, n: nat)
    requires Bare(raw) && Valid(raw) && raw != "" && raw[0] != '\\' && n == Len(raw[0])
    ensures n <= |raw| && Bare(raw[n..]) && Valid(raw[n..])
    ensures forall k | 0 <= k < n :: raw[k] != '\\'
  {
    OneCharBytes(raw[..n]);
    assert forall k | 0 < k < n :: raw[k] == raw[..n][k];
    BareDrop(raw, n);
  }

  lemma {:induction false} BareDrop(raw: string, n: nat)
    requires Bare(raw) && n <= |raw| && (n > 0 ==> raw[0] != '\\')
    requires forall k | 0 < k < n :: IsCont(raw[k])
    ensures Bare(raw[n..])
    decreases n
  {
    if n == 0 {
      assert raw[n..] == raw;
    } else {
      assert raw[1..][n - 1..] == raw[n..];
      BareDrop(raw[1..], n - 1);
    }
  }

  lemma CollapseEscape(b: string, i: nat)
    requires i + 1 < |b| && b[i] == '\\' && Escapable(b[i + 1])
    ensures CollapseFrom(b, i) == Unescaped(b[i + 1]) + CollapseFrom(b, i + 2)
  {
    hide Backslash;
    ShortEscape(b, i);
  }

  lemma CollapseChar(b: string, i: nat, n: nat)
    requires i < |b| && b[i] != '\\' && n == Len(b[i]) && i + n <= |b|
    ensures CollapseFrom(b, i) == b[i..i + n] + CollapseFrom(b, i + n)
  {
  }

  lemma {:induction false} CollapseDecodes(b: string, i: nat)
    requires i <= |b| && Bare(b[i..]) && Valid(b[i..])
    ensures CollapseFrom(b, i) == Decoded(b[i..])
    decreases |b| - i
  {
    hide OneChar, Len, Backslash, Valid, CollapseFrom, Unescaped;
    if i < |b| {
      var raw := b[i..];
      assert raw[0] == b[i];
      if b[i] == '\\' {
        assert raw[1] == b[i + 1];
        AfterPair(raw);
        assert raw[2..] == b[i + 2..];
        CollapseDecodes(b, i + 2);
        CollapseEscape(b, i);
      } else {
        hide Bare, Decoded;
        var n := Len(b[i]);
        BareTail(raw, n);
        DecodedRun(raw, n);
        assert raw[n..] == b[i + n..] && raw[..n] == b[i..i + n];
        CollapseDecodes(b, i + n);
        CollapseChar(b, i, n);
      }
    } else {
      CollapseNothing(b, i);
    }
  }

  lemma CollapseNothing(b: string, i: nat)
    requires i >= |b|
    ensures CollapseFrom(b, i) == ""
  {
  }

  lemma {:induction false} EscapeJoin(a: string, b: string, mode: Mode)
    ensures EscapeText(a + b, mode) == EscapeText(a, mode) + EscapeText(b, mode)
  {
    hide EscapeByte;
    if a == "" {
      assert a + b == b;
    } else {
      EscapeJoin(a[1..], b, mode);
      assert (a + b)[1..] == a[1..] + b;
    }
  }

  /** Bytes beyond ASCII are printed as they are. */
  lemma {:induction false} EscapeHigh(s: string, mode: Mode)
    requires forall k | 0 <= k < |s| :: !IsAscii(s[k])
    ensures EscapeText(s, mode) == s
  {
    if s != "" {
      assert EscapeByte(s[0], mode) == [s[0]];
      EscapeHigh(s[1..], mode);
    }
  }

  lemma {:induction false} EscapedIsValid(s: string, mode: Mode)
    requires Valid(s)
    ensures Valid(EscapeText(s, mode))
    decreases |s|
  {
    hide OneChar, EscapeByte;
    if s != "" {
      var n := Len(s[0]);
      var c := s[..n];
      EscapedIsValid(s[n..], mode);
      assert s == c + s[n..];
      EscapeJoin(c, s[n..], mode);
      OneCharBytes(c);
      assert Valid(EscapeText(c, mode)) by { EscapedChar(c, mode); }
      ValidJoin(EscapeText(c, mode), EscapeText(s[n..], mode));
    }
  }

  lemma EscapedChar(c: string, mode: Mode)
    requires OneChar(c)
    ensures Valid(EscapeText(c, mode))
    ensures !IsAscii(c[0]) ==> EscapeText(c, mode) == c
    ensures IsAscii(c[0]) ==> |c| == 1 && EscapeText(c, mode) == EscapeByte(c[0], mode)
  {
    if |c| == 1 {
      assert c[1..] == "" && EscapeText(c, mode) == EscapeByte(c[0], mode) + "";
      ValidAscii(EscapeByte(c[0], mode));
    } else {
      EscapeHigh(c, mode);
      ValidOne(c);
    }
  }

  /** The heart of the bare round trip. */
  lemma CollapseEscaped(s: string, mode: Mode)
    requires Valid(s) && (mode.Escape? || mode.Mask?)
    ensures Collapse(EscapeText(s, mode)) == s
  {
    var raw := EscapeText(s, mode);
    BareEscaped(s, mode);
    EscapedIsValid(s, mode);
    assert raw[0..] == raw;
    CollapseDecodes(raw, 0);
    DecodeEscaped(s, mode);
  }

  lemma {:induction false} CollapsePlain(s: string, i: nat)
    requires i <= |s| && Valid(s[i..]) && forall k | i <= k < |s| :: s[k] != '\\'
    ensures CollapseFrom(s, i) == s[i..]
    decreases |s| - i
  {
    if i < |s| {
      var n := Len(s[i]);
      assert s[i..][n..] == s[i + n..];
      CollapsePlain(s, i + n);
      assert s[i..] == s[i..i + n] + s[i + n..];
    }
  }

  lemma SubstitutedIsCollapse(raw: string)
    requires Valid(raw)
    ensures Substituted(raw) == Collapse(raw)
  {
    if !HasBackslash(raw) {
      assert raw[0..] == raw;
      CollapsePlain(raw, 0);
    }
  }

  // ── what the quoting scan promises ──

  /** A byte that needs no quoting by itself. */
  predicate Quiet(c: char) {
    c != ']' && c != '"' && c != '[' && c != '$' && c != ';' && c != '\\' && !IsSpace(c)
  }

  lemma {:induction false} FlagsStick(s: string, i: nat, st: Scan)
    requires i <= |s|
    ensures var r := ScanFrom(s, i, st);
      && (st.forbidNone ==> r.forbidNone) && (st.requireEscape ==> r.requireEscape)
      && (st.preferBrace ==> r.preferBrace)
    decreases |s| - i
  {
    if i < |s| { FlagsStick(s, ScanOne(s, i, st).1, ScanOne(s, i, st).0); }
  }

  lemma {:induction false} QuietText(s: string, i: nat, st: Scan)
    requires i <= |s| && !ScanFrom(s, i, st).forbidNone
    ensures forall k | i <= k < |s| :: Quiet(s[k])
    decreases |s| - i
  {
    if i < |s| {
      var r := ScanOne(s, i, st);
      FlagsStick(s, r.1, r.0);
      QuietText(s, r.1, r.0);
    }
  }

  lemma {:induction false} QuietIsBare(s: string)
    requires forall k | 0 <= k < |s| :: Quiet(s[k])
    ensures Bare(s)
  {
    if s != "" { QuietIsBare(s[1..]); }
  }

  /** Plain text is bare and starts no brace or quote. */
  lemma PlainIsBare(s: string)
    requires s != "" && ModeOf(s).Plain?
    ensures Bare(s) && s[0] != '{' && s[0] != '"'
  {
    FlagsStick(s, 0, Started(s));
    QuietText(s, 0, Started(s));
    QuietIsBare(s);
  }

  lemma MaskStarts(s: string)
    requires s != "" && ModeOf(s).Mask?
    ensures s[0] != '{' && s[0] != '"'
  {
    FlagsStick(s, 0, Started(s));
  }

  // ── braced text: the parser finds the printer's brace ──

  /** Bytes the brace count ignores on either side. */
  predicate Inert(c: char) { c != '{' && c != '}' && c != '\\' }

  lemma {:induction false} InertRun(s: string, i: nat, j: nat, st: Scan) returns (st': Scan)
    requires i <= j <= |s| && forall k | i <= k < j :: Inert(s[k])
    ensures ScanFrom(s, i, st) == ScanFrom(s, j, st')
    ensures st'.nesting == st.nesting
    decreases j - i
  {
    if i == j { st' := st; } else { st' := InertRun(s, i + 1, j, ScanOne(s, i, st).0); }
  }

  /** `s` stands in `b` at `off`, closed by a brace. */
  predicate Braced(b: string, off: nat, s: string) {
    off + |s| < |b| && b[off..off + |s|] == s && b[off + |s|] == '}'
  }

  lemma BracedLength(b: string, off: nat, s: string)
    requires Braced(b, off, s)
    ensures off + |s| < |b|
  {
  }

  lemma BracedAt(b: string, off: nat, s: string, k: nat)
    requires Braced(b, off, s) && k <= |s|
    ensures off + k < |b| && b[off + k] == if k < |s| then s[k] else '}'
  {
    if k < |s| { assert b[off..off + |s|][k] == s[k]; }
  }

  lemma HexInert(b: string, off: nat, s: string, j: nat, max: nat)
    requires Braced(b, off, s) && j <= |s|
    ensures var n := HexRun(b, off + j, max, 0, 0).0;
            j + n <= |s| && forall k | j <= k < j + n :: Inert(s[k])
  {
    BracedAt(b, off, s, |s|);
    assert !IsHex(b[off + |s|]);
    forall k | j <= k < |s| ensures s[k] == b[off + k] { BracedAt(b, off, s, k); }
  }

  lemma OctalInert(b: string, off: nat, s: string, j: nat, val: nat)
    requires Braced(b, off, s) && j < |s|
    ensures var n := OctalRun(b, off + j, 1, val).0;
            j + n <= |s| && forall k | j < k < j + n :: Inert(s[k])
  {
    BracedAt(b, off, s, |s|);
    assert !IsOctal(b[off + |s|]);
    forall k | j <= k < |s| ensures s[k] == b[off + k] { BracedAt(b, off, s, k); }
  }

  /** The bytes of the character an unknown escape quotes. */
  lemma QuotedChar(s: string, j: nat)
    requires Valid(s) && j + 1 < |s| && s[j] == '\\' && Inert(s[j + 1])
    ensures j + 1 + Len(s[j + 1]) <= |s|
    ensures forall k | j + 1 <= k < j + 1 + Len(s[j + 1]) :: Inert(s[k])
  {
    AfterAscii(s, j);
    CharAt(s, j + 1);
    var n := Len(s[j + 1]);
    var c := s[j + 1..j + 1 + n];
    OneCharBytes(c);
    forall k | j + 1 <= k < j + 1 + n ensures Inert(s[k]) { assert s[k] == c[k - j - 1]; }
  }

  lemma ScanStep(s: string, i: nat, st: Scan)
    requires i < |s|
    ensures ScanFrom(s, i, st) == ScanFrom(s, ScanOne(s, i, st).1, ScanOne(s, i, st).0)
  {
  }

  lemma LoneBackslash(s: string, i: nat, st: Scan) returns (st': Scan)
    requires i + 1 < |s| && s[i] == '\\' && s[i + 1] == 'u'
    ensures ScanFrom(s, i, st) == ScanFrom(s, i + 1, st') && st'.nesting == st.nesting
  {
    st' := ScanOne(s, i, st).0;
  }

  lemma LetterUIsInert(c: char)
    requires c == 'u' || c == 'U'
    ensures Inert(c)
  {
  }

  /** A `\u` escape, perhaps a surrogate pair: both sides ignore all of it. */
  lemma SkipUnicode(b: string, off: nat, s: string, j: nat, st: Scan) returns (st': Scan)
    requires Braced(b, off, s) && j + 1 < |s| && (s[j + 1] == 'u' || s[j + 1] == 'U')
    requires off + j + 1 < |b| && b[off + j + 1] == s[j + 1]
    ensures var n := UnicodeEscape(b, off + j).0;
            j + n <= |s| && ScanFrom(s, j + 1, st) == ScanFrom(s, j + n, st') && st'.nesting == st.nesting
  {
    hide HexRun, EncodeLossy, ScanFrom, Inert, Braced;
    var c := s[j + 1];
    var h := HexRun(b, off + j + 2, if c == 'u' then 4 else 8, 0, 0);
    assert Inert(c) by { LetterUIsInert(c); }
    HexInert(b, off, s, j + 2, if c == 'u' then 4 else 8);
    if c == 'u' && PairAhead(b, off + j + 2, h.0, h.1) {
      BracedAt(b, off, s, j + 6);
      assert j + 6 < |s| && s[j + 6] == '\\';
      BracedAt(b, off, s, j + 7);
      assert j + 7 < |s| && s[j + 7] == 'u';
      HexInert(b, off, s, j + 8, 4);
      if UnicodeEscape(b, off + j).0 == 12 {
        var m := InertRun(s, j + 1, j + 6, st);
        var m' := LoneBackslash(s, j + 6, m);
        LetterUIsInert('u');
        st' := InertRun(s, j + 7, j + 12, m');
        return;
      }
    }
    st' := InertRun(s, j + 1, j + 2 + h.0, st);
  }

  lemma SkipBackslash(b: string, off: nat, s: string, j: nat, st: Scan) returns (st': Scan)
    requires Braced(b, off, s) && Valid(s) && j < |s| && s[j] == '\\' && b[off + j] == '\\'
    requires !ScanFrom(s, j, st).requireEscape
    ensures var n := Backslash(b, off + j).0;
            j + n <= |s| && ScanFrom(s, j, st) == ScanFrom(s, j + n, st') && st'.nesting == st.nesting
  {
    hide HexRun, OctalRun, UnicodeEscape, EncodeLossy, ScanFrom, BlanksFrom, Valid, Braced;
    var r := ScanOne(s, j, st);
    ScanStep(s, j, st);
    FlagsStick(s, r.1, r.0);
    assert j + 1 < |s| && s[j + 1] != '\n';
    BracedAt(b, off, s, j + 1);
    BracedLength(b, off, s);
    var c := s[j + 1];
    if !Inert(c) {
      st' := r.0;
    } else if Letter(c).Some? {
      st' := InertRun(s, j + 1, j + 2, r.0);
    } else if c == 'x' {
      HexInert(b, off, s, j + 2, 2);
      st' := InertRun(s, j + 1, j + Backslash(b, off + j).0, r.0);
    } else if c == 'u' || c == 'U' {
      st' := SkipUnicode(b, off, s, j, r.0);
    } else if IsOctal(c) {
      OctalInert(b, off, s, j + 1, Digit(c));
      st' := InertRun(s, j + 1, j + Backslash(b, off + j).0, r.0);
    } else {
      QuotedChar(s, j);
      st' := InertRun(s, j + 1, j + 1 + Len(c), r.0);
    }
  }

  lemma PlainStep(s: string, j: nat, st: Scan)
    requires j < |s| && s[j] != '\\'
    ensures var r := ScanOne(s, j, st);
      && r.1 == j + 1
      && r.0.nesting == st.nesting + (if s[j] == '{' then 1 else if s[j] == '}' then -1 else 0)
      && (s[j] == '}' && st.nesting <= 0 ==> r.0.requireEscape)
  {
  }

  lemma {:induction false} BraceCloses(b: string, off: nat, s: string, j: nat, st: Scan)
    requires Braced(b, off, s) && Valid(s) && j <= |s| && st.nesting >= 0
    requires var r := ScanFrom(s, j, st); !r.requireEscape && r.nesting == 0
    ensures CloseBrace(b, off + j, st.nesting + 1) == Some(off + |s|)
    decreases |s| - j
  {
    hide Backslash, Valid, Braced, ScanOne;
    BracedAt(b, off, s, j);
    if j < |s| {
      if s[j] == '\\' {
        hide ScanFrom;
        var st' := SkipBackslash(b, off, s, j, st);
        BraceCloses(b, off, s, j + Backslash(b, off + j).0, st');
      } else {
        hide ScanFrom;
        var r := ScanOne(s, j, st);
        ScanStep(s, j, st);
        PlainStep(s, j, st);
        FlagsStick(s, r.1, r.0);
        BraceCloses(b, off, s, j + 1, r.0);
      }
    }
  }

  // ── one element ──

  /** `text` stands in `b` at `i` and ends an element there. */
  predicate Placed(b: string, i: nat, text: string) {
    i + |text| <= |b| && b[i..i + |text|] == text && EndsElement(b, i + |text|)
  }

  lemma ClosesAtOnce(b: string, i: nat)
    requires i < |b| && b[i] == '}'
    ensures CloseBrace(b, i, 1) == Some(i)
  {
  }

  lemma BracedPlace(b: string, i: nat, s: string)
    requires Placed(b, i, "{" + s + "}")
    ensures i + 2 + |s| <= |b| && b[i] == '{' && b[i + 1 + |s|] == '}'
    ensures Braced(b, i + 1, s) && b[i + 1..i + 1 + |s|] == s && EndsElement(b, i + |s| + 2)
  {
    var text := "{" + s + "}";
    assert b[i] == text[0] && b[i + 1 + |s|] == text[1 + |s|];
    assert text[1..1 + |s|] == s;
    assert b[i..i + |text|][1..1 + |s|] == b[i + 1..i + 1 + |s|];
  }

  lemma FindBraced(b: string, i: nat, s: string)
    requires Placed(b, i, "{" + s + "}") && Valid(s)
    requires s == "" || (var r := ScanFrom(s, 0, Started(s)); !r.requireEscape && r.nesting == 0)
    ensures i < |b| && b[i] == '{'
    ensures FindElement(b, i) == Ok((s, SkipSpaces(b, i + |s| + 2)))
  {
    hide ScanFrom, Valid, CloseBrace, SkipSpaces, Placed, Braced, EndsElement;
    BracedPlace(b, i, s);
    if s == "" { ClosesAtOnce(b, i + 1); } else { BraceCloses(b, i + 1, s, 0, Started(s)); }
  }

  lemma FindBare(b: string, i: nat, raw: string, s: string)
    requires Placed(b, i, raw) && raw != "" && Bare(raw) && Valid(raw) && Collapse(raw) == s
    requires raw[0] != '{' && raw[0] != '"'
    ensures i < |b| && b[i] == raw[0] && !IsSpace(b[i])
    ensures FindElement(b, i) == Ok((s, i + |raw|))
  {
    hide Collapse, Valid, Substituted, CloseBrace, CloseQuote, BareEnd, SkipSpaces;
    assert b[i] == raw[0];
    assert !IsSpace(raw[0]);
    BareRuns(b, i, raw);
    SubstitutedIsCollapse(raw);
  }

  lemma QuietValue(s: string)
    requires Valid(s) && ModeOf(s).Plain? && s != ""
    ensures Collapse(s) == s
  {
    FlagsStick(s, 0, Started(s));
    QuietText(s, 0, Started(s));
    assert s[0..] == s;
    CollapsePlain(s, 0);
  }

  /** Escaped text never starts a braced or quoted element. */
  lemma EscapedStarts(s: string, mode: Mode)
    requires s != "" && (mode.Escape? || (mode.Mask? && s[0] != '{' && s[0] != '"'))
    ensures var t := EscapeText(s, mode); t != "" && t[0] != '{' && t[0] != '"'
  {
  }

  lemma FindEscaped(b: string, i: nat, s: string, mode: Mode)
    requires Placed(b, i, EscapeText(s, mode)) && Valid(s)
    requires s != "" && (mode.Escape? || (mode.Mask? && s[0] != '{' && s[0] != '"'))
    ensures i < |b| && !IsSpace(b[i])
    ensures FindElement(b, i) == Ok((s, i + |EscapeText(s, mode)|))
  {
    hide EscapeText, Valid;
    BareEscaped(s, mode);
    EscapedIsValid(s, mode);
    CollapseEscaped(s, mode);
    EscapedStarts(s, mode);
    FindBare(b, i, EscapeText(s, mode), s);
  }

  lemma HashIsBare(t: string)
    requires Bare(t)
    ensures Bare("\\#" + t) && Decoded("\\#" + t) == "#" + Decoded(t)
  {
    assert ("\\#" + t)[2..] == t;
  }

  lemma FindHash(b: string, i: nat, s: string)
    requires s != "" && s[0] == '#' && Valid(s) && Placed(b, i, "\\#" + EscapeText(s[1..], Escape))
    ensures i < |b| && !IsSpace(b[i])
    ensures FindElement(b, i) == Ok((s, i + 2 + |EscapeText(s[1..], Escape)|))
  {
    hide EscapeText, Valid, FindElement, Placed, CollapseFrom;
    var t := EscapeText(s[1..], Escape);
    var raw := "\\#" + t;
    AfterAscii(s, 0);
    Suffix(s, 1);
    BareEscaped(s[1..], Escape);
    EscapedIsValid(s[1..], Escape);
    HashIsBare(t);
    ValidAscii("\\#");
    ValidJoin("\\#", t);
    assert raw[0..] == raw;
    CollapseDecodes(raw, 0);
    DecodeEscaped(s[1..], Escape);
    assert "#" + s[1..] == s;
    FindBare(b, i, raw, s);
  }

  /** Whatever mode is chosen, the element is found again, and what follows is
      looked for right after it. */
  lemma FindConverted(b: string, i: nat, s: string, first: bool)
    requires Placed(b, i, Convert(s, first)) && Valid(s)
    ensures i < |b| && !IsSpace(b[i]) && FindElement(b, i).Ok?
    ensures var r := FindElement(b, i).value;
            r.0 == s && SkipSpaces(b, r.1) == SkipSpaces(b, i + |Convert(s, first)|)
  {
    hide EscapeText, ScanFrom, Valid, FindElement, Placed, SkipSpaces;
    if s == "" {
      assert "{" + s + "}" == "{}";
      FindBraced(b, i, s);
      SkipTwice(b, i + 2);
    } else {
      var mode := ModeOf(s);
      if first && s[0] == '#' {
        if mode.Escape? { FindHash(b, i, s); }
        else { FindBraced(b, i, s); SkipTwice(b, i + |s| + 2); }
      } else {
        match mode
        case Plain =>
          PlainIsBare(s);
          QuietValue(s);
          FindBare(b, i, s, s);
        case Brace => FindBraced(b, i, s); SkipTwice(b, i + |s| + 2);
        case Mask => MaskStarts(s); FindEscaped(b, i, s, Mask);
        case Escape => FindEscaped(b, i, s, Escape);
      }
    }
  }

  lemma {:induction false} SkipTwice(b: string, i: nat)
    requires i <= |b|
    ensures SkipSpaces(b, SkipSpaces(b, i)) == SkipSpaces(b, i)
    decreases |b| - i
  {
  }

  // ── the whole list ──

  lemma ParseStep(b: string, i: nat, j: nat, s: string, next: nat, i': nat, rest: seq<string>)
    requires i <= j < |b| && SkipSpaces(b, i) == j && FindElement(b, j) == Ok((s, next))
    requires i' <= |b| && SkipSpaces(b, next) == SkipSpaces(b, i') && ParseFrom(b, i') == Ok(rest)
    ensures ParseFrom(b, i) == Ok([s] + rest)
  {
    hide FindElement, SkipSpaces;
    assert ParseFrom(b, next) == ParseFrom(b, i');
  }

  /** Where the separator, the element and the rest of a printed list lie. */
  lemma JoinedAt(b: string, i: nat, items: seq<string>, k: nat) returns (j: nat)
    requires k < |items| && i <= |b| && b[i..] == JoinFrom(items, k)
    ensures j == i + (if k > 0 then 1 else 0)
    ensures Placed(b, j, Convert(items[k], k == 0))
    ensures k > 0 ==> b[i] == ' '
    ensures b[j + |Convert(items[k], k == 0)|..] == JoinFrom(items, k + 1)
  {
    hide Convert;
    j := i + (if k > 0 then 1 else 0);
    var sep, text, rest := if k > 0 then " " else "", Convert(items[k], k == 0), JoinFrom(items, k + 1);
    var all := sep + text + rest;
    assert b[i..] == all;
    assert k > 0 ==> b[i] == all[0];
    assert b[j..] == all[|sep|..] == text + rest;
    assert b[j..j + |text|] == (text + rest)[..|text|] == text;
    assert b[j + |text|..] == (text + rest)[|text|..] == rest;
    if rest != "" {
      assert k + 1 < |items| && rest[0] == ' ';
      assert b[j + |text|] == rest[0];
    }
  }

  lemma SkipOne(b: string, i: nat, j: nat)
    requires i <= j < |b| && !IsSpace(b[j]) && (j == i || (j == i + 1 && b[i] == ' '))
    ensures SkipSpaces(b, i) == j
  {
  }

  lemma {:induction false} ParseJoined(b: string, i: nat, items: seq<string>, k: nat)
    requires k <= |items| && i <= |b| && b[i..] == JoinFrom(items, k)
    requires forall j | 0 <= j < |items| :: Valid(items[j])
    ensures ParseFrom(b, i) == Ok(items[k..])
    decreases |items| - k
  {
    hide Convert, FindElement, Valid, JoinFrom, SkipSpaces;
    if k < |items| {
      hide ParseFrom;
      var j := JoinedAt(b, i, items, k);
      var i' := j + |Convert(items[k], k == 0)|;
      FindConverted(b, j, items[k], k == 0);
      SkipOne(b, i, j);
      ParseJoined(b, i', items, k + 1);
      ParseStep(b, i, j, items[k], FindElement(b, j).value.1, i', items[k + 1..]);
      assert items[k..] == [items[k]] + items[k + 1..];
    } else {
      JoinedNothing(items);
      SkipAtEnd(b);
    }
  }

  lemma JoinedNothing(items: seq<string>)
    ensures JoinFrom(items, |items|) == ""
  {
  }

  lemma SkipAtEnd(b: string)
    ensures SkipSpaces(b, |b|) == |b|
  {
  }

  lemma {:induction false} JoinIsValid(items: seq<string>, k: nat)
    requires k <= |items| && forall j | 0 <= j < |items| :: Valid(items[j])
    ensures Valid(JoinFrom(items, k))
    decreases |items| - k
  {
    hide Convert, Valid;
    if k < |items| {
      var sep := if k > 0 then " " else "";
      ValidAscii(sep);
      ConvertIsValid(items[k], k == 0);
      ValidJoin(sep, Convert(items[k], k == 0));
      JoinIsValid(items, k + 1);
      ValidJoin(sep + Convert(items[k], k == 0), JoinFrom(items, k + 1));
    } else {
      ValidAscii("");
    }
  }

  lemma ConvertIsValid(s: string, first: bool)
    requires Valid(s)
    ensures Valid(Convert(s, first))
  {
    hide Valid, ModeOf, EscapeText;
    ValidAscii("{}");
    ValidAscii("{");
    ValidAscii("}");
    ValidAscii("\\#");
    ValidJoin("{", s);
    ValidJoin("{" + s, "}");
    if s != "" {
      EscapedIsValid(s, Escape);
      EscapedIsValid(s, Mask);
      if s[0] == '#' {
        AfterAscii(s, 0);
        Suffix(s, 1);
        EscapedIsValid(s[1..], Escape);
        ValidJoin("\\#", EscapeText(s[1..], Escape));
      }
    }
  }

  /** Every list of UTF-8 strings survives printing and parsing. */
  lemma RoundTrip(items: seq<string>)
    requires forall j | 0 <= j < |items| :: Valid(items[j])
    ensures Valid(Serialize(items))
    ensures Parse(Serialize(items)) == Ok(items)
  {
    JoinIsValid(items, 0);
    var b := JoinFrom(items, 0);
    assert b[0..] == b;
    ParseJoined(b, 0, items, 0);
    assert items[0..] == items;
  }

  /** So different lists print differently, and printing what was parsed from
      printed text changes nothing. */
  lemma SerializeIsInjective(a: seq<string>, b: seq<string>)
    requires forall j | 0 <= j < |a| :: Valid(a[j])
    requires forall j | 0 <= j < |b| :: Valid(b[j])
    ensures Serialize(a) == Serialize(b) ==> a == b
  {
    RoundTrip(a);
    RoundTrip(b);
  }
}
