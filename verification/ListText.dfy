/** Lists as text: how an element is quoted, and how text is split back into
    elements. */
module ListText {
  import opened Options
  import opened Utf8

  predicate IsSpace(c: char) {
    c == ' ' || c == '\t' || c == '\n' || c == '\U{b}' || c == '\U{c}' || c == '\r'
  }

  // ── printing ──

  datatype Mode = Plain | Brace | Escape | Mask

  datatype Scan = Scan(forbidNone: bool, requireEscape: bool, preferEscape: bool, preferBrace: bool, nesting: int)

  /** One byte (or escaped pair) of the quoting scan, and where it goes on. */
  function ScanOne(s: string, i: nat, st: Scan): (r: (Scan, nat))
    requires i < |s|
    ensures i < r.1 <= i + 2 && r.1 <= |s|
  {
    var c := s[i];
    if c == '{' then (st.(nesting := st.nesting + 1), i + 1)
    else if c == '}' then
      (st.(nesting := st.nesting - 1, requireEscape := st.requireEscape || st.nesting <= 0), i + 1)
    else if c == ']' || c == '"' then (st.(forbidNone := true, preferEscape := true), i + 1)
    else if c == '[' || c == '$' || c == ';' || IsSpace(c) then
      (st.(forbidNone := true, preferBrace := true), i + 1)
    else if c == '\\' then
      (st.(forbidNone := true, preferBrace := true,
           requireEscape := st.requireEscape || i + 1 == |s| || s[i + 1] == '\n'),
       if i + 1 < |s| && (s[i + 1] == '\n' || s[i + 1] == '{' || s[i + 1] == '}' || s[i + 1] == '\\')
       then i + 2 else i + 1)
    else (st, i + 1)
  }

  function ScanFrom(s: string, i: nat, st: Scan): Scan
    requires i <= |s|
    decreases |s| - i
  {
    if i == |s| then st
    else var r := ScanOne(s, i, st); ScanFrom(s, r.1, r.0)
  }

  function Started(s: string): Scan {
    var lead := s != "" && (s[0] == '{' || s[0] == '"');
    Scan(lead, false, false, lead, 0)
  }

  function Decide(st: Scan): Mode {
    if st.requireEscape || st.nesting != 0 then Escape
    else if !st.forbidNone then Plain
    else if st.preferEscape && !st.preferBrace then Mask
    else Brace
  }

  /** How an element must be quoted. */
  function ModeOf(s: string): Mode {
    if s == "" then Brace else Decide(ScanFrom(s, 0, Started(s)))
  }

  function EscapeByte(c: char, mode: Mode): (r: string)
    ensures r != ""
  {
    if c == ']' || c == '[' || c == '$' || c == ';' || c == ' ' || c == '\\' || c == '"' then ['\\', c]
    else if c == '{' || c == '}' then if mode.Escape? then ['\\', c] else [c]
    else if c == '\U{c}' then "\\f"
    else if c == '\n' then "\\n"
    else if c == '\r' then "\\r"
    else if c == '\t' then "\\t"
    else if c == '\U{b}' then "\\v"
    else [c]
  }

  function EscapeText(s: string, mode: Mode): string {
    if s == "" then "" else EscapeByte(s[0], mode) + EscapeText(s[1..], mode)
  }

  function Quoted(s: string, mode: Mode): string {
    match mode
    case Plain => s
    case Brace => "{" + s + "}"
    case _ => EscapeText(s, mode)
  }

  /** The text of one element; a leading `#` matters for the first. */
  function Convert(s: string, quoteHash: bool): (r: string)
    ensures r != ""
  {
    if s == "" then "{}"
    else
      var mode := ModeOf(s);
      if quoteHash && s[0] == '#' then
        if mode.Escape? then "\\#" + EscapeText(s[1..], Escape) else Quoted(s, Brace)
      else Quoted(s, mode)
  }

  /** The elements from `k` on, separated by single spaces. */
  function JoinFrom(items: seq<string>, k: nat): string
    requires k <= |items|
    decreases |items| - k
  {
    if k == |items| then ""
    else (if k > 0 then " " else "") + Convert(items[k], k == 0) + JoinFrom(items, k + 1)
  }

  /** The printed list; text that is not UTF-8 would be dropped. */
  function Serialize(items: seq<string>): string {
    var out := JoinFrom(items, 0);
    if Valid(out) then out else ""
  }

  // ── backslash sequences ──

  predicate IsHex(c: char) { '0' <= c <= '9' || 'a' <= c <= 'f' || 'A' <= c <= 'F' }

  function Digit(c: char): nat
    requires IsHex(c)
  {
    if c <= '9' then c as int - '0' as int
    else if c <= 'F' then c as int - 'A' as int + 10
    else c as int - 'a' as int + 10
  }

  const MAX32: int := 0xffff_ffff

  function Saturated(v: nat): nat { if v > MAX32 then MAX32 else v }

  /** Up to `max` hex digits from `i`: how many, and their value. */
  function HexRun(b: string, i: nat, max: nat, n: nat, val: nat): (r: (nat, nat))
    requires i + n <= |b| && n <= max
    ensures n <= r.0 <= max && i + r.0 <= |b|
    ensures forall k | i + n <= k < i + r.0 :: IsHex(b[k])
    decreases max - n
  {
    if n < max && i + n < |b| && IsHex(b[i + n])
    then HexRun(b, i, max, n + 1, Saturated(val * 16 + Digit(b[i + n]))) else (n, val)
  }

  predicate IsOctal(c: char) { '0' <= c <= '7' }

  function OctalRun(b: string, i: nat, n: nat, val: nat): (r: (nat, nat))
    requires i + n <= |b| && 1 <= n <= 3
    ensures n <= r.0 <= 3 && i + r.0 <= |b|
    ensures forall k | i + n <= k < i + r.0 :: IsOctal(b[k])
    decreases 3 - n
  {
    if n < 3 && i + n < |b| && IsOctal(b[i + n]) && !(n == 2 && val >= 0x20)
    then OctalRun(b, i, n + 1, val * 8 + Digit(b[i + n])) else (n, val)
  }

  function BlanksFrom(b: string, j: nat): (r: nat)
    requires j <= |b|
    ensures j <= r <= |b|
    ensures forall k | j <= k < r :: b[k] == ' ' || b[k] == '\t'
    decreases |b| - j
  {
    if j < |b| && (b[j] == ' ' || b[j] == '\t') then BlanksFrom(b, j + 1) else j
  }

  /** A high surrogate escape right before a low one. */
  predicate PairAhead(b: string, j: nat, n: nat, val: nat)
    requires j + n <= |b|
  {
    && n == 4 && 0xd800 <= val < 0xdc00
    && j + n + 1 < |b| && b[j + n] == '\\' && b[j + n + 1] == 'u'
  }

  function Combined(val: nat, low: nat): nat {
    (val % 0x400) * 0x400 + low % 0x400 + 0x1_0000
  }

  /** `\u` and `\U`, from their letter at `i + 1`. */
  function UnicodeEscape(b: string, i: nat): (r: (nat, string))
    requires i + 1 < |b| && (b[i + 1] == 'u' || b[i + 1] == 'U')
    ensures 2 <= r.0 && i + r.0 <= |b|
  {
    var c := b[i + 1];
    var h := HexRun(b, i + 2, if c == 'u' then 4 else 8, 0, 0);
    var n, val := h.0, h.1;
    if n == 0 then (2, [c])
    else
      var lo := if c == 'u' && PairAhead(b, i + 2, n, val) then HexRun(b, i + 2 + n + 2, 4, 0, 0) else (0, 0);
      if lo.0 == 4 && 0xdc00 <= lo.1 < 0xe000 then (2 + n + 2 + 4, EncodeLossy(Combined(val, lo.1)))
      else (2 + n, EncodeLossy(val))
  }

  function Letter(c: char): Option<string> {
    if c == 'a' then Some("\U{7}") else if c == 'b' then Some("\U{8}") else if c == 'f' then Some("\U{c}")
    else if c == 'n' then Some("\n") else if c == 'r' then Some("\r") else if c == 't' then Some("\t")
    else if c == 'v' then Some("\U{b}") else None
  }

  /** The backslash sequence at `i`: its length and what it stands for. */
  function Backslash(b: string, i: nat): (r: (nat, string))
    requires i < |b| && b[i] == '\\'
    ensures 1 <= r.0 && i + r.0 <= |b|
  {
    if i + 1 == |b| then (1, "\\")
    else
      var c := b[i + 1];
      if Letter(c).Some? then (2, Letter(c).value)
      else if c == 'x' then
        var h := HexRun(b, i + 2, 2, 0, 0);
        if h.0 == 0 then (2, "x") else (2 + h.0, EncodeLossy(h.1 % 0x100))
      else if c == 'u' || c == 'U' then UnicodeEscape(b, i)
      else if IsOctal(c) then
        var o := OctalRun(b, i + 1, 1, Digit(c));
        (1 + o.0, EncodeLossy(o.1 % 0x100))
      else if c == '\n' then (BlanksFrom(b, i + 2) - i, " ")
      else
        var end := if i + 1 + Len(c) <= |b| then i + 1 + Len(c) else |b|;
        (end - i, b[i + 1..end])
  }

  /** Every backslash sequence substituted. */
  function CollapseFrom(b: string, i: nat): string
    decreases |b| - i
  {
    if i >= |b| then ""
    else if b[i] == '\\' then Backslash(b, i).1 + CollapseFrom(b, i + Backslash(b, i).0)
    else
      var end := if i + Len(b[i]) <= |b| then i + Len(b[i]) else |b|;
      b[i..end] + CollapseFrom(b, end)
  }

  function Collapse(b: string): string { CollapseFrom(b, 0) }

  // ── parsing ──

  datatype ListError = JunkAfterBraces(at: nat) | JunkAfterQuotes(at: nat) | OpenBrace | OpenQuote

  datatype Result<T> = Ok(value: T) | Error(error: ListError)

  function SkipSpaces(b: string, i: nat): (r: nat)
    requires i <= |b|
    ensures i <= r <= |b| && (r < |b| ==> !IsSpace(b[r]))
    decreases |b| - i
  {
    if i < |b| && IsSpace(b[i]) then SkipSpaces(b, i + 1) else i
  }

  /** The closing brace that brings `depth` to 0. */
  function CloseBrace(b: string, i: nat, depth: nat): (r: Option<nat>)
    requires i <= |b| && depth > 0
    ensures r.Some? ==> i <= r.value < |b| && b[r.value] == '}'
    decreases |b| - i
  {
    if i == |b| then None
    else if b[i] == '{' then CloseBrace(b, i + 1, depth + 1)
    else if b[i] == '}' then if depth == 1 then Some(i) else CloseBrace(b, i + 1, depth - 1)
    else if b[i] == '\\' then CloseBrace(b, i + Backslash(b, i).0, depth)
    else CloseBrace(b, i + 1, depth)
  }

  function CloseQuote(b: string, i: nat): (r: Option<nat>)
    requires i <= |b|
    ensures r.Some? ==> i <= r.value < |b| && b[r.value] == '"'
    decreases |b| - i
  {
    if i == |b| then None
    else if b[i] == '"' then Some(i)
    else if b[i] == '\\' then CloseQuote(b, i + Backslash(b, i).0)
    else CloseQuote(b, i + 1)
  }

  function BareEnd(b: string, i: nat): (r: nat)
    requires i <= |b|
    ensures i <= r <= |b|
    decreases |b| - i
  {
    if i == |b| || IsSpace(b[i]) then i
    else if b[i] == '\\' then BareEnd(b, i + Backslash(b, i).0)
    else BareEnd(b, i + 1)
  }

  predicate HasBackslash(s: string) { exists k | 0 <= k < |s| :: s[k] == '\\' }

  function Substituted(raw: string): string { if HasBackslash(raw) then Collapse(raw) else raw }

  predicate EndsElement(b: string, i: nat)
    requires i <= |b|
  {
    i == |b| || IsSpace(b[i])
  }

  /** The element at `i` and where to look for the next one. */
  function FindElement(b: string, i: nat): (r: Result<(string, nat)>)
    requires i < |b| && !IsSpace(b[i])
    ensures r.Ok? ==> i < r.value.1 <= |b|
  {
    if b[i] == '{' then
      match CloseBrace(b, i + 1, 1)
      case None => Error(OpenBrace)
      case Some(e) =>
        if EndsElement(b, e + 1) then Ok((b[i + 1..e], SkipSpaces(b, e + 1))) else Error(JunkAfterBraces(e + 1))
    else if b[i] == '"' then
      match CloseQuote(b, i + 1)
      case None => Error(OpenQuote)
      case Some(e) =>
        if EndsElement(b, e + 1) then Ok((Substituted(b[i + 1..e]), SkipSpaces(b, e + 1)))
        else Error(JunkAfterQuotes(e + 1))
    else
      Ok((Substituted(b[i..BareEnd(b, i)]), BareEnd(b, i)))
  }

  function ParseFrom(b: string, i: nat): Result<seq<string>>
    requires i <= |b|
    decreases |b| - i
  {
    var j := SkipSpaces(b, i);
    if j == |b| then Ok([])
    else match FindElement(b, j)
      case Error(e) => Error(e)
      case Ok(r) =>
        match ParseFrom(b, r.1)
        case Error(e) => Error(e)
        case Ok(rest) => Ok([r.0] + rest)
  }

  function Parse(b: string): Result<seq<string>> { ParseFrom(b, 0) }
}
