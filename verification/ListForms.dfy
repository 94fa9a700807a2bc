/** Lists as they may be written: elements as they are, in quotes or in braces,
    with any spaces between them; what they stand for, and what is refused. */
module ListForms {
  import opened Options
  import opened Numerals
  import opened Utf8
  import opened ListText
  import opened Escapes

  /** What may stand in braces: pieces, and more of it in braces. */
  datatype Nest = Flat(p: Piece) | Group(inner: seq<Nest>)

  function NestText(n: Nest): string
    decreases n
  {
    match n case Flat(p) => Text(p) case Group(ns) => "{" + NestTexts(ns) + "}"
  }

  function NestTexts(ns: seq<Nest>): string
    decreases ns
  {
    if ns == [] then "" else NestText(ns[0]) + NestTexts(ns[1..])
  }

  predicate ProperNests(ns: seq<Nest>, next: string)
    decreases ns
  {
    ns != [] ==> ProperNest(ns[0], NestTexts(ns[1..]) + next) && ProperNests(ns[1..], next)
  }

  predicate ProperNest(n: Nest, next: string)
    decreases n
  {
    match n
    case Flat(p) => Proper(p, next) && (p.Raw? ==> p.c != "" && p.c[0] != '{' && p.c[0] != '}')
    case Group(ns) => ProperNests(ns, "}" + next)
  }

  /** An element as it is, in quotes, or in braces. */
  datatype Item = Bare(ps: seq<Piece>) | InQuotes(ps: seq<Piece>) | InBraces(ns: seq<Nest>)

  function ItemText(m: Item): string {
    match m
    case Bare(ps) => Texts(ps)
    case InQuotes(ps) => "\"" + Texts(ps) + "\""
    case InBraces(ns) => "{" + NestTexts(ns) + "}"
  }

  /** In braces nothing is substituted. */
  function ItemSense(m: Item): string { match m case InBraces(ns) => NestTexts(ns) case _ => Senses(m.ps) }

  /** No character as it is is one of these. */
  predicate NoneRaw(ps: seq<Piece>, p: char -> bool) {
    forall k | 0 <= k < |ps| && ps[k].Raw? :: ps[k].c != "" && !p(ps[k].c[0])
  }

  predicate IsQuote(c: char) { c == '"' }

  predicate ProperItem(m: Item, next: string) {
    match m
    case Bare(ps) =>
      && ps != [] && ProperAll(ps, next) && NoneRaw(ps, IsSpace)
      && !(ps[0].Raw? && ps[0].c != "" && ps[0].c[0] in "{\"")
    case InQuotes(ps) => ProperAll(ps, "\"" + next) && NoneRaw(ps, IsQuote)
    case InBraces(ns) => ProperNests(ns, "}" + next)
  }

  /** An element and the spaces in front of it. */
  datatype Entry = Entry(gap: string, item: Item)

  function TextOf(es: seq<Entry>): string {
    if es == [] then "" else es[0].gap + ItemText(es[0].item) + TextOf(es[1..])
  }

  function SensesOf(es: seq<Entry>): seq<string> {
    if es == [] then [] else [ItemSense(es[0].item)] + SensesOf(es[1..])
  }

  predicate Spacing(c: char) { c in " \t\n\r" || c as int == 11 || c as int == 12 }

  predicate AllSpace(s: string) { forall k | 0 <= k < |s| :: Spacing(s[k]) }

  predicate Ends(next: string) { next != "" ==> AllSpace(next[..1]) }

  /** Each item ends where the text does or at a space. */
  predicate ProperEntries(es: seq<Entry>, next: string) {
    es != [] ==>
      && AllSpace(es[0].gap) && Ends(TextOf(es[1..]) + next)
      && ProperItem(es[0].item, TextOf(es[1..]) + next) && ProperEntries(es[1..], next)
  }

  /** A character that is no space goes by, whatever its size. */
  lemma {:induction false} RawGoesBy(b: string, i: nat, c: string, k: nat)
    requires At(b, i, c) && OneChar(c) && c != "\\" && !IsSpace(c[0]) && k <= |c|
    ensures BareEnd(b, i + k) == BareEnd(b, i + |c|)
    decreases |c| - k
  {
    hide OneChar, Backslash;
    OneCharBytes(c);
    if k < |c| {
      AtByte(b, i, c, k);
      RawGoesBy(b, i, c, k + 1);
      assert |c| == 1 ==> c == [c[0]];
      Tame(c, k);
    }
  }

  lemma {:induction false} BareReads(b: string, i: nat, ps: seq<Piece>)
    requires At(b, i, Texts(ps)) && ProperAll(ps, b[i + |Texts(ps)|..]) && NoneRaw(ps, IsSpace)
    ensures BareEnd(b, i) == BareEnd(b, i + |Texts(ps)|)
    decreases ps
  {
    hide Proper, ProperAll, At, Text, BareEnd, IsSpace;
    if ps != [] {
      FirstPiece(b, i, ps);
      BareReads(b, i + |Text(ps[0])|, ps[1..]);
      BareStep(b, i, ps[0]);
    }
  }

  lemma BareStep(b: string, i: nat, p: Piece)
    requires At(b, i, Text(p)) && Proper(p, b[i + |Text(p)|..]) && (p.Raw? ==> p.c != "" && !IsSpace(p.c[0]))
    ensures BareEnd(b, i) == BareEnd(b, i + |Text(p)|)
  {
    hide Backslash, At, OneChar, Spells, Starts, DigitIn;
    if p.Raw? { RawGoesBy(b, i, p.c, 0); } else { PieceRead(b, i, p); }
  }

  lemma {:induction false} RawInQuotes(b: string, i: nat, c: string, k: nat)
    requires At(b, i, c) && OneChar(c) && c != "\\" && c[0] != '"' && k <= |c|
    ensures CloseQuote(b, i + k) == CloseQuote(b, i + |c|)
    decreases |c| - k
  {
    hide OneChar, Backslash;
    OneCharBytes(c);
    if k < |c| {
      AtByte(b, i, c, k);
      RawInQuotes(b, i, c, k + 1);
      Tame(c, k);
    }
  }

  lemma {:induction false} QuotesRead(b: string, i: nat, ps: seq<Piece>)
    requires At(b, i, Texts(ps)) && ProperAll(ps, b[i + |Texts(ps)|..]) && NoneRaw(ps, IsQuote)
    ensures CloseQuote(b, i) == CloseQuote(b, i + |Texts(ps)|)
    decreases ps
  {
    hide Proper, ProperAll, At, Text, CloseQuote;
    if ps != [] {
      FirstPiece(b, i, ps);
      QuotesRead(b, i + |Text(ps[0])|, ps[1..]);
      QuoteStep(b, i, ps[0]);
    }
  }

  lemma QuoteStep(b: string, i: nat, p: Piece)
    requires At(b, i, Text(p)) && Proper(p, b[i + |Text(p)|..]) && (p.Raw? ==> p.c != "" && p.c[0] != '"')
    ensures CloseQuote(b, i) == CloseQuote(b, i + |Text(p)|)
  {
    hide Backslash, At, OneChar, Spells, Starts, DigitIn;
    if p.Raw? { RawInQuotes(b, i, p.c, 0); } else { PieceRead(b, i, p); }
  }

  lemma {:induction false} RawInBraces(b: string, i: nat, c: string, k: nat, depth: nat)
    requires At(b, i, c) && OneChar(c) && c != "\\" && c[0] != '{' && c[0] != '}' && k <= |c| && depth > 0
    ensures CloseBrace(b, i + k, depth) == CloseBrace(b, i + |c|, depth)
    decreases |c| - k
  {
    hide OneChar, Backslash;
    OneCharBytes(c);
    if k < |c| {
      AtByte(b, i, c, k);
      RawInBraces(b, i, c, k + 1, depth);
      Tame(c, k);
    }
  }

  lemma PieceInBraces(b: string, i: nat, p: Piece, depth: nat)
    requires At(b, i, Text(p)) && ProperNest(Flat(p), b[i + |Text(p)|..]) && depth > 0
    ensures CloseBrace(b, i, depth) == CloseBrace(b, i + |Text(p)|, depth)
  {
    hide Backslash, At, OneChar, Spells, Starts, DigitIn;
    if p.Raw? { RawInBraces(b, i, p.c, 0, depth); } else { PieceRead(b, i, p); }
  }

  lemma {:induction false} NestCrossed(b: string, i: nat, n: Nest, depth: nat)
    requires At(b, i, NestText(n)) && ProperNest(n, b[i + |NestText(n)|..]) && depth > 0
    ensures CloseBrace(b, i, depth) == CloseBrace(b, i + |NestText(n)|, depth)
    decreases n
  {
    hide At, Proper, Text, NestTexts, ProperNests, CloseBrace;
    match n
    case Flat(p) => PieceInBraces(b, i, p, depth);
    case Group(ns) =>
      var k := i + 1 + |NestTexts(ns)|;
      BraceParts(b, i, NestTexts(ns));
      BraceOpens(b, i, depth);
      NestsCrossed(b, i + 1, ns, depth + 1);
      BraceCloses(b, k, depth);
  }

  lemma BraceOpens(b: string, i: nat, depth: nat)
    requires i < |b| && b[i] == '{' && depth > 0
    ensures CloseBrace(b, i, depth) == CloseBrace(b, i + 1, depth + 1)
  {
  }

  lemma BraceCloses(b: string, k: nat, depth: nat)
    requires k < |b| && b[k] == '}' && depth > 0
    ensures CloseBrace(b, k, depth + 1) == CloseBrace(b, k + 1, depth)
  {
  }

  lemma {:induction false} NestsCrossed(b: string, i: nat, ns: seq<Nest>, depth: nat)
    requires At(b, i, NestTexts(ns)) && ProperNests(ns, b[i + |NestTexts(ns)|..]) && depth > 0
    ensures CloseBrace(b, i, depth) == CloseBrace(b, i + |NestTexts(ns)|, depth)
    decreases ns
  {
    hide At, ProperNest, NestText, CloseBrace;
    if ns != [] {
      var t, rest := NestText(ns[0]), NestTexts(ns[1..]);
      var k := i + |t|;
      AtSplit(b, i, t, rest);
      AtEnd(b, k, rest);
      AtIs(b, k, rest);
      assert b[k..] == rest + b[k + |rest|..];
      NestCrossed(b, i, ns[0], depth);
      NestsCrossed(b, k, ns[1..], depth);
    }
  }

  lemma BraceParts(b: string, i: nat, t: string)
    requires At(b, i, "{" + t + "}")
    ensures var k := i + 1 + |t|;
      k < |b| && b[i] == '{' && At(b, i + 1, t) && b[i + 1..k] == t && b[k] == '}' && b[k..] == "}" + b[k + 1..]
  {
    hide At;
    AtEnd(b, i, "{" + t + "}");
    AtSplit(b, i, "{" + t, "}");
    AtSplit(b, i, "{", t);
    AtByte(b, i, "{" + t + "}", 0);
    AtByte(b, i + 1 + |t|, "}", 0);
    AtIs(b, i + 1, t);
  }

  /** What starts an item is no space, and tells the forms apart. */
  lemma ItemStarts(m: Item, next: string)
    requires ProperItem(m, next)
    ensures var t := ItemText(m);
      t != "" && !IsSpace(t[0]) && (t[0] == '{' <==> m.InBraces?) && (t[0] == '"' <==> m.InQuotes?)
  {
    hide Proper, ProperAll, ProperNests;
    if m.Bare? && !m.ps[0].Raw? { assert Text(m.ps[0])[0] == '\\'; }
  }

  /** The item stands at `i`, the text's end or a space behind it. */
  predicate ItemAt(b: string, i: nat, m: Item) { Standing(b, i, m) && EndsElement(b, i + |ItemText(m)|) }

  predicate Standing(b: string, i: nat, m: Item) {
    At(b, i, ItemText(m)) && ProperItem(m, b[i + |ItemText(m)|..])
  }

  /** It is found as what it stands for, and reading goes on behind it, spaces
      skipped. */
  lemma ItemRead(b: string, i: nat, m: Item) returns (j: nat)
    requires ItemAt(b, i, m)
    ensures i < |b| && !IsSpace(b[i]) && FindElement(b, i) == Ok((ItemSense(m), j))
    ensures i + |ItemText(m)| <= |b| && j <= |b| && SkipSpaces(b, j) == SkipSpaces(b, i + |ItemText(m)|)
  {
    hide IsSpace, At, ProperItem, FindElement, ItemSense, ItemText, SkipSpaces;
    AtEnd(b, i, ItemText(m));
    ItemStarts(m, b[i + |ItemText(m)|..]);
    AtByte(b, i, ItemText(m), 0);
    SkipTwice(b, i + |ItemText(m)|);
    j := SkipSpaces(b, i + |ItemText(m)|);
    match m
    case Bare(_) =>
      BareRead(b, i, m);
      j := i + |ItemText(m)|;
    case InQuotes(_) => PhraseRead(b, i, m);
    case InBraces(_) => BracedRead(b, i, m);
  }

  lemma BareRead(b: string, i: nat, m: Item)
    requires ItemAt(b, i, m) && m.Bare? && i < |b| && !IsSpace(b[i]) && b[i] != '{' && b[i] != '"'
    ensures FindElement(b, i) == Ok((ItemSense(m), i + |ItemText(m)|))
  {
    hide ProperAll, IsSpace, At, Substituted, NoneRaw;
    var e := i + |Texts(m.ps)|;
    AtIs(b, i, Texts(m.ps));
    BareReads(b, i, m.ps);
    assert BareEnd(b, e) == e;
    ProperAlone(m.ps, b[e..]);
    SubstitutedIs(m.ps);
  }

  /** A quoted item must end at a space or with the text. */
  lemma PhraseRead(b: string, i: nat, m: Item)
    requires Standing(b, i, m) && m.InQuotes? && i < |b| && !IsSpace(b[i]) && b[i] == '"'
    ensures var e := i + |ItemText(m)|;
      && e <= |b|
      && FindElement(b, i)
          == if EndsElement(b, e) then Ok((ItemSense(m), SkipSpaces(b, e))) else Error(JunkAfterQuotes(e))
  {
    hide ProperAll, IsSpace, At, Substituted, NoneRaw, CloseQuote, SkipSpaces, Texts, Senses;
    var t := Texts(m.ps);
    var k := i + 1 + |t|;
    QuoteParts(b, i, t);
    QuotesRead(b, i + 1, m.ps);
    assert CloseQuote(b, k) == Some(k) by { QuoteHere(b, k); }
    ProperAlone(m.ps, b[k..]);
    SubstitutedIs(m.ps);
  }

  lemma BracedRead(b: string, i: nat, m: Item)
    requires Standing(b, i, m) && m.InBraces? && i < |b| && !IsSpace(b[i]) && b[i] == '{'
    ensures var e := i + |ItemText(m)|;
      && e <= |b|
      && FindElement(b, i)
          == if EndsElement(b, e) then Ok((ItemSense(m), SkipSpaces(b, e))) else Error(JunkAfterBraces(e))
  {
    hide ProperNests, IsSpace, At, CloseBrace, SkipSpaces, NestTexts, FindElement;
    var t := NestTexts(m.ns);
    var k := i + 1 + |t|;
    BraceParts(b, i, t);
    NestsCrossed(b, i + 1, m.ns, 1);
    assert CloseBrace(b, k, 1) == Some(k) by { BraceHere(b, k); }
    BracedFound(b, i, k);
  }

  lemma BracedFound(b: string, i: nat, k: nat)
    requires i < k < |b| && !IsSpace(b[i]) && b[i] == '{' && CloseBrace(b, i + 1, 1) == Some(k)
    ensures FindElement(b, i)
        == if EndsElement(b, k + 1) then Ok((b[i + 1..k], SkipSpaces(b, k + 1))) else Error(JunkAfterBraces(k + 1))
  {
    hide CloseBrace, SkipSpaces, EndsElement, IsSpace;
  }

  lemma BraceHere(b: string, k: nat)
    requires k < |b| && b[k] == '}'
    ensures CloseBrace(b, k, 1) == Some(k)
  {
  }

  lemma QuoteHere(b: string, k: nat)
    requires k < |b| && b[k] == '"'
    ensures CloseQuote(b, k) == Some(k)
  {
  }

  lemma QuoteParts(b: string, i: nat, t: string)
    requires At(b, i, "\"" + t + "\"")
    ensures var k := i + 1 + |t|;
      k < |b| && At(b, i + 1, t) && b[i + 1..k] == t && b[k] == '"' && b[k..] == "\"" + b[k + 1..]
  {
    hide At;
    AtEnd(b, i, "\"" + t + "\"");
    AtSplit(b, i, "\"" + t, "\"");
    AtSplit(b, i, "\"", t);
    AtByte(b, i + 1 + |t|, "\"", 0);
    AtIs(b, i + 1, t);
  }

  lemma SkipTwice(b: string, i: nat)
    requires i <= |b|
    ensures SkipSpaces(b, SkipSpaces(b, i)) == SkipSpaces(b, i)
  {
  }

  lemma ParseSkips(b: string, i: nat, j: nat)
    requires i <= |b| && j <= |b| && SkipSpaces(b, i) == SkipSpaces(b, j)
    ensures ParseFrom(b, i) == ParseFrom(b, j)
  {
  }

  /** An element, put in front of what the rest gives. */
  function Before(vs: seq<string>, r: Result<seq<string>>): Result<seq<string>> {
    match r case Ok(rest) => Ok(vs + rest) case Error(e) => Error(e)
  }

  lemma ParseStep(b: string, i: nat, v: string, j: nat)
    requires i < |b| && !IsSpace(b[i]) && FindElement(b, i) == Ok((v, j)) && j <= |b|
    ensures ParseFrom(b, i) == Before([v], ParseFrom(b, j))
  {
    hide FindElement, IsSpace;
  }

  /** The entries stand at `i`. */
  predicate EntriesAt(b: string, i: nat, es: seq<Entry>) {
    At(b, i, TextOf(es)) && ProperEntries(es, b[i + |TextOf(es)|..])
  }

  /** The entries are read, and then what stands behind them. */
  lemma {:induction false} EntriesRead(b: string, i: nat, es: seq<Entry>)
    requires EntriesAt(b, i, es)
    ensures i + |TextOf(es)| <= |b|
    ensures ParseFrom(b, i) == Before(SensesOf(es), ParseFrom(b, i + |TextOf(es)|))
    decreases es
  {
    hide At, ProperItem, FindElement, ParseFrom, SkipSpaces, ItemText, ItemSense, AllSpace, EndsElement, IsSpace,
        ProperEntries, Before, ItemAt;
    AtEnd(b, i, TextOf(es));
    if es == [] {
      BeforeNone(ParseFrom(b, i));
    } else {
      var m := es[0].item;
      var k := FirstEntry(b, i, es);
      var e := k + |ItemText(m)|;
      var j := ItemRead(b, k, m);
      AtEnd(b, e, TextOf(es[1..]));
      EntriesRead(b, e, es[1..]);
      ParseSkips(b, i, k);
      ParseSkips(b, j, e);
      ParseStep(b, k, ItemSense(m), j);
      BeforeTwice(ItemSense(m), SensesOf(es[1..]), ParseFrom(b, e + |TextOf(es[1..])|));
    }
  }

  lemma BeforeNone(r: Result<seq<string>>)
    ensures Before([], r) == r
  {
    if r.Ok? { assert [] + r.value == r.value; }
  }

  lemma BeforeTwice(v: string, vs: seq<string>, r: Result<seq<string>>)
    ensures Before([v], Before(vs, r)) == Before([v] + vs, r)
  {
    if r.Ok? { assert [v] + (vs + r.value) == [v] + vs + r.value; }
  }

  lemma EntryParts(es: seq<Entry>, next: string)
    requires es != []
    ensures TextOf(es) == es[0].gap + ItemText(es[0].item) + TextOf(es[1..])
    ensures ProperEntries(es, next) ==>
      && AllSpace(es[0].gap) && Ends(TextOf(es[1..]) + next)
      && ProperItem(es[0].item, TextOf(es[1..]) + next) && ProperEntries(es[1..], next)
  {
    hide ItemText, ProperItem, AllSpace, Ends;
  }

  /** The first item stands at `k`, behind its gap. */
  lemma FirstEntry(b: string, i: nat, es: seq<Entry>) returns (k: nat)
    requires EntriesAt(b, i, es) && es != []
    ensures i <= k <= |b| && ItemAt(b, k, es[0].item) && SkipSpaces(b, i) == SkipSpaces(b, k)
    ensures var e := k + |ItemText(es[0].item)|; EntriesAt(b, e, es[1..]) && e + |TextOf(es[1..])| == i + |TextOf(es)|
  {
    hide At, ProperItem, SkipSpaces, ItemText, AllSpace, IsSpace, TextOf, ProperEntries, Ends;
    AtEnd(b, i, TextOf(es));
    EntryParts(es, b[i + |TextOf(es)|..]);
    var g, t, rest := es[0].gap, ItemText(es[0].item), TextOf(es[1..]);
    k := i + |g|;
    ThreeParts(b, i, g, t, rest);
    SpaceBehind(b, k + |t|);
    GapSkipped(b, i, g, 0);
  }

  lemma ThreeParts(b: string, i: nat, x: string, y: string, z: string)
    requires At(b, i, x + y + z)
    ensures var j := i + |x|; var k := j + |y|;
      k + |z| <= |b| && At(b, i, x) && At(b, j, y) && At(b, k, z) && b[k..] == z + b[k + |z|..]
  {
    hide At;
    AtSplit(b, i, x + y, z);
    AtSplit(b, i, x, y);
    AtEnd(b, i + |x| + |y|, z);
    AtIs(b, i + |x| + |y|, z);
  }

  lemma SpaceBehind(b: string, e: nat)
    requires e <= |b| && Ends(b[e..])
    ensures EndsElement(b, e)
  {
    hide IsSpace, AllSpace;
    if e < |b| {
      assert b[e..][..1] == [b[e]];
      OneIsSpace(b[e]);
    }
  }

  lemma OneIsSpace(c: char)
    requires AllSpace([c])
    ensures IsSpace(c)
  {
    assert [c][0] == c;
  }

  lemma {:induction false} GapSkipped(b: string, i: nat, g: string, k: nat)
    requires At(b, i, g) && AllSpace(g) && k <= |g|
    ensures i + |g| <= |b| && SkipSpaces(b, i + k) == SkipSpaces(b, i + |g|)
    decreases |g| - k
  {
    hide At;
    AtEnd(b, i, g);
    if k < |g| {
      AtByte(b, i, g, k);
      GapSkipped(b, i, g, k + 1);
    }
  }

  /** A text made of entries, and of spaces behind them, is parsed into what the
      entries stand for. */
  lemma ListRead(es: seq<Entry>, tail: string)
    requires ProperEntries(es, tail) && AllSpace(tail)
    ensures Parse(TextOf(es) + tail) == Ok(SensesOf(es))
  {
    hide ProperEntries, AllSpace, ParseFrom, SkipSpaces, TextOf, SensesOf;
    var t := TextOf(es);
    var b := t + tail;
    assert b[0..|t|] == t && b[|t|..] == tail && b[|t|..|t| + |tail|] == tail;
    EntriesRead(b, 0, es);
    GapSkipped(b, |t|, tail, 0);
    ParseSkips(b, |t|, |b|);
    NothingLeft(b);
    assert SensesOf(es) + [] == SensesOf(es);
  }

  lemma NothingLeft(b: string)
    ensures ParseFrom(b, |b|) == Ok([])
  {
  }

  /** A quoted or braced item that runs into something else is junk, at that
      place, whatever stands before and behind. */
  lemma JunkRefused(es: seq<Entry>, gap: string, m: Item, junk: string)
    requires !m.Bare? && junk != "" && !AllSpace(junk[..1]) && AllSpace(gap) && ProperItem(m, junk)
    requires ProperEntries(es, gap + ItemText(m) + junk)
    ensures var at := |TextOf(es) + gap + ItemText(m)|;
      Parse(TextOf(es) + gap + ItemText(m) + junk)
      == Error(if m.InBraces? then JunkAfterBraces(at) else JunkAfterQuotes(at))
  {
    hide ProperEntries, ProperItem, AllSpace, ParseFrom, SkipSpaces, FindElement, ItemText, IsSpace, At;
    var b := TextOf(es) + gap + ItemText(m) + junk;
    var k := TailStands(b, es, gap, ItemText(m), junk);
    var at := k + |ItemText(m)|;
    assert !EndsElement(b, at) by {
      assert b[at..][..1] == junk[..1] == [b[at]];
      NoSpace(b[at]);
    }
    ItemStarts(m, junk);
    AtByte(b, k, ItemText(m), 0);
    if m.InQuotes? { PhraseRead(b, k, m); } else { BracedRead(b, k, m); }
    FailsThere(b, k, FindElement(b, k).error);
  }

  lemma NoSpace(c: char)
    requires !AllSpace([c])
    ensures !IsSpace(c)
  {
  }

  lemma FailsThere(b: string, k: nat, e: ListError)
    requires k < |b| && !IsSpace(b[k]) && FindElement(b, k) == Error(e)
    ensures ParseFrom(b, k) == Error(e)
  {
    hide FindElement, IsSpace;
  }

  /** Behind the entries and a gap stands `t`, and decides. */
  lemma TailStands(b: string, es: seq<Entry>, gap: string, t: string, rest: string) returns (k: nat)
    requires b == TextOf(es) + gap + t + rest && AllSpace(gap) && ProperEntries(es, gap + t + rest)
    ensures k == |TextOf(es) + gap| && k + |t| <= |b| && At(b, k, t) && b[k + |t|..] == rest
    ensures Parse(b) == Before(SensesOf(es), ParseFrom(b, k))
  {
    hide ProperEntries, AllSpace, ParseFrom, SkipSpaces, TextOf, SensesOf;
    var u := TextOf(es);
    k := |u| + |gap|;
    assert b[0..|u|] == u && b[|u|..] == gap + t + rest;
    EntriesRead(b, 0, es);
    GapSkipped(b, |u|, gap, 0);
    ParseSkips(b, |u|, k);
  }

  function OpenPhrase(ps: seq<Piece>): string { "\"" + Texts(ps) }

  /** Open quotes are refused as such. */
  lemma OpenQuoteRefused(es: seq<Entry>, gap: string, ps: seq<Piece>)
    requires AllSpace(gap) && ProperAll(ps, "") && NoneRaw(ps, IsQuote) && ProperEntries(es, gap + OpenPhrase(ps))
    ensures Parse(TextOf(es) + gap + OpenPhrase(ps)) == Error(OpenQuote)
  {
    hide ProperEntries, ProperAll, NoneRaw, AllSpace, ParseFrom, SkipSpaces, CloseQuote, At, Texts, TextOf;
    var t := OpenPhrase(ps);
    var b := TextOf(es) + gap + t;
    assert gap + t + "" == gap + t && b == TextOf(es) + gap + t + "";
    var k := TailStands(b, es, gap, t, "");
    AtSplit(b, k, "\"", Texts(ps));
    AtByte(b, k, t, 0);
    PhraseOpen(b, k + 1, ps);
    FailsThere(b, k, OpenQuote);
  }

  lemma PhraseOpen(b: string, i: nat, ps: seq<Piece>)
    requires At(b, i, Texts(ps)) && i + |Texts(ps)| == |b| && ProperAll(ps, "") && NoneRaw(ps, IsQuote)
    ensures CloseQuote(b, i).None?
  {
    hide ProperAll, NoneRaw, CloseQuote, At, Texts;
    assert b[i + |Texts(ps)|..] == "";
    QuotesRead(b, i, ps);
    QuoteNone(b);
  }

  lemma QuoteNone(b: string)
    ensures CloseQuote(b, |b|).None?
  {
  }

  /** Text that leaves braces open: what stands between the open ones. */
  function OpenText(levels: seq<seq<Nest>>): string {
    if levels == [] then "" else "{" + NestTexts(levels[0]) + OpenText(levels[1..])
  }

  predicate ProperLevels(levels: seq<seq<Nest>>) {
    levels != [] ==> ProperNests(levels[0], OpenText(levels[1..])) && ProperLevels(levels[1..])
  }

  /** Open braces are refused as such. */
  lemma OpenBraceRefused(es: seq<Entry>, gap: string, levels: seq<seq<Nest>>)
    requires AllSpace(gap) && levels != [] && ProperLevels(levels) && ProperEntries(es, gap + OpenText(levels))
    ensures Parse(TextOf(es) + gap + OpenText(levels)) == Error(OpenBrace)
  {
    hide ProperEntries, ProperNests, AllSpace, ParseFrom, SkipSpaces, CloseBrace, At, NestTexts;
    var t := OpenText(levels);
    var b := TextOf(es) + gap + t;
    assert gap + t + "" == gap + t && b == TextOf(es) + gap + t + "";
    var k := TailStands(b, es, gap, t, "");
    AtByte(b, k, t, 0);
    LevelOpen(b, k, levels, 1);
    FailsThere(b, k, OpenBrace);
  }

  lemma LevelBehind(b: string, i: nat, levels: seq<seq<Nest>>)
    requires levels != [] && i <= |b| && At(b, i + |NestTexts(levels[0])|, OpenText(levels[1..]))
    requires i + |NestTexts(levels[0])| + |OpenText(levels[1..])| == |b|
    ensures b[i + |NestTexts(levels[0])|..] == OpenText(levels[1..])
  {
  }

  lemma {:induction false} LevelsOpen(b: string, i: nat, levels: seq<seq<Nest>>, depth: nat)
    requires At(b, i, OpenText(levels)) && i + |OpenText(levels)| == |b| && ProperLevels(levels) && depth > 0
    ensures CloseBrace(b, i, depth).None?
    decreases levels, 1
  {
    hide At, NestTexts, ProperNests;
    if levels != [] {
      AtByte(b, i, OpenText(levels), 0);
      BraceOpens(b, i, depth);
      LevelOpen(b, i, levels, depth + 1);
    }
  }

  lemma {:induction false} LevelOpen(b: string, i: nat, levels: seq<seq<Nest>>, depth: nat)
    requires levels != [] && At(b, i, OpenText(levels)) && i + |OpenText(levels)| == |b| && ProperLevels(levels)
    requires depth > 0
    ensures i < |b| && CloseBrace(b, i + 1, depth).None?
    decreases levels, 0
  {
    hide At, NestTexts, ProperNests, CloseBrace;
    var inside := NestTexts(levels[0]);
    AtSplit(b, i, "{" + inside, OpenText(levels[1..]));
    AtSplit(b, i, "{", inside);
    LevelBehind(b, i + 1, levels);
    NestsCrossed(b, i + 1, levels[0], depth);
    LevelsOpen(b, i + 1 + |inside|, levels[1..], depth);
  }
}
