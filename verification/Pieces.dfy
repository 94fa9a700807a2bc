/** What a complete script is, without its scanners: text put together from
    bytes, escapes, and closed braces, quotes and brackets with such text
    inside. */
module Pieces {
  import opened Options
  import opened Completeness

  datatype Part =
    | Byte(c: char) | Escape(c: char)
    | Braced(ps: seq<Part>) | Quoted(ps: seq<Part>) | Bracketed(ps: seq<Part>)

  /** Where a part stands: outside, or directly inside one of the three. */
  datatype Context = Outside | InBraces | InQuotes | InBrackets

  /** The bytes that do not stand for themselves. */
  function Special(k: Context): string {
    match k
    case Outside => "{\"[\\"
    case InBraces => "{}\\"
    case InQuotes => "\"[\\"
    case InBrackets => "{\"[]\\"
  }

  predicate Fine(p: Part, k: Context) {
    match p
    case Byte(c) => c !in Special(k)
    case Escape(_) => true
    case Braced(ps) => !k.InQuotes? && AllFine(ps, InBraces)
    case Quoted(ps) => (k.Outside? || k.InBrackets?) && AllFine(ps, InQuotes)
    case Bracketed(ps) => !k.InBraces? && AllFine(ps, InBrackets)
  }

  predicate AllFine(ps: seq<Part>, k: Context) { ps != [] ==> Fine(ps[0], k) && AllFine(ps[1..], k) }

  function Text(p: Part): (s: string)
    ensures s != ""
    decreases p
  {
    match p
    case Byte(c) => [c]
    case Escape(c) => ['\\', c]
    case Braced(ps) => "{" + Texts(ps) + "}"
    case Quoted(ps) => "\"" + Texts(ps) + "\""
    case Bracketed(ps) => "[" + Texts(ps) + "]"
  }

  function Texts(ps: seq<Part>): string
    decreases ps
  {
    if ps == [] then "" else Text(ps[0]) + Texts(ps[1..])
  }

  /** The last line break is escaped, and only blanks follow it. */
  predicate Continued(ps: seq<Part>) {
    ps != [] && ((ps[0] == Escape('\n') && OnlyBlanks(ps[1..])) || Continued(ps[1..]))
  }

  predicate OnlyBlanks(ps: seq<Part>) { forall k | 0 <= k < |ps| :: ps[k] == Byte(' ') || ps[k] == Byte('\t') }

  // ── parts are skipped ──

  predicate At(b: string, i: nat, s: string) { i + |s| <= |b| && b[i..i + |s|] == s }

  lemma AtSplit(b: string, i: nat, x: string, y: string)
    requires At(b, i, x + y)
    ensures At(b, i, x) && At(b, i + |x|, y)
  {
    var s := b[i..i + |x + y|];
    assert s[..|x|] == b[i..i + |x|] && s[|x|..] == b[i + |x|..i + |x| + |y|];
  }

  lemma AtByte(b: string, i: nat, s: string, k: nat)
    requires At(b, i, s) && k < |s|
    ensures i + k < |b| && b[i + k] == s[k]
  {
    assert b[i..i + |s|][k] == b[i + k];
  }

  function Skip(k: Context, b: string, i: nat): (r: Option<nat>)
    requires i <= |b|
    ensures r.Some? ==> i < r.value <= |b|
  {
    match k
    case Outside => None
    case InBraces => SkipBraces(b, i, 1)
    case InQuotes => SkipQuotes(b, i)
    case InBrackets => SkipBrackets(b, i)
  }

  function Closer(k: Context): char { match k case InBraces => '}' case InQuotes => '"' case _ => ']' }

  function Opener(k: Context): char { match k case InBraces => '{' case InQuotes => '"' case _ => '[' }

  /** Braces nest. */
  lemma {:induction false} BracesNest(b: string, i: nat, m: nat, d: nat)
    requires i <= |b| && m > 0 && d > 0
    ensures var r := SkipBraces(b, i, m);
      SkipBraces(b, i, m + d) == if r.None? then None else SkipBraces(b, r.value, d)
    decreases |b| - i
  {
    if i < |b| {
      if b[i] == '{' { BracesNest(b, i + 1, m + 1, d); }
      else if b[i] == '}' { if m > 1 { BracesNest(b, i + 1, m - 1, d); } }
      else if b[i] == '\\' { BracesNest(b, Escaped(b, i), m, d); }
      else { BracesNest(b, i + 1, m, d); }
    }
  }

  /** One step of a scanner: past an escape, a nested word or a byte. */
  lemma SkipStep(k: Context, b: string, i: nat, j: nat)
    requires !k.Outside? && i < j <= |b| && b[i] != Closer(k)
    requires if b[i] == '\\' then i + 1 < |b| && j == i + 2
             else if Nests(k, b[i]) then SkipNested(b, i) == Some(j)
             else j == i + 1
    ensures Skip(k, b, i) == Skip(k, b, j)
  {
    if k.InBraces? && b[i] == '{' { BracesNest(b, i + 1, 1, 1); }
  }

  /** Openers a scanner minds. */
  predicate Nests(k: Context, c: char) {
    match k
    case InBraces => c == '{'
    case InQuotes => c == '['
    case _ => c == '{' || c == '"' || c == '['
  }

  /** The context inside an opener. */
  function Inside(c: char): Context { if c == '{' then InBraces else if c == '"' then InQuotes else InBrackets }

  lemma {:induction false} PartSkipped(k: Context, b: string, i: nat, p: Part)
    requires !k.Outside? && At(b, i, Text(p)) && Fine(p, k)
    ensures Skip(k, b, i) == Skip(k, b, i + |Text(p)|)
    decreases p, 1
  {
    hide Skip, At;
    AtByte(b, i, Text(p), 0);
    AtByte(b, i, Text(p), |Text(p)| - 1);
    if !p.Byte? && !p.Escape? { WordSkipped(b, i, p, k); }
    SkipStep(k, b, i, i + |Text(p)|);
  }

  /** A closed word is one nested word for the scanner. */
  lemma {:induction false} WordSkipped(b: string, i: nat, p: Part, k: Context)
    requires !p.Byte? && !p.Escape? && At(b, i, Text(p)) && Fine(p, k)
    ensures i < |b| && Opens(b[i]) && SkipNested(b, i) == Some(i + |Text(p)|)
    decreases p, 0
  {
    hide At, AllFine, Texts;
    var in' := if p.Braced? then InBraces else if p.Quoted? then InQuotes else InBrackets;
    var t := Texts(p.ps);
    assert Text(p) == ([Opener(in')] + t) + [Closer(in')];
    AtByte(b, i, Text(p), 0);
    AtSplit(b, i, [Opener(in')] + t, [Closer(in')]);
    AtSplit(b, i, [Opener(in')], t);
    AtByte(b, i + 1 + |t|, [Closer(in')], 0);
    PartsSkipped(in', b, i + 1, p.ps);
  }

  lemma {:induction false} PartsSkipped(k: Context, b: string, i: nat, ps: seq<Part>)
    requires !k.Outside? && At(b, i, Texts(ps)) && AllFine(ps, k)
    ensures Skip(k, b, i) == Skip(k, b, i + |Texts(ps)|)
    decreases ps
  {
    hide Skip, At, Text, Fine;
    if ps != [] {
      AtSplit(b, i, Text(ps[0]), Texts(ps[1..]));
      PartSkipped(k, b, i, ps[0]);
      PartsSkipped(k, b, i + |Text(ps[0])|, ps[1..]);
    }
  }

  // ── what is skipped is made of parts ──

  lemma {:induction false} SkippedParts(k: Context, b: string, i: nat) returns (ps: seq<Part>)
    requires i <= |b| && Skip(k, b, i).Some?
    ensures var e := Skip(k, b, i).value; AllFine(ps, k) && b[i..e - 1] == Texts(ps) && b[e - 1] == Closer(k)
    decreases |b| - i, 2
  {
    hide Skip, SkipNested, Text, Fine;
    NotAtEnd(k, b, i);
    if b[i] == Closer(k) {
      ps := [];
      assert Skip(k, b, i) == Some(i + 1) by { ClosesHere(k, b, i); }
    } else {
      var p, j := SkippedPart(k, b, i);
      SkipStep(k, b, i, j);
      var rest := SkippedParts(k, b, j);
      var e := Skip(k, b, i).value;
      ps := [p] + rest;
      assert b[i..e - 1] == b[i..j] + b[j..e - 1];
    }
  }

  lemma NotAtEnd(k: Context, b: string, i: nat)
    requires i <= |b| && Skip(k, b, i).Some?
    ensures i < |b| && !k.Outside?
    ensures b[i] == '\\' ==> i + 1 < |b|
    ensures b[i] != Closer(k) && Nests(k, b[i]) ==> Opens(b[i]) && SkipNested(b, i).Some?
  {
    if i < |b| && k.InBraces? && b[i] == '{' { BracesNest(b, i + 1, 1, 1); }
    if i + 1 == |b| && b[i] == '\\' { LoneSkips(k, b, i); }
  }

  lemma LoneSkips(k: Context, b: string, i: nat)
    requires i + 1 == |b| && b[i] == '\\'
    ensures Skip(k, b, i).None?
  {
    assert Escaped(b, i) == |b|;
  }

  lemma ClosesHere(k: Context, b: string, i: nat)
    requires !k.Outside? && i < |b| && b[i] == Closer(k)
    ensures Skip(k, b, i) == Some(i + 1)
  {
  }

  /** The part a scanner passes next. */
  lemma {:induction false} SkippedPart(k: Context, b: string, i: nat) returns (p: Part, j: nat)
    requires i < |b| && Skip(k, b, i).Some? && b[i] != Closer(k)
    ensures i < j <= |b| && b[i..j] == Text(p) && Fine(p, k)
    ensures if b[i] == '\\' then i + 1 < |b| && j == i + 2
            else if Nests(k, b[i]) then SkipNested(b, i) == Some(j)
            else j == i + 1
    decreases |b| - i, 1
  {
    hide Skip, AllFine, SkipNested;
    NotAtEnd(k, b, i);
    if b[i] == '\\' {
      p, j := Escape(b[i + 1]), i + 2;
    } else if Nests(k, b[i]) {
      p, j := NestedPart(b, i, k);
    } else {
      p, j := Byte(b[i]), i + 1;
    }
  }

  lemma {:induction false} NestedPart(b: string, i: nat, k: Context) returns (p: Part, j: nat)
    requires i < |b| && Opens(b[i]) && SkipNested(b, i).Some?
    requires k.Outside? || Nests(k, b[i])
    ensures SkipNested(b, i) == Some(j) && j <= |b| && b[i..j] == Text(p) && Fine(p, k)
    decreases |b| - i, 0
  {
    hide AllFine, Texts;
    j := SkipNested(b, i).value;
    var ps := SkippedParts(Inside(b[i]), b, i + 1);
    p := if b[i] == '{' then Braced(ps) else if b[i] == '"' then Quoted(ps) else Bracketed(ps);
    assert b[i..j] == [b[i]] + b[i + 1..j - 1] + [b[j - 1]];
  }

  // ── outside ──

  lemma {:induction false} CompleteParts(b: string, i: nat) returns (ps: seq<Part>, lone: bool)
    requires i <= |b| && CompleteFrom(b, i)
    ensures AllFine(ps, Outside) && b[i..] == Texts(ps) + (if lone then "\\" else "")
    decreases |b| - i
  {
    hide CompleteFrom, Text, Fine;
    if i == |b| {
      ps, lone := [], false;
    } else if b[i] == '\\' && i + 1 == |b| {
      ps, lone := [], true;
    } else {
      var p, j := CompletePart(b, i);
      ps, lone := CompleteParts(b, j);
      assert b[i..] == b[i..j] + b[j..];
      ps := [p] + ps;
    }
  }

  /** The part a complete script goes on with. */
  lemma CompletePart(b: string, i: nat) returns (p: Part, j: nat)
    requires i < |b| && CompleteFrom(b, i) && !(b[i] == '\\' && i + 1 == |b|)
    ensures i < j <= |b| && b[i..j] == Text(p) && Fine(p, Outside) && CompleteFrom(b, j)
  {
    hide SkipNested, AllFine, Texts;
    p, j := Byte(b[i]), i + 1;
    if Opens(b[i]) {
      p, j := NestedPart(b, i, Outside);
    } else if b[i] == '\\' {
      if NewlineAt(b, i + 1) { BlanksDontMatter(b, i + 2); }
      p, j := Escape(b[i + 1]), i + 2;
    }
  }

  /** The rest decides, and after an escaped line break it is not all blank. */
  lemma {:induction false} PartsComplete(b: string, i: nat, ps: seq<Part>)
    requires At(b, i, Texts(ps)) && AllFine(ps, Outside)
    ensures var j := i + |Texts(ps)|;
      CompleteFrom(b, i) <==> CompleteFrom(b, j) && (Continued(ps) ==> SkipBlanks(b, j) < |b|)
    decreases ps
  {
    hide At, Fine, Text, CompleteFrom, OnlyBlanks;
    if ps != [] {
      var p := ps[0];
      var k := i + |Text(p)|;
      AtSplit(b, i, Text(p), Texts(ps[1..]));
      PartsComplete(b, k, ps[1..]);
      PartComplete(b, i, p);
      if p == Escape('\n') { BreakComplete(b, k, ps[1..]); }
    }
  }

  /** A part outside; an escaped line break wants more than blanks behind it. */
  lemma PartComplete(b: string, i: nat, p: Part)
    requires At(b, i, Text(p)) && Fine(p, Outside)
    ensures var k := i + |Text(p)|;
      && k <= |b|
      && (CompleteFrom(b, i) <==> CompleteFrom(b, k) && (p == Escape('\n') ==> SkipBlanks(b, k) < |b|))
  {
    hide At, AllFine, Texts, SkipNested;
    AtByte(b, i, Text(p), 0);
    AtByte(b, i, Text(p), |Text(p)| - 1);
    match p
    case Byte(_) =>
    case Escape(c) =>
      assert b[i + 1] == c;
      BlanksDontMatter(b, i + 2);
      if c == '\r' && i + 2 < |b| && b[i + 2] == '\n' { assert SkipBlanks(b, i + 2) == i + 2; }
    case _ => WordSkipped(b, i, p, Outside);
  }

  /** Behind an escaped line break: parts that are not all blank end the wait. */
  lemma {:induction false} BreakComplete(b: string, i: nat, ps: seq<Part>)
    requires At(b, i, Texts(ps)) && AllFine(ps, Outside)
    ensures i + |Texts(ps)| <= |b|
    ensures if OnlyBlanks(ps) then SkipBlanks(b, i) == SkipBlanks(b, i + |Texts(ps)|) else SkipBlanks(b, i) < |b|
    decreases ps
  {
    hide At, Fine, Text;
    assert i + |Texts(ps)| <= |b| by { AtEnd(b, i, Texts(ps)); }
    if ps != [] {
      AtSplit(b, i, Text(ps[0]), Texts(ps[1..]));
      BlankOrNot(b, i, ps[0]);
      BreakComplete(b, i + |Text(ps[0])|, ps[1..]);
      assert OnlyBlanks(ps) <==> OnlyBlanks([ps[0]]) && OnlyBlanks(ps[1..]) by { BlanksSplit(ps); }
    }
  }

  lemma AtEnd(b: string, i: nat, s: string)
    requires At(b, i, s)
    ensures i + |s| <= |b|
  {
  }

  lemma BlanksSplit(ps: seq<Part>)
    requires ps != []
    ensures OnlyBlanks(ps) <==> OnlyBlanks([ps[0]]) && OnlyBlanks(ps[1..])
  {
    assert ps == [ps[0]] + ps[1..];
  }

  lemma BlankOrNot(b: string, i: nat, p: Part)
    requires At(b, i, Text(p)) && Fine(p, Outside)
    ensures i + |Text(p)| <= |b|
    ensures if OnlyBlanks([p]) then SkipBlanks(b, i) == SkipBlanks(b, i + |Text(p)|) else SkipBlanks(b, i) == i < |b|
  {
    hide At, AllFine, Texts;
    AtByte(b, i, Text(p), 0);
    AtEnd(b, i, Text(p));
    if p.Byte? { assert Blank(b[i]) <==> [p][0] == Byte(' ') || [p][0] == Byte('\t'); }
    else { assert [p][0] == p; }
  }

  /** `b` is made of closed parts, perhaps with a backslash at its very end, and
      does not end in an escaped line break with only blanks behind it. */
  predicate MadeOf(b: string, ps: seq<Part>, lone: bool) {
    AllFine(ps, Outside) && b == Texts(ps) + (if lone then "\\" else "") && (lone || !Continued(ps))
  }

  /** That is what a complete script is. */
  lemma CompleteExactly(b: string)
    ensures Complete(b) <==> exists ps, lone :: MadeOf(b, ps, lone)
  {
    hide AllFine, Texts, Continued, CompleteFrom;
    if Complete(b) {
      var ps, lone := CompleteParts(b, 0);
      assert b[0..] == b;
      WholeComplete(ps, lone);
      assert MadeOf(b, ps, lone);
    }
    if ps, lone :| MadeOf(b, ps, lone) { WholeComplete(ps, lone); }
  }

  lemma WholeComplete(ps: seq<Part>, lone: bool)
    requires AllFine(ps, Outside)
    ensures Complete(Texts(ps) + (if lone then "\\" else "")) <==> lone || !Continued(ps)
  {
    hide AllFine, Texts, Continued, SkipNested;
    var t := Texts(ps);
    var b := t + (if lone then "\\" else "");
    assert b[0..|t|] == t;
    PartsComplete(b, 0, ps);
    if lone { assert b[|t|] == '\\' && |b| == |t| + 1; }
  }

  /** An opener that nothing behind it closes leaves a script incomplete. */
  lemma OpenIsIncomplete(ps: seq<Part>, k: Context, rest: string)
    requires AllFine(ps, Outside) && !k.Outside? && Closer(k) !in rest
    ensures !Complete(Texts(ps) + [Opener(k)] + rest)
  {
    hide AllFine, Texts, Continued, SkipBraces, SkipQuotes, SkipBrackets;
    var t := Texts(ps);
    var b := t + [Opener(k)] + rest;
    assert b[0..|t|] == t;
    PartsComplete(b, 0, ps);
    assert b[|t|] == Opener(k) && b[|t| + 1..] == rest;
    if SkipNested(b, |t|).Some? { ClosedBehind(k, b, |t|); }
  }

  lemma ClosedBehind(k: Context, b: string, i: nat)
    requires !k.Outside? && i < |b| && b[i] == Opener(k) && SkipNested(b, i).Some?
    ensures Closer(k) in b[i + 1..]
  {
    var e := SkipNested(b, i).value;
    assert b[i + 1..][e - i - 2] == b[e - 1] == Closer(k);
  }
}
