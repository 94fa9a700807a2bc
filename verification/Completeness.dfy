/** Is a script complete?  Mutually nested scanners for braces, quotes and
    brackets, and how completeness composes over lines. */
module Completeness {
  import opened Options

  // ── the scanners ──

  /** Past an escape: the backslash and the byte it quotes, if any. */
  function Escaped(b: string, i: nat): (r: nat)
    requires i < |b|
    ensures i < r <= |b|
  {
    if i + 1 < |b| then i + 2 else i + 1
  }

  /** Just after the brace that closes `depth` open ones. */
  function SkipBraces(b: string, i: nat, depth: nat): (r: Option<nat>)
    requires i <= |b| && depth > 0
    ensures r.Some? ==> i < r.value <= |b| && b[r.value - 1] == '}'
    decreases |b| - i
  {
    if i == |b| then None
    else if b[i] == '{' then SkipBraces(b, i + 1, depth + 1)
    else if b[i] == '}' then if depth == 1 then Some(i + 1) else SkipBraces(b, i + 1, depth - 1)
    else if b[i] == '\\' then SkipBraces(b, Escaped(b, i), depth)
    else SkipBraces(b, i + 1, depth)
  }

  function SkipQuotes(b: string, i: nat): (r: Option<nat>)
    requires i <= |b|
    ensures r.Some? ==> i < r.value <= |b| && b[r.value - 1] == '"'
    decreases |b| - i
  {
    if i == |b| then None
    else if b[i] == '"' then Some(i + 1)
    else if b[i] == '\\' then SkipQuotes(b, Escaped(b, i))
    else if b[i] == '[' then
      match SkipBrackets(b, i + 1)
      case Some(e) => SkipQuotes(b, e)
      case None => None
    else SkipQuotes(b, i + 1)
  }

  /** Past the nested word that opens at `i`. */
  function SkipNested(b: string, i: nat): (r: Option<nat>)
    requires i < |b|
    ensures r.Some? ==> i + 1 < r.value <= |b| && b[r.value - 1] != '\\'
    decreases |b| - i, 0
  {
    if b[i] == '{' then SkipBraces(b, i + 1, 1)
    else if b[i] == '"' then SkipQuotes(b, i + 1)
    else SkipBrackets(b, i + 1)
  }

  predicate Opens(c: char) { c == '{' || c == '"' || c == '[' }

  function SkipBrackets(b: string, i: nat): (r: Option<nat>)
    requires i <= |b|
    ensures r.Some? ==> i < r.value <= |b| && b[r.value - 1] == ']'
    decreases |b| - i, 1
  {
    if i == |b| then None
    else if b[i] == ']' then Some(i + 1)
    else if Opens(b[i]) then
      match SkipNested(b, i)
      case Some(e) => SkipBrackets(b, e)
      case None => None
    else if b[i] == '\\' then SkipBrackets(b, Escaped(b, i))
    else SkipBrackets(b, i + 1)
  }

  predicate Blank(c: char) { c == ' ' || c == '\t' }

  function SkipBlanks(b: string, i: nat): (r: nat)
    requires i <= |b|
    ensures i <= r <= |b|
    ensures forall k | i <= k < r :: Blank(b[k])
    ensures r < |b| ==> !Blank(b[r])
    decreases |b| - i
  {
    if i < |b| && Blank(b[i]) then SkipBlanks(b, i + 1) else i
  }

  /** A newline, bare or after a carriage return. */
  predicate NewlineAt(b: string, i: nat)
    requires i < |b|
  {
    b[i] == '\n' || (b[i] == '\r' && i + 1 < |b| && b[i + 1] == '\n')
  }

  /** The script is complete from `i` on. */
  predicate CompleteFrom(b: string, i: nat)
    requires i <= |b|
    decreases |b| - i
  {
    if i == |b| then true
    else if Opens(b[i]) then
      match SkipNested(b, i)
      case Some(e) => CompleteFrom(b, e)
      case None => false
    else if b[i] == '\\' then
      if i + 1 == |b| then true
      else if NewlineAt(b, i + 1) then
        var e := SkipBlanks(b, i + 2);
        e < |b| && CompleteFrom(b, e)
      else CompleteFrom(b, i + 2)
    else CompleteFrom(b, i + 1)
  }

  predicate Complete(b: string) { CompleteFrom(b, 0) }

  // ── a finished skip looked at nothing after it ──

  lemma {:induction false} BracesLocal(a: string, t: string, i: nat, depth: nat)
    requires i <= |a| && depth > 0 && SkipBraces(a, i, depth).Some?
    ensures SkipBraces(a + t, i, depth) == SkipBraces(a, i, depth)
    decreases |a| - i
  {
    if a[i] == '{' { BracesLocal(a, t, i + 1, depth + 1); }
    else if a[i] == '}' { if depth > 1 { BracesLocal(a, t, i + 1, depth - 1); } }
    else if a[i] == '\\' { BracesLocal(a, t, Escaped(a, i), depth); }
    else { BracesLocal(a, t, i + 1, depth); }
  }

  lemma {:induction false} QuotesLocal(a: string, t: string, i: nat)
    requires i <= |a| && SkipQuotes(a, i).Some?
    ensures SkipQuotes(a + t, i) == SkipQuotes(a, i)
    decreases |a| - i
  {
    if a[i] == '"' {
    } else if a[i] == '\\' {
      QuotesLocal(a, t, Escaped(a, i));
    } else if a[i] == '[' {
      BracketsLocal(a, t, i + 1);
      QuotesLocal(a, t, SkipBrackets(a, i + 1).value);
    } else {
      QuotesLocal(a, t, i + 1);
    }
  }

  lemma {:induction false} NestedLocal(a: string, t: string, i: nat)
    requires i < |a| && SkipNested(a, i).Some?
    ensures SkipNested(a + t, i) == SkipNested(a, i)
    decreases |a| - i, 0
  {
    if a[i] == '{' { BracesLocal(a, t, i + 1, 1); }
    else if a[i] == '"' { QuotesLocal(a, t, i + 1); }
    else { BracketsLocal(a, t, i + 1); }
  }

  lemma {:induction false} BracketsLocal(a: string, t: string, i: nat)
    requires i <= |a| && SkipBrackets(a, i).Some?
    ensures SkipBrackets(a + t, i) == SkipBrackets(a, i)
    decreases |a| - i, 1
  {
    if a[i] == ']' {
    } else if Opens(a[i]) {
      NestedLocal(a, t, i);
      BracketsLocal(a, t, SkipNested(a, i).value);
    } else if a[i] == '\\' {
      BracketsLocal(a, t, Escaped(a, i));
    } else {
      BracketsLocal(a, t, i + 1);
    }
  }

  // ── nor at anything before it ──

  function Shifted(r: Option<nat>, n: nat): Option<nat> {
    match r case Some(e) => Some(e + n) case None => None
  }

  lemma {:induction false} BracesShift(p: string, b: string, i: nat, depth: nat)
    requires i <= |b| && depth > 0
    ensures SkipBraces(p + b, |p| + i, depth) == Shifted(SkipBraces(b, i, depth), |p|)
    decreases |b| - i
  {
    if i < |b| {
      if b[i] == '{' { BracesShift(p, b, i + 1, depth + 1); }
      else if b[i] == '}' { if depth > 1 { BracesShift(p, b, i + 1, depth - 1); } }
      else if b[i] == '\\' { BracesShift(p, b, Escaped(b, i), depth); }
      else { BracesShift(p, b, i + 1, depth); }
    }
  }

  lemma {:induction false} QuotesShift(p: string, b: string, i: nat)
    requires i <= |b|
    ensures SkipQuotes(p + b, |p| + i) == Shifted(SkipQuotes(b, i), |p|)
    decreases |b| - i
  {
    if i < |b| {
      if b[i] == '"' {
      } else if b[i] == '\\' {
        QuotesShift(p, b, Escaped(b, i));
      } else if b[i] == '[' {
        BracketsShift(p, b, i + 1);
        if SkipBrackets(b, i + 1).Some? { QuotesShift(p, b, SkipBrackets(b, i + 1).value); }
      } else {
        QuotesShift(p, b, i + 1);
      }
    }
  }

  lemma {:induction false} NestedShift(p: string, b: string, i: nat)
    requires i < |b|
    ensures SkipNested(p + b, |p| + i) == Shifted(SkipNested(b, i), |p|)
    decreases |b| - i, 0
  {
    if b[i] == '{' { BracesShift(p, b, i + 1, 1); }
    else if b[i] == '"' { QuotesShift(p, b, i + 1); }
    else { BracketsShift(p, b, i + 1); }
  }

  lemma {:induction false} BracketsShift(p: string, b: string, i: nat)
    requires i <= |b|
    ensures SkipBrackets(p + b, |p| + i) == Shifted(SkipBrackets(b, i), |p|)
    decreases |b| - i, 1
  {
    if i < |b| {
      if b[i] == ']' {
      } else if Opens(b[i]) {
        NestedShift(p, b, i);
        if SkipNested(b, i).Some? { BracketsShift(p, b, SkipNested(b, i).value); }
      } else if b[i] == '\\' {
        BracketsShift(p, b, Escaped(b, i));
      } else {
        BracketsShift(p, b, i + 1);
      }
    }
  }

  lemma {:induction false} BlanksShift(p: string, b: string, i: nat)
    requires i <= |b|
    ensures SkipBlanks(p + b, |p| + i) == |p| + SkipBlanks(b, i)
    decreases |b| - i
  {
    if i < |b| && Blank(b[i]) { BlanksShift(p, b, i + 1); }
  }

  lemma {:induction false} CompleteShift(p: string, b: string, i: nat)
    requires i <= |b|
    ensures CompleteFrom(p + b, |p| + i) == CompleteFrom(b, i)
    decreases |b| - i
  {
    hide SkipNested;
    if i < |b| {
      if Opens(b[i]) {
        NestedShift(p, b, i);
        if SkipNested(b, i).Some? { CompleteShift(p, b, SkipNested(b, i).value); }
      } else if b[i] == '\\' {
        if i + 1 < |b| {
          BlanksShift(p, b, i + 2);
          CompleteShift(p, b, if NewlineAt(b, i + 1) then SkipBlanks(b, i + 2) else i + 2);
        }
      } else {
        CompleteShift(p, b, i + 1);
      }
    }
  }

  // ── trailing backslashes ──

  /** How many backslashes the text ends with. */
  function Trailing(s: string): (n: nat)
    ensures n <= |s|
  {
    if s == "" || s[|s| - 1] != '\\' then 0 else 1 + Trailing(s[..|s| - 1])
  }

  lemma {:induction false} TrailJoin(x: string, y: string)
    ensures Trailing(x + y) == if Trailing(y) == |y| then |y| + Trailing(x) else Trailing(y)
    decreases |y|
  {
    if y == "" {
      assert x + y == x;
    } else if y[|y| - 1] == '\\' {
      TrailJoin(x, y[..|y| - 1]);
      assert (x + y)[..|x + y| - 1] == x + y[..|y| - 1];
    }
  }

  /** What precedes another byte than a backslash does not matter. */
  lemma TrailCut(a: string, i: nat, e: nat)
    requires i < e <= |a| && a[e - 1] != '\\'
    ensures Trailing(a[i..]) == Trailing(a[e..])
  {
    assert a[i..] == a[i..e] + a[e..];
    TrailJoin(a[i..e], a[e..]);
    assert a[i..e][e - i - 1] == a[e - 1];
  }

  lemma TrailPair(a: string, i: nat)
    requires i + 2 <= |a| && a[i] == '\\'
    ensures Trailing(a[i..]) % 2 == Trailing(a[i + 2..]) % 2
  {
    var x := a[i..i + 2];
    assert a[i..] == x + a[i + 2..] && x == [a[i], a[i + 1]];
    TrailJoin(x, a[i + 2..]);
    assert x[..1] == [a[i]] && [a[i]][..0] == "";
    assert Trailing([a[i]]) == 1;
    assert Trailing(x) == if a[i + 1] == '\\' then 2 else 0;
  }

  // ── composition ──

  predicate AllBlank(b: string) { forall k | 0 <= k < |b| :: Blank(b[k]) }

  lemma {:induction false} BlanksDontMatter(b: string, i: nat)
    requires i <= |b|
    ensures CompleteFrom(b, i) == CompleteFrom(b, SkipBlanks(b, i))
    decreases |b| - i
  {
    hide SkipNested;
    if i < |b| && Blank(b[i]) { BlanksDontMatter(b, i + 1); }
  }

  /** A blank-terminated skip inside `a` is the same with more text behind. */
  lemma {:induction false} BlanksLocal(a: string, t: string, i: nat)
    requires i <= |a| && SkipBlanks(a, i) < |a|
    ensures SkipBlanks(a + t, i) == SkipBlanks(a, i)
    decreases |a| - i
  {
    if i < |a| && Blank(a[i]) { BlanksLocal(a, t, i + 1); }
  }

  /** The seam: a newline after finished text. */
  lemma AtSeam(a: string, b: string)
    ensures CompleteFrom(a + "\n" + b, |a|) == Complete(b)
  {
    hide SkipNested;
    var p, t := a + "\n", a + "\n" + b;
    CompleteShift(p, b, 0);
    assert t[|a|] == '\n' && |p| + 0 == |a| + 1;
  }

  /** The seam after a lone backslash. */
  lemma AtLoneSeam(a: string, b: string)
    requires |a| > 0 && a[|a| - 1] == '\\'
    ensures CompleteFrom(a + "\n" + b, |a| - 1) == (Complete(b) && !AllBlank(b))
  {
    hide SkipNested, SkipBlanks;
    var p, t := a + "\n", a + "\n" + b;
    var e := SkipBlanks(b, 0);
    BlanksShift(p, b, 0);
    BlanksDontMatter(b, 0);
    CompleteShift(p, b, e);
    BlanksAll(b);
    assert t[|a| - 1] == '\\' && t[|a|] == '\n' && |p| + 0 == |a| + 1;
  }

  lemma BlanksAll(b: string)
    ensures AllBlank(b) <==> SkipBlanks(b, 0) == |b|
  {
  }

  lemma {:induction false} JoinFrom(a: string, b: string, i: nat)
    requires i <= |a| && CompleteFrom(a, i)
    ensures CompleteFrom(a + "\n" + b, i) == (Complete(b) && (Trailing(a[i..]) % 2 == 1 ==> !AllBlank(b)))
    decreases |a| - i
  {
    hide SkipNested, Trailing, Complete, AllBlank;
    var t := a + "\n" + b;
    assert t == a + ("\n" + b);
    AtSeam(a, b);
    if i == |a| {
      assert Trailing("") == 0 by { NoneTrail(); }
      assert a[i..] == "";
    } else if Opens(a[i]) {
      NestedLocal(a, "\n" + b, i);
      var e := SkipNested(a, i).value;
      TrailCut(a, i, e);
      JoinFrom(a, b, e);
    } else if a[i] == '\\' {
      if i + 1 == |a| {
        AtLoneSeam(a, b);
        assert a[i..] == "\\";
        assert Trailing("\\") == 1 by { OneTrails(); }
      } else if NewlineAt(a, i + 1) {
        var e := SkipBlanks(a, i + 2);
        BlanksLocal(a, "\n" + b, i + 2);
        assert e > i + 2 ==> Blank(a[e - 1]);
        TrailCut(a, i, e);
        JoinFrom(a, b, e);
      } else {
        TrailPair(a, i);
        JoinFrom(a, b, i + 2);
        CarriageAtEnd(a, b, i);
      }
    } else {
      TrailCut(a, i, i + 1);
      JoinFrom(a, b, i + 1);
    }
  }

  lemma NoneTrail()
    ensures Trailing("") == 0
  {
  }

  lemma OneTrails()
    ensures Trailing("\\") == 1
  {
    assert "\\"[..0] == "";
  }

  /** An escaped carriage return that ends `a` meets the joining newline. */
  lemma CarriageAtEnd(a: string, b: string, i: nat)
    requires i + 1 < |a| && a[i] == '\\' && !NewlineAt(a, i + 1)
    ensures CompleteFrom(a + "\n" + b, i) == CompleteFrom(a + "\n" + b, i + 2)
  {
    hide SkipNested;
    var t := a + "\n" + b;
    assert t[i] == a[i] && t[i + 1] == a[i + 1];
    if i + 2 < |a| {
      assert t[i + 2] == a[i + 2];
    } else {
      assert t[i + 2] == '\n';
      assert SkipBlanks(t, i + 2) == i + 2;
    }
  }

  /** Appending a line to a complete script: the whole is complete exactly when
      the line is, except that a trailing unpaired backslash also asks for
      something other than blanks to continue with. */
  lemma CompleteJoin(a: string, b: string)
    requires Complete(a)
    ensures Complete(a + "\n" + b) <==> Complete(b) && (Trailing(a) % 2 == 1 ==> !AllBlank(b))
  {
    assert a[0..] == a;
    JoinFrom(a, b, 0);
  }

  // ── the scanners as loops ──

  method SkipBracesLoop(b: string, start: nat) returns (r: Option<nat>)
    requires start <= |b|
    ensures r == SkipBraces(b, start, 1)
  {
    var i, depth := start, 1;
    while i < |b|
      invariant start <= i <= |b| && depth > 0
      invariant SkipBraces(b, start, 1) == SkipBraces(b, i, depth)
      decreases |b| - i
    {
      if b[i] == '{' {
        depth := depth + 1;
        i := i + 1;
      } else if b[i] == '}' {
        depth := depth - 1;
        i := i + 1;
        if depth == 0 { return Some(i); }
      } else if b[i] == '\\' {
        i := i + 1;
        if i < |b| { i := i + 1; }
      } else {
        i := i + 1;
      }
    }
    return None;
  }

  method SkipQuotesLoop(b: string, start: nat) returns (r: Option<nat>)
    requires start <= |b|
    ensures r == SkipQuotes(b, start)
    decreases |b| - start
  {
    var i := start;
    while i < |b|
      invariant start <= i <= |b| && SkipQuotes(b, start) == SkipQuotes(b, i)
      decreases |b| - i
    {
      if b[i] == '"' { return Some(i + 1); }
      if b[i] == '\\' {
        i := i + 1;
        if i < |b| { i := i + 1; }
      } else if b[i] == '[' {
        var end := SkipBracketsLoop(b, i + 1);
        if end.None? { return None; }
        i := end.value;
      } else {
        i := i + 1;
      }
    }
    return None;
  }

  method SkipBracketsLoop(b: string, start: nat) returns (r: Option<nat>)
    requires start <= |b|
    ensures r == SkipBrackets(b, start)
    decreases |b| - start
  {
    var i := start;
    while i < |b|
      invariant start <= i <= |b| && SkipBrackets(b, start) == SkipBrackets(b, i)
      decreases |b| - i
    {
      if b[i] == ']' { return Some(i + 1); }
      if Opens(b[i]) {
        var end;
        if b[i] == '{' { end := SkipBracesLoop(b, i + 1); }
        else if b[i] == '"' { end := SkipQuotesLoop(b, i + 1); }
        else { end := SkipBracketsLoop(b, i + 1); }
        if end.None? { return None; }
        i := end.value;
      } else if b[i] == '\\' {
        i := i + 1;
        if i < |b| { i := i + 1; }
      } else {
        i := i + 1;
      }
    }
    return None;
  }

  method IsComplete(b: string) returns (complete: bool)
    ensures complete == Complete(b)
  {
    var i := 0;
    while i < |b|
      invariant 0 <= i <= |b| && Complete(b) == CompleteFrom(b, i)
      decreases |b| - i
    {
      if Opens(b[i]) {
        var end;
        if b[i] == '{' { end := SkipBracesLoop(b, i + 1); }
        else if b[i] == '"' { end := SkipQuotesLoop(b, i + 1); }
        else { end := SkipBracketsLoop(b, i + 1); }
        if end.None? { return false; }
        i := end.value;
      } else if b[i] == '\\' {
        i := i + 1;
        if i < |b| {
          var wasNewline := b[i] == '\n' || (b[i] == '\r' && i + 1 < |b| && b[i + 1] == '\n');
          i := i + 1;
          if wasNewline {
            ghost var from := i;
            while i < |b| && Blank(b[i])
              invariant from <= i <= |b| && SkipBlanks(b, from) == SkipBlanks(b, i)
            {
              i := i + 1;
            }
            if i >= |b| { return false; }
          }
        }
      } else {
        i := i + 1;
      }
    }
    return true;
  }
}
