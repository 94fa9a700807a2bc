/** Every site the compiler records points at its own command in the source of
    the unit, at any depth of bodies and brackets, and says its line. */
module Placement {
  import opened Options
  import opened Opcodes
  import opened Exprs
  import opened Sources
  import opened Resolution

  // ── what parsing a text promises of the commands in that text ──

  predicate Within(s: Span, n: nat) { s.start <= s.end <= n }

  function Slice(text: string, s: Span): string
    requires Within(s, |text|)
  {
    text[s.start..s.end]
  }

  predicate CommandsSit(cs: seq<Command>, text: string)
    decreases cs
  {
    cs != [] ==> CommandSits(cs[0], text) && CommandsSit(cs[1..], text)
  }

  predicate CommandSits(c: Command, text: string)
    decreases c
  {
    && Within(c.text, |text|) && Slice(text, c.text) == c.own && c.line == 1 + NewLines(text, c.text.start)
    && (forall k | 0 <= k < |c.srcs| :: Within(c.srcs[k], |text|))
    && ShapeSits(c.shape)
  }

  /** Nothing is known of where the value came from. */
  predicate BodySits(b: Body)
    decreases b
  {
    b.script.Parsed? ==> CommandsSit(b.script.cmds, b.value)
  }

  predicate WordSits(w: SrcWord)
    decreases w
  {
    w.CommandSub? ==> BodySits(w.sub)
  }

  predicate WordsSit(ws: seq<SrcWord>)
    decreases ws
  {
    forall k | 0 <= k < |ws| :: WordSits(ws[k])
  }

  /** A bracket lies in the expression text. */
  predicate LexSits(l: Lex, text: string)
    decreases l
  {
    l.Brackets? && l.script.Parsed? ==>
        l.off + l.size <= |text| && CommandsSit(l.script.cmds, text[l.off..l.off + l.size])
  }

  predicate CondSits(k: Cond)
    decreases k
  {
    match k
    case Dynamic(w) => WordSits(w)
    case Written(_, text, _, lexed) => lexed.Lexes? ==> forall i | 0 <= i < |lexed.ls| :: LexSits(lexed.ls[i], text)
  }

  predicate BranchSits(a: Branch)
    decreases a
  {
    CondSits(a.cond) && BodySits(a.body)
  }

  predicate ShapeSits(f: Shape)
    decreases f
  {
    match f
    case SetTo(_, w) => WordSits(w)
    case LappendTo(_, w) => WordSits(w)
    case ExprOf(k) => CondSits(k)
    case IfOf(first, more, els, words) =>
      && BranchSits(first) && (forall k | 0 <= k < |more| :: BranchSits(more[k]))
      && (els.Some? ==> BodySits(els.value)) && WordsSit(words)
    case WhileOf(k, body, words) => CondSits(k) && BodySits(body) && WordsSit(words)
    case ForOf(start, k, next, body, words) =>
      BodySits(start) && CondSits(k) && BodySits(next) && BodySits(body) && WordsSit(words)
    case ForeachOf(_, data, body, words) => WordsSit(data) && BodySits(body) && WordsSit(words)
    case CallOf(_, _, words) => WordsSit(words)
    case _ => true
  }

  // ── what the compiler promises of the sites ──

  /** The lines counted are those before `from`. */
  predicate Honest(at: Place, src: string) { at.from <= at.base <= |src| && at.line == NewLines(src, at.from) }

  /** Inside a bracket, whose lines are counted from further out. */
  predicate InBracket(at: Place) { at.from < at.base }

  /** The spans lie in the source, the command's own text is there, and the
      line is the line of its first byte, less the lines its place missed. */
  predicate SiteTrue(s: Site, c: Command, at: Place, src: string) {
    && Within(s.text, |src|) && Slice(src, s.text) == c.own
    && (forall k | 0 <= k < |s.srcs| :: Within(s.srcs[k], |src|))
    && Honest(at, src) && s.line + NewLines(src, at.base) == 1 + NewLines(src, s.text.start) + at.line
  }

  predicate TablesTrue(t: Tables, src: string) {
    |t.sites| == |t.origins| && forall k | 0 <= k < |t.sites| ::
        SiteTrue(t.sites[k], t.origins[k].0, t.origins[k].1, src)
  }

  /** `text` stands in the source at `at`. */
  predicate Holds(src: string, at: Place, text: string) {
    Honest(at, src) && at.base + |text| <= |src| && src[at.base..at.base + |text|] == text
  }

  lemma {:induction false} NewLinesAdd(src: string, base: nat, text: string, k: nat)
    requires base + |text| <= |src| && src[base..base + |text|] == text && k <= |text|
    ensures NewLines(src, base + k) == NewLines(src, base) + NewLines(text, k)
  {
    if k > 0 {
      NewLinesAdd(src, base, text, k - 1);
      assert src[base + k - 1] == text[k - 1];
    }
  }

  lemma SliceInside(src: string, at: Place, text: string, s: Span)
    requires Holds(src, at, text) && Within(s, |text|)
    ensures Within(Shift(s, at.base), |src|) && Slice(src, Shift(s, at.base)) == Slice(text, s)
  {
    var whole := src[at.base..at.base + |text|];
    forall k | 0 <= k < s.end - s.start ensures Slice(src, Shift(s, at.base))[k] == Slice(text, s)[k] {
      assert whole[s.start + k] == src[at.base + s.start + k];
    }
  }

  lemma RecordedTrue(t: Tables, c: Command, src: string, at: Place, text: string)
    requires TablesTrue(t, src) && CommandSits(c, text) && Holds(src, at, text)
    ensures TablesTrue(Recorded(t, c, at), src)
  {
    hide ShapeSits, NewLines;
    SliceInside(src, at, text, c.text);
    NewLinesAdd(src, at.base, text, c.text.start);
    assert SiteTrue(SiteOf(c, at), c, at, src);
  }

  // ── the guard puts the value where its commands are compiled ──

  lemma BodyHolds(src: string, at: Place, srcs: seq<Span>, b: Body)
    requires Verbatim(src, at, srcs, b.word, '{', '}', b.value)
    ensures Holds(src, BodyPlace(src, at, srcs, b.word), b.value)
  {
  }

  lemma BracketHolds(src: string, at: Place, srcs: seq<Span>, k: nat, open: char, close: char, value: string)
    requires Verbatim(src, at, srcs, k, open, close, value) && Honest(at, src)
    ensures Holds(src, BracketPlace(at, srcs, k), value)
  {
  }

  // ── the tables stay true ──

  lemma {:induction false} CommandsPlaced(cs: seq<Command>, text: string, src: string, at: Place, t: Tables)
    requires CommandsSit(cs, text) && Holds(src, at, text) && TablesTrue(t, src)
    ensures TablesTrue(Commands(cs, src, at, t).1, src)
    decreases cs
  {
    hide One, CommandSits, TablesTrue, Holds;
    if cs != [] {
      OnePlaced(cs[0], text, src, at, t);
      CommandsPlaced(cs[1..], text, src, at, One(cs[0], src, at, t).1);
    }
  }

  lemma {:induction false} OnePlaced(c: Command, text: string, src: string, at: Place, t: Tables)
    requires CommandSits(c, text) && Holds(src, at, text) && TablesTrue(t, src)
    ensures TablesTrue(One(c, src, at, t).1, src)
    decreases c
  {
    hide FormOf, ShapeSits, TablesTrue, Recorded, NewLines;
    RecordedTrue(t, c, src, at, text);
    ShapePlaced(c.shape, c.srcs, src, at, Recorded(t, c, at));
  }

  lemma {:induction false} BodyPlaced(b: Body, srcs: seq<Span>, src: string, at: Place, t: Tables)
    requires BodySits(b) && Inlinable(b, srcs, src, at) && TablesTrue(t, src)
    ensures TablesTrue(InBody(b, srcs, src, at, t).1, src)
    decreases b
  {
    hide TablesTrue, Holds, CommandsSit, BodyPlace, Verbatim;
    if b.value != "" {
      BodyHolds(src, at, srcs, b);
      CommandsPlaced(b.script.cmds, b.value, src, BodyPlace(src, at, srcs, b.word), t);
    }
  }

  lemma {:induction false} WordPlaced(w: SrcWord, srcs: seq<Span>, src: string, at: Place, t: Tables)
    requires WordSits(w) && Honest(at, src) && TablesTrue(t, src)
    ensures TablesTrue(Spanned(w, srcs, src, at, t).1, src)
    decreases w
  {
    hide TablesTrue, Holds, Honest, Commands, CommandsSit, BracketPlace, Verbatim;
    if InlinesSub(w, srcs, src, at) {
      BracketHolds(src, at, srcs, w.sub.word, '[', ']', w.sub.value);
      CommandsPlaced(w.sub.script.cmds, w.sub.value, src, BracketPlace(at, srcs, w.sub.word), t);
    }
  }

  lemma {:induction false} WordsPlaced(ws: seq<SrcWord>, srcs: seq<Span>, src: string, at: Place, t: Tables)
    requires WordsSit(ws) && Honest(at, src) && TablesTrue(t, src)
    ensures TablesTrue(SpannedAll(ws, srcs, src, at, t).1, src)
    decreases ws
  {
    hide TablesTrue, Honest, WordSits, Spanned;
    if ws != [] {
      WordPlaced(ws[0], srcs, src, at, t);
      WordsPlaced(ws[1..], srcs, src, at, Spanned(ws[0], srcs, src, at, t).1);
    }
  }

  lemma {:induction false} LexPlaced(l: Lex, braced: bool, text: string, src: string, at: Place, t: Tables)
    requires braced ==> LexSits(l, text) && Holds(src, at, text)
    requires TablesTrue(t, src)
    ensures TablesTrue(OfLex(l, braced, src, at, t).1, src)
    decreases l
  {
    hide TablesTrue, Commands, CommandsSit, NewLines;
    if braced && l.Brackets? && l.script.Parsed? {
      var p := Place(at.base + l.off, at.line, at.from);
      SliceInside(src, at, text, Span(l.off, l.off + l.size));
      CommandsPlaced(l.script.cmds, text[l.off..l.off + l.size], src, p, t);
    }
  }

  lemma {:induction false} ScannedPlaced(ls: seq<Lex>, braced: bool, n: nat, text: string, src: string, at: Place,
          t: Tables)
    requires n <= |ls| && TablesTrue(t, src)
    requires braced ==> Holds(src, at, text) && forall i | 0 <= i < |ls| :: LexSits(ls[i], text)
    ensures TablesTrue(Scanned(ls, braced, n, src, at, t).1, src)
    decreases ls, n
  {
    hide TablesTrue, Holds, LexSits, OfLex;
    if n > 0 {
      ScannedPlaced(ls, braced, n - 1, text, src, at, t);
      LexPlaced(ls[n - 1], braced, text, src, at, Scanned(ls, braced, n - 1, src, at, t).1);
    }
  }

  /** Only the shapes of an abandoned expression stay. */
  lemma {:induction false} CondPlaced(k: Cond, srcs: seq<Span>, src: string, at: Place, t: Tables)
    requires CondSits(k) && Honest(at, src) && TablesTrue(t, src)
    ensures TablesTrue(CondOf(k, srcs, src, at, t).1, src)
    decreases k
  {
    hide SiteTrue, Holds, Honest, LexSits, Scanned, Parse, Eligible, TokensOf, Compilable, Spanned, WordSits,
        ExprOfTree, Verbatim,
      BracketPlace;
    match k {
      case Dynamic(w) => WordPlaced(w, srcs, src, at, t);
      case Written(word, text, lit, lexed) =>
        if lexed.Lexes? && Eligible(TokensOf(lexed.ls)) {
          var braced := Verbatim(src, at, srcs, word, '{', '}', text);
          var p := Parse(TokensOf(lexed.ls), Compilable(lexed.ls, braced), 0, 0);
          if braced { BracketHolds(src, at, srcs, word, '{', '}', text); }
          ScannedPlaced(lexed.ls, braced, p.next, text, src, BracketPlace(at, srcs, word), t);
        }
    }
  }

  lemma {:induction false} ArmsPlaced(f: Shape, i: nat, srcs: seq<Span>, src: string, at: Place, t: Tables)
    requires f.IfOf? && i <= |f.more| && ShapeSits(f) && ArmsInlinable(f, srcs, src, at) && Honest(at, src)
        && TablesTrue(t, src)
    ensures TablesTrue(ArmsFrom(f, i, srcs, src, at, t).1, src)
    decreases f, |f.more| - i
  {
    hide TablesTrue, Honest, CondOf, BodySits, CondSits, InBody, Inlinable, WordsSit;
    if i < |f.more| {
      var a := f.more[i];
      assert BranchSits(a);
      var t1 := CondOf(a.cond, srcs, src, at, t).1;
      CondPlaced(a.cond, srcs, src, at, t);
      BodyPlaced(a.body, srcs, src, at, t1);
      ArmsPlaced(f, i + 1, srcs, src, at, InBody(a.body, srcs, src, at, t1).1);
    } else if f.els.Some? {
      BodyPlaced(f.els.value, srcs, src, at, t);
    }
  }

  lemma {:induction false} ShapePlaced(f: Shape, srcs: seq<Span>, src: string, at: Place, t: Tables)
    requires ShapeSits(f) && Honest(at, src) && TablesTrue(t, src)
    ensures TablesTrue(FormOf(f, srcs, src, at, t).1, src)
    decreases f
  {
    hide TablesTrue, Honest, CondOf, Spanned, SpannedAll, InBody, ArmsFrom, PlainWord, CondSits, BodySits, WordSits,
        WordsSit;
    match f {
      case SetTo(_, w) => WordPlaced(w, srcs, src, at, t);
      case LappendTo(_, w) => WordPlaced(w, srcs, src, at, t);
      case ExprOf(k) => CondPlaced(k, srcs, src, at, t);
      case IfOf(first, more, _, _) => IfPlaced(f, srcs, src, at, t);
      case WhileOf(k, body, _) => WhilePlaced(f, srcs, src, at, t);
      case ForOf(start, k, next, body, _) => ForPlaced(f, srcs, src, at, t);
      case ForeachOf(info, data, body, _) => ForeachPlaced(f, srcs, src, at, t);
      case CallOf(_, _, words) => WordsPlaced(words, srcs, src, at, t);
      case _ =>
    }
  }

  lemma {:induction false} IfPlaced(f: Shape, srcs: seq<Span>, src: string, at: Place, t: Tables)
    requires f.IfOf? && ShapeSits(f) && Honest(at, src) && TablesTrue(t, src)
    ensures TablesTrue(FormOf(f, srcs, src, at, t).1, src)
    decreases f, |f.more| + 1
  {
    hide TablesTrue, Honest, CondOf, BodySits, CondSits, InBody, ArmsFrom, Inlinable, SpannedAll, WordsSit;
    if !ArmsInlinable(f, srcs, src, at) {
      WordsPlaced(f.words, srcs, src, at, t);
    } else {
      var t1 := CondOf(f.first.cond, srcs, src, at, t).1;
      CondPlaced(f.first.cond, srcs, src, at, t);
      BodyPlaced(f.first.body, srcs, src, at, t1);
      ArmsPlaced(f, 0, srcs, src, at, InBody(f.first.body, srcs, src, at, t1).1);
    }
  }

  lemma {:induction false} WhilePlaced(f: Shape, srcs: seq<Span>, src: string, at: Place, t: Tables)
    requires f.WhileOf? && ShapeSits(f) && Honest(at, src) && TablesTrue(t, src)
    ensures TablesTrue(FormOf(f, srcs, src, at, t).1, src)
    decreases f, 0
  {
    hide TablesTrue, Honest, CondOf, BodySits, CondSits, InBody, Inlinable, SpannedAll, WordsSit;
    if !Inlinable(f.body, srcs, src, at) {
      WordsPlaced(f.words, srcs, src, at, t);
    } else {
      CondPlaced(f.cond, srcs, src, at, t);
      BodyPlaced(f.body, srcs, src, at, CondOf(f.cond, srcs, src, at, t).1);
    }
  }

  lemma {:induction false} ForPlaced(f: Shape, srcs: seq<Span>, src: string, at: Place, t: Tables)
    requires f.ForOf? && ShapeSits(f) && Honest(at, src) && TablesTrue(t, src)
    ensures TablesTrue(FormOf(f, srcs, src, at, t).1, src)
    decreases f, 0
  {
    hide TablesTrue, Honest, CondOf, BodySits, CondSits, InBody, Inlinable, SpannedAll, WordsSit;
    if !Inlinable(f.start, srcs, src, at) || !Inlinable(f.next, srcs, src, at) || !Inlinable(f.body, srcs, src, at) {
      WordsPlaced(f.words, srcs, src, at, t);
    } else {
      BodyPlaced(f.start, srcs, src, at, t);
      var t1 := InBody(f.start, srcs, src, at, t).1;
      CondPlaced(f.cond, srcs, src, at, t1);
      var t2 := CondOf(f.cond, srcs, src, at, t1).1;
      BodyPlaced(f.body, srcs, src, at, t2);
      BodyPlaced(f.next, srcs, src, at, InBody(f.body, srcs, src, at, t2).1);
    }
  }

  lemma {:induction false} ForeachPlaced(f: Shape, srcs: seq<Span>, src: string, at: Place, t: Tables)
    requires f.ForeachOf? && ShapeSits(f) && Honest(at, src) && TablesTrue(t, src)
    ensures TablesTrue(FormOf(f, srcs, src, at, t).1, src)
    decreases f, 0
  {
    hide SiteTrue, Honest, BodySits, InBody, SpannedAll, WordsSit, Inlinable;
    if !Inlinable(f.body, srcs, src, at) {
      WordsPlaced(f.words, srcs, src, at, t);
    } else {
      var t0 := t.(infos := t.infos + [f.info]);
      WordsPlaced(f.data, srcs, src, at, t0);
      BodyPlaced(f.body, srcs, src, at, SpannedAll(f.data, srcs, src, at, t0).1);
    }
  }

  /** All the sites of a unit: whatever was compiled in place had passed the
      compiler's own comparison with the source. */
  lemma UnitSites(cs: seq<Command>, src: string)
    requires CommandsSit(cs, src)
    ensures TablesTrue(Commands(cs, src, TOP, Tables([], [], [])).1, src)
  {
    CommandsPlaced(cs, src, src, TOP, Tables([], [], []));
  }

  // ── lines ──

  lemma {:induction false} NewLinesBetween(src: string, a: nat, b: nat)
    requires a <= b <= |src|
    ensures NewLines(src, a) <= NewLines(src, b)
    ensures NewLines(src, a) == NewLines(src, b) <==> '\n' !in src[a..b]
  {
    if a < b {
      NewLinesBetween(src, a, b - 1);
      assert src[a..b] == src[a..b - 1] + [src[b - 1]];
    }
  }

  /** The line of a site is the line of its first byte, outside brackets
      always, and in a bracket exactly when no line ends between the place
      lines were counted from and the bracket's content. */
  lemma UnitLines(cs: seq<Command>, src: string, k: nat)
    requires CommandsSit(cs, src) && k < |Commands(cs, src, TOP, Tables([], [], [])).1.sites|
    ensures var t := Commands(cs, src, TOP, Tables([], [], [])).1;
      && k < |t.origins| && t.origins[k].1.from <= t.origins[k].1.base <= |src| && t.sites[k].text.start <= |src|
      && var s, at := t.sites[k], t.origins[k].1; var exact := s.line == 1 + NewLines(src, s.text.start);
        (!InBracket(at) ==> exact) && (exact <==> '\n' !in src[at.from..at.base])
  {
    hide Commands, NewLines;
    UnitSites(cs, src);
    var t := Commands(cs, src, TOP, Tables([], [], [])).1;
    assert SiteTrue(t.sites[k], t.origins[k].0, t.origins[k].1, src);
    NewLinesBetween(src, t.origins[k].1.from, t.origins[k].1.base);
  }

  // ── a bracket on a second line ──

  const TWO_LINES := "a \\\n[b]"

  function Bracketed(): Command { Command(Span(0, 1), 1, "b", [Span(0, 1)], CallOf(true, 0, [Literal(Empty)])) }

  function Broken(): seq<Command> {
    var sub := CommandSub(Empty, Body(1, "b", Parsed([Bracketed()])));
    [Command(Span(0, 7), 1, TWO_LINES, [Span(0, 1), Span(4, 7)], CallOf(true, 0, [Literal(Empty), sub]))]
  }

  lemma BrokenSits()
    ensures CommandsSit(Broken(), TWO_LINES)
  {
    assert CommandSits(Bracketed(), "b") by { assert "b"[0..1] == "b"; }
    assert CommandsSit([Bracketed()], "b");
    assert TWO_LINES[0..7] == TWO_LINES;
    assert CommandSits(Broken()[0], TWO_LINES);
  }

  lemma BracketedSite(at: Place, t: Tables)
    ensures Commands([Bracketed()], TWO_LINES, at, t).1 == Recorded(t, Bracketed(), at)
  {
    var words := Bracketed().shape.words;
    var t1 := Recorded(t, Bracketed(), at);
    assert words[1..] == [];
    assert SpannedAll(words, Bracketed().srcs, TWO_LINES, at, t1).1 == t1;
    assert [Bracketed()][1..] == [];
  }

  lemma BrokenSites(t0: Tables)
    ensures var c := Broken()[0];
      SpannedAll(c.shape.words, c.srcs, TWO_LINES, TOP, t0).1 == Recorded(t0, Bracketed(), Place(5, 0, 0))
  {
    hide Commands;
    var c := Broken()[0];
    var words := c.shape.words;
    assert TWO_LINES[5..6] == "b";
    assert Verbatim(TWO_LINES, TOP, c.srcs, 1, '[', ']', "b");
    BracketedSite(Place(5, 0, 0), t0);
    assert words[1..] == [words[1]] && words[1..][1..] == [];
    assert Spanned(words[0], c.srcs, TWO_LINES, TOP, t0).1 == t0;
    assert Spanned(words[1], c.srcs, TWO_LINES, TOP, t0).1 == Recorded(t0, Bracketed(), Place(5, 0, 0));
  }

  /** The bracketed command starts on line 2; its site says line 1. */
  lemma BracketLineOff()
    ensures CommandsSit(Broken(), TWO_LINES)
    ensures var t := Commands(Broken(), TWO_LINES, TOP, Tables([], [], [])).1;
      |t.sites| == 2 && t.sites[1].text == Span(5, 6) && t.sites[1].line == 1 && NewLines(TWO_LINES, 5) == 1
  {
    hide SpannedAll;
    BrokenSits();
    BrokenSites(Recorded(Tables([], [], []), Broken()[0], TOP));
    assert Broken()[1..] == [];
    assert NewLines(TWO_LINES, 3) == 0;
  }
}
