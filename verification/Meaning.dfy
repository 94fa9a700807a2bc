/** What parsed source means, evaluated command by command over the source
    itself.  Only the order in which commands and foreach shapes are numbered
    comes from compiling: it is that of the code. */
module Meaning {
  import opened Options
  import opened Opcodes
  import opened Machine
  import opened Sources
  import opened Evaluate
  import E = Exprs

  // ── where words stand ──

  /** The words of a command: spans in `src`, counted from byte `base`. */
  datatype Setting = Setting(src: string, base: nat, srcs: seq<Span>)

  /** The source text of word `k` is `text`. */
  predicate Standing(g: Setting, k: nat, text: string) {
    k < |g.srcs| &&
    var lo, hi := g.base + g.srcs[k].start, g.base + g.srcs[k].end;
    lo <= hi <= |g.src| && g.src[lo..hi] == text
  }

  /** The first byte inside the delimiters of word `k`. */
  function Within(g: Setting, k: nat): nat { g.base + (if k < |g.srcs| then g.srcs[k].start else 0) + 1 }

  /** The body can be run in place: it is empty, or it parses and the source has
      it in braces. */
  predicate BodyInPlace(b: Body, g: Setting) {
    b.value == "" || (b.script.Parsed? && Standing(g, b.word, "{" + b.value + "}"))
  }

  predicate BracketInPlace(w: SrcWord, g: Setting) {
    w.CommandSub? && w.sub.script.Parsed? && Standing(g, w.sub.word, "[" + w.sub.value + "]")
  }

  predicate IfInPlace(f: Shape, g: Setting) {
    f.IfOf? ==>
      && BodyInPlace(f.first.body, g)
      && (forall b | b in f.more :: BodyInPlace(b.body, g))
      && (f.els.Some? ==> BodyInPlace(f.els.value, g))
  }

  // ── expressions ──

  /** A condition that is worth compiling: more than one operand, and no number
      next to a comparison of texts. */
  predicate Worthwhile(ls: seq<Lex>) {
    && |ls| >= 2
    && !exists i, j | 0 <= i < |ls| && 0 <= j < |ls| :: IsNumber(ls[i]) && ComparesText(ls[j])
  }

  predicate IsNumber(l: Lex) { l.Tok? && l.t.Num? && (l.t.lit.Int? || l.t.lit.Float?) }

  predicate ComparesText(l: Lex) { l == Tok(E.Sym(StrEq)) || l == Tok(E.Sym(StrNe)) }

  /** A bracket in a braced condition, run where it stands. */
  predicate Runs(l: Lex, braced: bool) { braced && l.Brackets? && l.script.Parsed? }

  /** The tokens; a bracket goes by its own place. */
  function Placed(ls: seq<Lex>): (ts: seq<E.Token>)
    ensures |ts| == |ls|
  {
    seq(|ls|, k requires 0 <= k < |ls| => match ls[k] case Tok(t) => t case Brackets(_, _, _) => E.Cmd(k))
  }

  function Attempt(ls: seq<Lex>, braced: bool): (p: E.Parsed)
    ensures p.next <= |ls|
  {
    E.Parse(Placed(ls), (k: nat) => k < |ls| && Runs(ls[k], braced), 0, 0)
  }

  /** The tree of a condition, unless it is left to the expression evaluator. */
  function TreeOf(ls: seq<Lex>, braced: bool): Option<E.Tree> {
    var p := Attempt(ls, braced);
    if Worthwhile(ls) && p.Good? && p.next == |ls| then Some(p.t) else None
  }

  predicate Braced(k: Cond, g: Setting) { k.Written? && Standing(g, k.word, "{" + k.text + "}") }

  // ── numbering ──

  /** How many commands and foreach shapes come before. */
  datatype Tally = Tally(sites: nat, infos: nat)

  function AfterScript(cs: seq<Command>, src: string, base: nat, n: Tally): Tally
    decreases cs
  {
    if cs == [] then n else AfterScript(cs[1..], src, base, AfterCommand(cs[0], src, base, n))
  }

  function AfterCommand(c: Command, src: string, base: nat, n: Tally): Tally
    decreases c
  {
    AfterShape(c.shape, Setting(src, base, c.srcs), Tally(n.sites + 1, n.infos))
  }

  function AfterBody(b: Body, g: Setting, n: Tally): Tally
    decreases b
  {
    if b.value == "" || b.script.Unparsed? then n else AfterScript(b.script.cmds, g.src, Within(g, b.word), n)
  }

  function AfterWord(w: SrcWord, g: Setting, n: Tally): Tally
    decreases w
  {
    if BracketInPlace(w, g) then AfterScript(w.sub.script.cmds, g.src, Within(g, w.sub.word), n) else n
  }

  function AfterWords(ws: seq<SrcWord>, g: Setting, n: Tally): Tally
    decreases ws
  {
    if ws == [] then n else AfterWords(ws[1..], g, AfterWord(ws[0], g, n))
  }

  /** Behind the first `i` tokens of a condition whose text starts at `base`. */
  function AfterLexes(ls: seq<Lex>, braced: bool, i: nat, src: string, base: nat, n: Tally): Tally
    requires i <= |ls|
    decreases ls, i
  {
    if i == 0 then n
    else AfterLex(ls[i - 1], braced, src, base, AfterLexes(ls, braced, i - 1, src, base, n))
  }

  function AfterLex(l: Lex, braced: bool, src: string, base: nat, n: Tally): Tally
    decreases l
  {
    if Runs(l, braced) then AfterScript(l.script.cmds, src, base + l.off, n) else n
  }

  /** An abandoned attempt leaves its shapes behind. */
  function AfterCond(k: Cond, g: Setting, n: Tally): Tally
    decreases k
  {
    match k
    case Dynamic(w) => AfterWord(w, g, n)
    case Written(word, _, _, lexed) =>
      if lexed.Refused? || !Worthwhile(lexed.ls) then n
      else
        var braced := Braced(k, g);
        var after := AfterLexes(lexed.ls, braced, Attempt(lexed.ls, braced).next, g.src, Within(g, word), n);
        if TreeOf(lexed.ls, braced).Some? then after else Tally(n.sites, after.infos)
  }

  /** Behind the first `i` branches of an `if`. */
  function AfterBranches(f: Shape, i: nat, g: Setting, n: Tally): Tally
    requires f.IfOf? && i <= |f.more| + 1
    decreases f, i
  {
    if i == 0 then n
    else if i == 1 then AfterBody(f.first.body, g, AfterCond(f.first.cond, g, n))
    else
      var b := f.more[i - 2];
      AfterBody(b.body, g, AfterCond(b.cond, g, AfterBranches(f, i - 1, g, n)))
  }

  function AfterShape(f: Shape, g: Setting, n: Tally): Tally
    decreases f, if f.IfOf? then |f.more| + 2 else 0
  {
    match f
    case SetTo(_, w) => AfterWord(w, g, n)
    case LappendTo(_, w) => AfterWord(w, g, n)
    case ExprOf(k) => AfterCond(k, g, n)
    case IfOf(_, more, els, words) =>
      if !IfInPlace(f, g) then AfterWords(words, g, n)
      else
        var after := AfterBranches(f, |more| + 1, g, n);
        if els.Some? then AfterBody(els.value, g, after) else after
    case WhileOf(k, body, words) =>
      if !BodyInPlace(body, g) then AfterWords(words, g, n) else AfterBody(body, g, AfterCond(k, g, n))
    case ForOf(start, k, next, body, words) =>
      if !BodyInPlace(start, g) || !BodyInPlace(next, g) || !BodyInPlace(body, g) then AfterWords(words, g, n)
      else AfterBody(next, g, AfterBody(body, g, AfterCond(k, g, AfterBody(start, g, n))))
    case ForeachOf(_, data, body, words) =>
      if !BodyInPlace(body, g) then AfterWords(words, g, n)
      else AfterBody(body, g, AfterWords(data, g, Tally(n.sites, n.infos + 1)))
    case CallOf(_, _, words) => AfterWords(words, g, n)
    case _ => n
  }

  // ── evaluation ──

  /** The commands in turn, up to the first without a value. */
  function ScriptDoes(h: Host, cs: seq<Command>, src: string, base: nat, n: Tally, w: World, fuel: nat): Got
    decreases fuel, cs
  {
    if cs == [] then Some((w, Gives(Blank(h))))
    else
      var r := CommandDoes(h, cs[0], src, base, n, w, fuel);
      if |cs| == 1 || r.None? || !r.value.1.Gives? then r
      else ScriptDoes(h, cs[1..], src, base, AfterCommand(cs[0], src, base, n), r.value.0, fuel)
  }

  function CommandDoes(h: Host, c: Command, src: string, base: nat, n: Tally, w: World, fuel: nat): Got
    decreases fuel, c
  {
    var b := Ask(h, w, Begin(n.sites));
    if !b.1.Gives? then Some(b)
    else ShapeDoes(h, c.shape, Setting(src, base, c.srcs), Tally(n.sites + 1, n.infos), b.0, fuel)
  }

  function BodyDoes(h: Host, b: Body, g: Setting, n: Tally, w: World, fuel: nat): Got
    decreases fuel, b
  {
    if b.value == "" || b.script.Unparsed? then Some((w, Gives(Blank(h))))
    else ScriptDoes(h, b.script.cmds, g.src, Within(g, b.word), n, w, fuel)
  }

  /** A word, its brackets handed to the interpreter. */
  function PlainDoes(h: Host, x: SrcWord, w: World): (World, Res)
    decreases x
  {
    match x
    case Literal(lit) => (w, Gives(LitVal(h, lit)))
    case VarRef(l) => Ask(h, w, Request.Read(l))
    case ExprSugar(lit) => Ask(h, w, RunExpr(LitVal(h, lit)))
    case CommandSub(lit, _) => Ask(h, w, RunScript(LitVal(h, lit)))
    case Concat(parts) =>
      var r := PlainsDo(h, parts, w);
      (r.0, match r.1 case Many(vs) => Gives(h.concat(vs)) case Fell(x) => x)
  }

  function PlainsDo(h: Host, xs: seq<SrcWord>, w: World): (World, Vals)
    decreases xs
  {
    if xs == [] then (w, Many([]))
    else
      var a := PlainDoes(h, xs[0], w);
      if !a.1.Gives? then (a.0, Fell(a.1))
      else
        var b := PlainsDo(h, xs[1..], a.0);
        (b.0, match b.1 case Many(vs) => Many([a.1.v] + vs) case Fell(x) => Fell(x))
  }

  /** A word of a command: a bracket that stands in the source is run there. */
  function WordDoes(h: Host, x: SrcWord, g: Setting, n: Tally, w: World, fuel: nat): Got
    decreases fuel, x
  {
    if BracketInPlace(x, g) then ScriptDoes(h, x.sub.script.cmds, g.src, Within(g, x.sub.word), n, w, fuel)
    else Some(PlainDoes(h, x, w))
  }

  function WordsDo(h: Host, xs: seq<SrcWord>, g: Setting, n: Tally, w: World, fuel: nat): Option<(World, Vals)>
    decreases fuel, xs, 0
  {
    if xs == [] then Some((w, Many([])))
    else match WordDoes(h, xs[0], g, n, w, fuel)
      case None => None
      case Some(a) =>
        if !a.1.Gives? then Some((a.0, Fell(a.1)))
        else match WordsDo(h, xs[1..], g, AfterWord(xs[0], g, n), a.0, fuel)
          case None => None
          case Some(b) => Some((b.0, match b.1 case Many(vs) => Many([a.1.v] + vs) case Fell(x) => Fell(x)))
  }

  function LexDoes(h: Host, l: Lex, braced: bool, src: string, base: nat, n: Tally, w: World, fuel: nat): Got
    decreases fuel, l
  {
    if Runs(l, braced) then ScriptDoes(h, l.script.cmds, src, base + l.off, n, w, fuel)
    else Some((w, Gives(Blank(h))))
  }

  /** The tree of a condition whose text starts at `base`. */
  function TreeDoes(h: Host, t: E.Tree, ls: seq<Lex>, braced: bool, src: string, base: nat, n: Tally, w: World,
          fuel: nat): Got
    decreases fuel, ls, t
  {
    match t
    case Leaf(lit) => Some((w, Gives(LitVal(h, lit))))
    case Read(x) => Some(Ask(h, w, Request.Read(x)))
    case Inner(k) =>
      if k < |ls| then LexDoes(h, ls[k], braced, src, base, AfterLexes(ls, braced, k, src, base, n), w, fuel)
      else Some((w, Gives(Blank(h))))
    case Group(x) => TreeDoes(h, x, ls, braced, src, base, n, w, fuel)
    case Binary(op, l, r) =>
      (match TreeDoes(h, l, ls, braced, src, base, n, w, fuel)
       case None => None
       case Some(a) =>
         if !a.1.Gives? then Some(a)
         else match TreeDoes(h, r, ls, braced, src, base, n, a.0, fuel)
           case None => None
           case Some(b) =>
             if !b.1.Gives? then Some(b) else Some((b.0, OfReply(BinVal(h, op, a.1.v, b.1.v)))))
    case Unary(un, x) =>
      match TreeDoes(h, x, ls, braced, src, base, n, w, fuel)
      case None => None
      case Some(a) => if !a.1.Gives? then Some(a) else Some((a.0, OfReply(UnVal(h, un, a.1.v))))
  }

  /** A condition: its tree, or its text for the expression evaluator. */
  function CondDoes(h: Host, k: Cond, g: Setting, n: Tally, w: World, fuel: nat): Got
    decreases fuel, k
  {
    match k
    case Dynamic(x) => Feed(h, WordDoes(h, x, g, n, w, fuel), v => RunExpr(v))
    case Written(word, _, lit, lexed) =>
      if lexed.Lexes? && TreeOf(lexed.ls, Braced(k, g)).Some?
      then TreeDoes(h, TreeOf(lexed.ls, Braced(k, g)).value, lexed.ls, Braced(k, g), g.src, Within(g, word), n, w, fuel)
      else Some(Ask(h, w, RunExpr(LitVal(h, lit))))
  }

  /** The branches of an `if` from the `i`th on: the first one whose condition
      holds, or the else body. */
  function BranchesDo(h: Host, f: Shape, i: nat, g: Setting, n: Tally, w: World, fuel: nat): Got
    requires f.IfOf? && i <= |f.more| + 1
    decreases fuel, f, 1, |f.more| + 1 - i
  {
    if i == |f.more| + 1 then
      if f.els.Some? then BodyDoes(h, f.els.value, g, AfterBranches(f, i, g, n), w, fuel)
      else Some((w, Gives(Blank(h))))
    else
      var b := if i == 0 then f.first else f.more[i - 1];
      var here := AfterBranches(f, i, g, n);
      match CondDoes(h, b.cond, g, here, w, fuel)
      case None => None
      case Some(r) =>
        match Choose(h, r.1)
        case Neither(x) => Some((r.0, x))
        case Chose(yes) =>
          if yes then BodyDoes(h, b.body, g, AfterCond(b.cond, g, here), r.0, fuel)
          else BranchesDo(h, f, i + 1, g, n, r.0, fuel)
  }

  /** Passes of a `while`; what ends a pass early ends it for the loop alone. */
  function WhileDoes(h: Host, f: Shape, g: Setting, n: Tally, w: World, fuel: nat): Got
    requires f.WhileOf?
    decreases fuel, f, 0
  {
    if fuel == 0 then None
    else match CondDoes(h, f.cond, g, n, w, fuel)
      case None => None
      case Some(r) =>
        match Choose(h, r.1)
        case Neither(x) =>
          if Caught(h, x).Some? then Some((r.0, Caught(h, x).value)) else WhileDoes(h, f, g, n, r.0, fuel - 1)
        case Chose(yes) =>
          if !yes then Some((r.0, Gives(Blank(h))))
          else match BodyDoes(h, f.body, g, AfterCond(f.cond, g, n), r.0, fuel)
            case None => None
            case Some(q) =>
              if Caught(h, q.1).Some? then Some((q.0, Caught(h, q.1).value)) else WhileDoes(h, f, g, n, q.0, fuel - 1)
  }

  /** Passes of a `for` whose start script is behind. */
  function ForDoes(h: Host, f: Shape, g: Setting, n: Tally, w: World, fuel: nat): Got
    requires f.ForOf?
    decreases fuel, f, 1
  {
    match CondDoes(h, f.cond, g, n, w, fuel)
    case None => None
    case Some(r) =>
      match Choose(h, r.1)
      case Neither(x) =>
        if Caught(h, x).Some? then Some((r.0, Caught(h, x).value)) else NextDoes(h, f, g, n, r.0, fuel)
      case Chose(yes) =>
        if !yes then Some((r.0, Gives(Blank(h))))
        else match BodyDoes(h, f.body, g, AfterCond(f.cond, g, n), r.0, fuel)
          case None => None
          case Some(q) =>
            if Caught(h, q.1).Some? then Some((q.0, Caught(h, q.1).value)) else NextDoes(h, f, g, n, q.0, fuel)
  }

  /** The next script, in which `continue` is not the loop's, then on. */
  function NextDoes(h: Host, f: Shape, g: Setting, n: Tally, w: World, fuel: nat): Got
    requires f.ForOf?
    decreases fuel, f, 0
  {
    if fuel == 0 then None
    else match BodyDoes(h, f.next, g, AfterBody(f.body, g, AfterCond(f.cond, g, n)), w, fuel)
      case None => None
      case Some(r) =>
        if r.1.Continues? then Some(r)
        else if Caught(h, r.1).Some? then Some((r.0, Caught(h, r.1).value))
        else ForDoes(h, f, g, n, r.0, fuel - 1)
  }

  /** The passes from `k` on of the foreach with number `info`. */
  function EachDoes(h: Host, f: Shape, info: nat, lists: seq<Val>, k: nat, acc: seq<Val>, g: Setting, n: Tally,
          w: World, fuel: nat): Got
    requires f.ForeachOf?
    decreases fuel, f, 0, h.iters(info, lists) - k
  {
    if k >= h.iters(info, lists) then Some((w, Gives(Gathered(h, f.info, acc))))
    else
      var b := Ask(h, w, Bind(info, lists, k));
      match (if b.1.Gives? then BodyDoes(h, f.body, g, n, b.0, fuel) else Some(b))
      case None => None
      case Some(r) =>
        match r.1
        case Breaks(_) => Some((r.0, Gives(Gathered(h, f.info, acc))))
        case Halts(_) => Some(r)
        case Continues(_) => EachDoes(h, f, info, lists, k + 1, acc, g, n, r.0, fuel)
        case Gives(v) => EachDoes(h, f, info, lists, k + 1, acc + [v], g, n, r.0, fuel)
  }

  /** A command handed to the interpreter: its words, then the call. */
  function CallDoes(h: Host, dyn: bool, words: seq<SrcWord>, g: Setting, n: Tally, w: World, fuel: nat): Got
    decreases fuel, words, 1
  {
    match WordsDo(h, words, g, n, w, fuel)
    case None => None
    case Some(r) =>
      match r.1
      case Fell(x) => Some((r.0, x))
      case Many(vs) => Some(Ask(h, r.0, Invoke(dyn, vs)))
  }

  function ShapeDoes(h: Host, f: Shape, g: Setting, n: Tally, w: World, fuel: nat): Got
    decreases fuel, f, 2
  {
    match f
    case SetTo(x, y) =>
      (match WordDoes(h, y, g, n, w, fuel)
       case None => None
       case Some(a) =>
         if !a.1.Gives? then Some(a)
         else var r := Ask(h, a.0, Write(x, a.1.v)); Some(if r.1.Gives? then (r.0, a.1) else r))
    case SetGet(x) => Some(Ask(h, w, Request.Read(x)))
    case IncrBy(x, k) => Some(Ask(h, w, Request.Bump(x, k)))
    case LappendTo(x, y) => Feed(h, WordDoes(h, y, g, n, w, fuel), v => Request.Extend(x, v))
    case ExprOf(k) => CondDoes(h, k, g, n, w, fuel)
    case IfOf(_, _, _, words) =>
      if !IfInPlace(f, g) then CallDoes(h, true, words, g, n, w, fuel) else BranchesDo(h, f, 0, g, n, w, fuel)
    case WhileOf(_, body, words) =>
      if !BodyInPlace(body, g) then CallDoes(h, true, words, g, n, w, fuel) else WhileDoes(h, f, g, n, w, fuel)
    case ForOf(start, _, next, body, words) =>
      if !BodyInPlace(start, g) || !BodyInPlace(next, g) || !BodyInPlace(body, g)
      then CallDoes(h, true, words, g, n, w, fuel)
      else
        (match BodyDoes(h, start, g, n, w, fuel)
         case None => None
         case Some(r) => if !r.1.Gives? then Some(r) else ForDoes(h, f, g, AfterBody(start, g, n), r.0, fuel))
    case ForeachOf(_, data, body, words) =>
      if !BodyInPlace(body, g) then CallDoes(h, true, words, g, n, w, fuel)
      else
        var n1 := Tally(n.sites, n.infos + 1);
        (match WordsDo(h, data, g, n1, w, fuel)
         case None => None
         case Some(r) =>
           match r.1
           case Fell(x) => Some((r.0, x))
           case Many(vs) =>
             var o := Ask(h, r.0, OpenLists(n.infos, vs));
             if !o.1.Gives? then Some(o)
             else EachDoes(h, f, n.infos, vs, 0, [], g, AfterWords(data, g, n1), o.0, fuel))
    case BreakCmd => Some((w, Breaks(Brk(1))))
    case ContinueCmd => Some((w, Continues(Cnt(1))))
    case ReturnOf(y) => var a := PlainDoes(h, y, w); Some(if a.1.Gives? then (a.0, Halts(Ret(a.1.v))) else a)
    case ExitOf(code) => Some((w, Halts(Quit(code))))
    case CallOf(dyn, _, words) => CallDoes(h, dyn, words, g, n, w, fuel)
  }
}
