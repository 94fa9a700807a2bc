/** What the compiler makes of parsed source: the script it compiles, with the
    sites and foreach shapes that script refers to, in the order they are
    recorded. */
module Resolution {
  import opened Options
  import opened Opcodes
  import opened Machine
  import opened Exprs
  import opened Sources
  import Syntax

  /** A command's source site. */
  datatype Site = Site(text: Span, line: nat, lineRel: nat, lineDelta: nat, srcs: seq<Span>)

  /** Where the script being compiled starts: its first byte, and a count of
      the lines before byte `from`, which in a bracket is further out. */
  datatype Place = Place(base: nat, line: nat, from: nat)

  const TOP := Place(0, 0, 0)

  /** `origins` are the commands of the sites, and where they were compiled. */
  datatype Tables = Tables(sites: seq<Site>, infos: seq<ForeachInfo>, origins: seq<(Command, Place)>)

  function Shift(s: Span, base: nat): Span { Span(s.start + base, s.end + base) }

  function SiteOf(c: Command, at: Place): Site {
    Site(Shift(c.text, at.base), at.line + c.line, c.line, at.line,
         seq(|c.srcs|, k requires 0 <= k < |c.srcs| => Shift(c.srcs[k], at.base)))
  }

  function Recorded(t: Tables, c: Command, at: Place): Tables {
    Tables(t.sites + [SiteOf(c, at)], t.infos, t.origins + [(c, at)])
  }

  /** The lines before byte `off`. */
  function NewLines(src: string, off: nat): nat {
    if off == 0 || |src| == 0 then 0
    else if off > |src| then NewLines(src, |src|)
    else NewLines(src, off - 1) + (if src[off - 1] == '\n' then 1 else 0)
  }

  /** Just inside word `k`. */
  function Inside(base: nat, srcs: seq<Span>, k: nat): nat { base + (if k < |srcs| then srcs[k].start else 0) + 1 }

  /** A body takes its lines from the source. */
  function BodyPlace(src: string, at: Place, srcs: seq<Span>, k: nat): Place {
    var base := Inside(at.base, srcs, k);
    Place(base, NewLines(src, base), base)
  }

  /** A bracket keeps the enclosing count. */
  function BracketPlace(at: Place, srcs: seq<Span>, k: nat): Place { Place(Inside(at.base, srcs, k), at.line, at.from) }

  /** Word `k` stands in the source as its value between two delimiters. */
  predicate Verbatim(src: string, at: Place, srcs: seq<Span>, k: nat, open: char, close: char, value: string) {
    k < |srcs| &&
    var s := Shift(srcs[k], at.base);
    && s.start + 2 <= s.end <= |src|
    && src[s.start] == open && src[s.end - 1] == close && src[s.start + 1..s.end - 1] == value
  }

  /** The body can be compiled in place. */
  predicate Inlinable(b: Body, srcs: seq<Span>, src: string, at: Place) {
    b.value == "" || (Verbatim(src, at, srcs, b.word, '{', '}', b.value) && b.script.Parsed?)
  }

  /** The bracket can. */
  predicate InlinesSub(w: SrcWord, srcs: seq<Span>, src: string, at: Place) {
    w.CommandSub? && Verbatim(src, at, srcs, w.sub.word, '[', ']', w.sub.value) && w.sub.script.Parsed?
  }

  predicate ArmsInlinable(f: Shape, srcs: seq<Span>, src: string, at: Place)
    requires f.IfOf?
  {
    && Inlinable(f.first.body, srcs, src, at)
    && (forall k | 0 <= k < |f.more| :: Inlinable(f.more[k].body, srcs, src, at))
    && (f.els.Some? ==> Inlinable(f.els.value, srcs, src, at))
  }

  function Commands(cs: seq<Command>, src: string, at: Place, t: Tables): (Syntax.Script, Tables)
    decreases cs
  {
    if cs == [] then (Syntax.Done, t)
    else
      var (c, t1) := One(cs[0], src, at, t);
      var (rest, t2) := Commands(cs[1..], src, at, t1);
      (Syntax.Then(c, rest), t2)
  }

  function One(c: Command, src: string, at: Place, t: Tables): (Syntax.Cmd, Tables)
    decreases c
  {
    var (f, t1) := FormOf(c.shape, c.srcs, src, at, Recorded(t, c, at));
    (Syntax.Cmd(|t.sites|, f), t1)
  }

  function InBody(b: Body, srcs: seq<Span>, src: string, at: Place, t: Tables): (Syntax.Script, Tables)
    decreases b
  {
    if b.value == "" || b.script.Unparsed? then (Syntax.Done, t)
    else Commands(b.script.cmds, src, BodyPlace(src, at, srcs, b.word), t)
  }

  /** A word whose place is not known. */
  function PlainWord(w: SrcWord): Syntax.Word
    decreases w
  {
    match w
    case Literal(lit) => Syntax.Text(lit)
    case VarRef(x) => Syntax.Var(x)
    case ExprSugar(lit) => Syntax.Sugar(lit)
    case CommandSub(lit, _) => Syntax.Eval(lit)
    case Concat(parts) => Syntax.Cat(PlainWords(parts))
  }

  function PlainWords(ws: seq<SrcWord>): Syntax.Words
    decreases ws
  {
    if ws == [] then Syntax.NoWords else Syntax.More(PlainWord(ws[0]), PlainWords(ws[1..]))
  }

  /** A word of a command: a bracket is compiled in place. */
  function Spanned(w: SrcWord, srcs: seq<Span>, src: string, at: Place, t: Tables): (Syntax.Word, Tables)
    decreases w
  {
    if InlinesSub(w, srcs, src, at) then
      var (s, t1) := Commands(w.sub.script.cmds, src, BracketPlace(at, srcs, w.sub.word), t);
      (Syntax.Bracket(s), t1)
    else (PlainWord(w), t)
  }

  function SpannedAll(ws: seq<SrcWord>, srcs: seq<Span>, src: string, at: Place, t: Tables): (Syntax.Words, Tables)
    decreases ws, 0
  {
    if ws == [] then (Syntax.NoWords, t)
    else
      var (w, t1) := Spanned(ws[0], srcs, src, at, t);
      var (rest, t2) := SpannedAll(ws[1..], srcs, src, at, t1);
      (Syntax.More(w, rest), t2)
  }

  /** The script of a token, if the token is a bracket compiled in place. */
  function OfLex(l: Lex, braced: bool, src: string, at: Place, t: Tables): (Syntax.Script, Tables)
    decreases l
  {
    if braced && l.Brackets? && l.script.Parsed?
        then Commands(l.script.cmds, src, Place(at.base + l.off, at.line, at.from), t)
    else (Syntax.Done, t)
  }

  /** The scripts of the first `n` tokens of an expression starting at `at`. */
  function Scanned(ls: seq<Lex>, braced: bool, n: nat, src: string, at: Place,
          t: Tables): (r: (seq<Syntax.Script>, Tables))
    requires n <= |ls|
    ensures |r.0| == n
    decreases ls, n
  {
    if n == 0 then ([], t)
    else
      var (ss, t1) := Scanned(ls, braced, n - 1, src, at, t);
      var (s, t2) := OfLex(ls[n - 1], braced, src, at, t1);
      (ss + [s], t2)
  }

  /** The expression of a tree; `ss` are the scripts of its brackets. */
  function ExprOfTree(t: Tree, ss: seq<Syntax.Script>): Syntax.Expr {
    match t
    case Leaf(lit) => Syntax.Leaf(lit)
    case Read(x) => Syntax.Read(x)
    case Inner(k) => Syntax.Inner(if k < |ss| then ss[k] else Syntax.Done)
    case Group(x) => ExprOfTree(x, ss)
    case Binary(op, l, r) => Syntax.Binary(op, ExprOfTree(l, ss), ExprOfTree(r, ss))
    case Unary(un, x) => Syntax.Unary(un, ExprOfTree(x, ss))
  }

  /** An expression that cannot be compiled is evaluated at run time; what it
      recorded is forgotten, except for foreach shapes. */
  function CondOf(k: Cond, srcs: seq<Span>, src: string, at: Place, t: Tables): (Syntax.Test, Tables)
    decreases k
  {
    match k
    case Dynamic(w) => var (x, t1) := Spanned(w, srcs, src, at, t); (Syntax.Late(x), t1)
    case Written(word, text, lit, lexed) =>
      var braced := Verbatim(src, at, srcs, word, '{', '}', text);
      var late := Syntax.Late(Syntax.Text(lit));
      if lexed.Refused? then (late, t)
      else
        var ls := lexed.ls;
        var ts := TokensOf(ls);
        if !Eligible(ts) then (late, t)
        else
          var p := Parse(ts, Compilable(ls, braced), 0, 0);
          var (ss, t1) := Scanned(ls, braced, p.next, src, BracketPlace(at, srcs, word), t);
          if p.Good? && p.next == |ls| then (Syntax.Inline(ExprOfTree(p.t, ss)), t1)
          else (late, t.(infos := t1.infos))
  }

  /** The branches of an `if` from the `i`th on. */
  function ArmsFrom(f: Shape, i: nat, srcs: seq<Span>, src: string, at: Place, t: Tables): (Syntax.Arms, Tables)
    requires f.IfOf? && i <= |f.more|
    decreases f, |f.more| - i
  {
    if i < |f.more| then
      var (test, t1) := CondOf(f.more[i].cond, srcs, src, at, t);
      var (b, t2) := InBody(f.more[i].body, srcs, src, at, t1);
      var (rest, t3) := ArmsFrom(f, i + 1, srcs, src, at, t2);
      (Syntax.Arm(test, b, rest), t3)
    else if f.els.Some? then
      var (b, t1) := InBody(f.els.value, srcs, src, at, t);
      (Syntax.Else(b), t1)
    else (Syntax.NoElse, t)
  }

  /** A command left to the interpreter. */
  function Dispatched(words: seq<SrcWord>, srcs: seq<Span>, src: string, at: Place, t: Tables): (Syntax.Form, Tables)
    decreases words, 1
  {
    var (ws, t1) := SpannedAll(words, srcs, src, at, t);
    (Syntax.Run(true, 0, ws), t1)
  }

  function FormOf(f: Shape, srcs: seq<Span>, src: string, at: Place, t: Tables): (Syntax.Form, Tables)
    decreases f
  {
    match f
    case SetTo(x, w) => var (v, t1) := Spanned(w, srcs, src, at, t); (Syntax.Set(x, v), t1)
    case SetGet(x) => (Syntax.Get(x), t)
    case IncrBy(x, k) => (Syntax.Bump(x, k), t)
    case LappendTo(x, w) => var (v, t1) := Spanned(w, srcs, src, at, t); (Syntax.Extend(x, v), t1)
    case ExprOf(k) => var (test, t1) := CondOf(k, srcs, src, at, t); (Syntax.Calc(test), t1)
    case IfOf(first, _, _, words) =>
      if !ArmsInlinable(f, srcs, src, at) then Dispatched(words, srcs, src, at, t) else
      var (test, t1) := CondOf(first.cond, srcs, src, at, t);
      var (b, t2) := InBody(first.body, srcs, src, at, t1);
      var (arms, t3) := ArmsFrom(f, 0, srcs, src, at, t2);
      (Syntax.If(test, b, arms), t3)
    case WhileOf(k, body, words) =>
      if !Inlinable(body, srcs, src, at) then Dispatched(words, srcs, src, at, t) else
      var (test, t1) := CondOf(k, srcs, src, at, t);
      var (b, t2) := InBody(body, srcs, src, at, t1);
      (Syntax.While(test, b), t2)
    case ForOf(start, k, next, body, words) =>
      if !Inlinable(start, srcs, src, at) || !Inlinable(next, srcs, src, at) || !Inlinable(body, srcs, src, at)
      then Dispatched(words, srcs, src, at, t) else
      var (s, t1) := InBody(start, srcs, src, at, t);
      var (test, t2) := CondOf(k, srcs, src, at, t1);
      var (b, t3) := InBody(body, srcs, src, at, t2);
      var (n, t4) := InBody(next, srcs, src, at, t3);
      (Syntax.For(s, test, n, b), t4)
    case ForeachOf(info, data, body, words) =>
      if !Inlinable(body, srcs, src, at) then Dispatched(words, srcs, src, at, t) else
      var (d, t1) := SpannedAll(data, srcs, src, at, t.(infos := t.infos + [info]));
      var (b, t2) := InBody(body, srcs, src, at, t1);
      (Syntax.Foreach(|t.infos|, info, d, b), t2)
    case BreakCmd => (Syntax.Leave, t)
    case ContinueCmd => (Syntax.Again, t)
    case ReturnOf(w) => (Syntax.Give(PlainWord(w)), t)
    case ExitOf(code) => (Syntax.Stop(code), t)
    case CallOf(dyn, id, words) =>
      var (ws, t1) := SpannedAll(words, srcs, src, at, t);
      (Syntax.Run(dyn, id, ws), t1)
  }
}
