/** Parsed source: commands with the spans their parser promises.  A word that
    may be compiled as a script carries what parsing its text gives. */
module Sources {
  import opened Options
  import opened Opcodes
  import opened Machine
  import opened Exprs

  /** Byte positions in a source text. */
  datatype Span = Span(start: nat, end: nat)

  /** `own` is the command as written; `srcs` are the spans of its words. */
  datatype Command = Command(text: Span, line: nat, own: string, srcs: seq<Span>, shape: Shape)

  /** What parsing a text gives. */
  datatype Script = Unparsed | Parsed(cmds: seq<Command>)

  /** A script in the word with index `word`: its text, and its commands. */
  datatype Body = Body(word: nat, value: string, script: Script)

  datatype SrcWord =
    | Literal(lit: Lit) | VarRef(x: Loc) | ExprSugar(lit: Lit)
    | CommandSub(lit: Lit, sub: Body)
    | Concat(parts: seq<SrcWord>)

  type Plain = t: Token | !t.Cmd? witness Open

  /** A token, or a bracketed script at `off` in the expression, `size` long. */
  datatype Lex = Tok(t: Plain) | Brackets(off: nat, size: nat, script: Script)

  /** What tokenizing an expression gives. */
  datatype Lexed = Refused | Lexes(ls: seq<Lex>)

  /** A condition word: a literal with its text and tokens, or another word. */
  datatype Cond = Written(word: nat, text: string, lit: Lit, lexed: Lexed) | Dynamic(w: SrcWord)

  datatype Branch = Branch(cond: Cond, body: Body)

  /** What the compiler recognises a command as.  A command with bodies keeps
      its `words`: it is dispatched when a body cannot be compiled in place. */
  datatype Shape =
    | SetTo(x: Loc, w: SrcWord) | SetGet(x: Loc) | IncrBy(x: Loc, k: int) | LappendTo(x: Loc, w: SrcWord)
    | ExprOf(cond: Cond)
    | IfOf(first: Branch, more: seq<Branch>, els: Option<Body>, words: seq<SrcWord>)
    | WhileOf(cond: Cond, body: Body, words: seq<SrcWord>)
    | ForOf(start: Body, cond: Cond, next: Body, body: Body, words: seq<SrcWord>)
    | ForeachOf(info: ForeachInfo, data: seq<SrcWord>, body: Body, words: seq<SrcWord>)
    | BreakCmd | ContinueCmd | ReturnOf(w: SrcWord) | ExitOf(code: int)
    | CallOf(dyn: bool, id: nat, words: seq<SrcWord>)

  /** The tokens of an expression; a bracket is known by its position. */
  function TokensOf(ls: seq<Lex>): (ts: seq<Token>)
    ensures |ts| == |ls|
  {
    seq(|ls|, k requires 0 <= k < |ls| => if ls[k].Tok? then ls[k].t else Cmd(k))
  }

  /** A single operand, and a numeric literal beside a string comparison, are
      left to the runtime evaluator. */
  predicate Eligible(ts: seq<Token>) {
    && |ts| > 1
    && ((exists k :: 0 <= k < |ts| && Numeric(ts[k])) ==> forall k :: 0 <= k < |ts| ==> !Textual(ts[k]))
  }

  predicate Numeric(t: Token) { t.Num? && (t.lit.Int? || t.lit.Float?) }

  predicate Textual(t: Token) { t == Sym(StrEq) || t == Sym(StrNe) }

  /** Which brackets can be compiled in place. */
  function Compilable(ls: seq<Lex>, braced: bool): nat -> bool {
    (k: nat) => braced && k < |ls| && ls[k].Brackets? && ls[k].script.Parsed?
  }
}
