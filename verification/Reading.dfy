/** From the text of an expression to its tree, and to the places of its
    brackets in the text. */
module Reading {
  import E = Exprs
  import O = Opcodes
  import opened Lexing
  import opened LexingFacts
  import Placement
  import Sources

  /** Names resolved and floats numbered; a bracket is known by its position. */
  function Meant(t: Token, k: nat, loc: string -> O.Loc, flt: string -> nat): E.Token {
    match t
    case Int(n) => E.Num(O.Int(n))
    case Float(text) => E.Num(O.Float(flt(text)))
    case Var(name) => E.Ref(loc(name))
    case Cmd(_, _) => E.Cmd(k)
    case Mark(m) => m
  }

  function AllMeant(ts: seq<Token>, loc: string -> O.Loc, flt: string -> nat): (es: seq<E.Token>)
    ensures |es| == |ts|
  {
    seq(|ts|, k requires 0 <= k < |ts| => Meant(ts[k], k, loc, flt))
  }

  /** However a tree is written out, its text is read as the tree. */
  lemma TextReadsBack(t: E.Tree, ok: nat -> bool, ts: seq<Token>, gaps: seq<string>, loc: string -> O.Loc,
          flt: string -> nat)
    requires E.Fits(t, 0) && E.AllOk(t, ok) && AllMeant(ts, loc, flt) == E.Tokens(t)
    requires AllWritable(ts) && Spaced(Texts(ts), gaps)
    ensures var r := Lex(Joined(Texts(ts), gaps, |ts|));
      r.Lexes? && E.Parse(AllMeant(r.ts, loc, flt), ok, 0, 0) == E.Good(t, |ts|)
  {
    hide Lex, E.Parse, E.Fits, E.AllOk, AllWritable, Joined;
    TokensReadBack(ts, gaps);
    var r := Lex(Joined(Texts(ts), gaps, |ts|));
    forall k | 0 <= k < |ts| ensures Meant(r.ts[k], k, loc, flt) == Meant(ts[k], k, loc, flt) {
      assert Alike(r.ts[k], ts[k]);
    }
    assert AllMeant(r.ts, loc, flt) == AllMeant(ts, loc, flt);
    E.ReadBack(t, ok);
  }

  /** A bracket token whose script is parsed sits in the bytes of the text. */
  lemma BracketSits(s: string, k: nat, cmds: seq<Sources.Command>)
    requires Lex(s).Lexes? && k < |Lex(s).ts| && Lex(s).ts[k].Cmd?
    requires Placement.CommandsSit(cmds, Bytes(Lex(s).ts[k].script))
    ensures var t := Lex(s).ts[k];
      Placement.LexSits(Sources.Brackets(t.off, |Bytes(t.script)|, Sources.Parsed(cmds)), Bytes(s))
  {
    hide Lex, Bytes, Placement.CommandsSit;
    BracketsInText(s, k);
  }
}
