/** What a script means, evaluated directly over its structure.  Loops take
    fuel: no result within any fuel is divergence. */
module Evaluate {
  import opened Options
  import opened Opcodes
  import opened Machine
  import opened Syntax

  /** How a command completes. */
  datatype Res =
    | Gives(v: Val)
    | Breaks(f: Fault) | Continues(f: Fault)  // for the loop around it
    | Halts(f: Fault)                          // for the unit as a whole

  datatype Vals = Many(vs: seq<Val>) | Fell(r: Res)

  type Got = Option<(World, Res)>

  function Signal(f: Fault): (r: Res)
    ensures !r.Gives?
  {
    match f
    case Brk(l) => if l > 1 then Halts(Brk(l - 1)) else Breaks(f)
    case Cnt(l) => if l > 1 then Halts(Cnt(l - 1)) else Continues(f)
    case _ => Halts(f)
  }

  function OfReply(r: Reply): Res { match r case Ok(v) => Gives(v) case Fault(f) => Signal(f) }

  function Ask(h: Host, w: World, q: Request): (World, Res) {
    var r := h.ask(w, q);
    (r.0, OfReply(r.1))
  }

  function Blank(h: Host): Val { h.lit(Empty) }

  function ScriptMeans(h: Host, s: Script, w: World, fuel: nat): Got
    decreases fuel, s, 1
  {
    if s.Done? then Some((w, Gives(Blank(h)))) else CmdsMean(h, s, w, fuel)
  }

  function CmdsMean(h: Host, s: Script, w: World, fuel: nat): Got
    decreases fuel, s, 0
  {
    if s.Done? then Some((w, Gives(Blank(h)))) else
    var r := CmdMeans(h, s.cmd, w, fuel);
    if s.rest.Done? || r.None? || !r.value.1.Gives? then r else CmdsMean(h, s.rest, r.value.0, fuel)
  }

  function CmdMeans(h: Host, c: Cmd, w: World, fuel: nat): Got
    decreases fuel, c, 1
  {
    var b := Ask(h, w, Begin(c.site));
    if !b.1.Gives? then Some(b) else FormMeans(h, c.form, b.0, fuel)
  }

  function WordMeans(h: Host, x: Word, w: World, fuel: nat): Got
    decreases fuel, x, 0
  {
    match x
    case Text(lit) => Some((w, Gives(LitVal(h, lit))))
    case Var(l) => Some(Ask(h, w, Request.Read(l)))
    case Eval(lit) => Some(Ask(h, w, RunScript(LitVal(h, lit))))
    case Sugar(lit) => Some(Ask(h, w, RunExpr(LitVal(h, lit))))
    case Cat(parts) =>
      (match WordsMean(h, parts, w, fuel)
       case None => None
       case Some(r) => Some((r.0, match r.1 case Many(vs) => Gives(h.concat(vs)) case Fell(f) => f)))
    case Bracket(s) => ScriptMeans(h, s, w, fuel)
  }

  function WordsMean(h: Host, ws: Words, w: World, fuel: nat): Option<(World, Vals)>
    decreases fuel, ws, 0
  {
    if ws.NoWords? then Some((w, Many([])))
    else match WordMeans(h, ws.w, w, fuel)
      case None => None
      case Some(a) =>
        if !a.1.Gives? then Some((a.0, Fell(a.1)))
        else match WordsMean(h, ws.rest, a.0, fuel)
          case None => None
          case Some(b) => Some((b.0, match b.1 case Many(vs) => Many([a.1.v] + vs) case Fell(f) => Fell(f)))
  }

  function ExprMeans(h: Host, e: Expr, w: World, fuel: nat): Got
    decreases fuel, e, 0
  {
    match e
    case Leaf(lit) => Some((w, Gives(LitVal(h, lit))))
    case Read(x) => Some(Ask(h, w, Request.Read(x)))
    case Inner(s) => ScriptMeans(h, s, w, fuel)
    case Binary(op, l, r) =>
      (match ExprMeans(h, l, w, fuel)
       case None => None
       case Some(a) =>
         if !a.1.Gives? then Some(a)
         else match ExprMeans(h, r, a.0, fuel)
           case None => None
           case Some(b) =>
             if !b.1.Gives? then Some(b) else Some((b.0, OfReply(BinVal(h, op, a.1.v, b.1.v)))))
    case Unary(un, x) =>
      match ExprMeans(h, x, w, fuel)
      case None => None
      case Some(a) => if !a.1.Gives? then Some(a) else Some((a.0, OfReply(UnVal(h, un, a.1.v))))
  }

  function TestMeans(h: Host, t: Test, w: World, fuel: nat): Got
    decreases fuel, t, 0
  {
    match t
    case Inline(e) => ExprMeans(h, e, w, fuel)
    case Late(x) =>
      match WordMeans(h, x, w, fuel)
      case None => None
      case Some(a) => if !a.1.Gives? then Some(a) else Some(Ask(h, a.0, RunExpr(a.1.v)))
  }

  datatype Choice = Chose(b: bool) | Neither(r: Res)

  function Choose(h: Host, r: Res): Choice {
    if !r.Gives? then Neither(r)
    else match Truth(h, r.v) case Says(b) => Chose(b) case Objects(f) => Neither(Signal(f))
  }

  function ArmsMean(h: Host, a: Arms, w: World, fuel: nat): Got
    decreases fuel, a, 0
  {
    match a
    case NoElse => Some((w, Gives(Blank(h))))
    case Else(body) => ScriptMeans(h, body, w, fuel)
    case Arm(t, body, rest) =>
      match TestMeans(h, t, w, fuel)
      case None => None
      case Some(r) =>
        match Choose(h, r.1)
        case Neither(x) => Some((r.0, x))
        case Chose(b) => if b then ScriptMeans(h, body, r.0, fuel) else ArmsMean(h, rest, r.0, fuel)
  }

  /** A loop's own share of a result: `None` goes on with the next pass. */
  function Caught(h: Host, r: Res): Option<Res> {
    match r
    case Breaks(_) => Some(Gives(Blank(h)))
    case Halts(_) => Some(r)
    case _ => None
  }

  /** One pass after another; a signal raised by the condition is the loop's. */
  function WhileMeans(h: Host, f: Form, w: World, fuel: nat): Got
    decreases fuel, f, 0
  {
    if fuel == 0 || !f.While? then None
    else match TestMeans(h, f.test, w, fuel)
      case None => None
      case Some(r) =>
        match Choose(h, r.1)
        case Neither(x) =>
          if Caught(h, x).Some? then Some((r.0, Caught(h, x).value)) else WhileMeans(h, f, r.0, fuel - 1)
        case Chose(b) =>
          if !b then Some((r.0, Gives(Blank(h))))
          else match ScriptMeans(h, f.body, r.0, fuel)
            case None => None
            case Some(q) =>
              if Caught(h, q.1).Some? then Some((q.0, Caught(h, q.1).value)) else WhileMeans(h, f, q.0, fuel - 1)
  }

  /** The next script, then on; its `continue` leaves the loop. */
  function NextMeans(h: Host, f: Form, w: World, fuel: nat): Got
    decreases fuel, f, 0
  {
    if fuel == 0 || !f.For? then None
    else match ScriptMeans(h, f.next, w, fuel)
      case None => None
      case Some(r) =>
        if r.1.Continues? then Some(r)
        else if Caught(h, r.1).Some? then Some((r.0, Caught(h, r.1).value))
        else ForMeans(h, f, r.0, fuel - 1)
  }

  function ForMeans(h: Host, f: Form, w: World, fuel: nat): Got
    decreases fuel, f, 1
  {
    if !f.For? then None
    else match TestMeans(h, f.test, w, fuel)
      case None => None
      case Some(r) =>
        match Choose(h, r.1)
        case Neither(x) =>
          if Caught(h, x).Some? then Some((r.0, Caught(h, x).value)) else NextMeans(h, f, r.0, fuel)
        case Chose(b) =>
          if !b then Some((r.0, Gives(Blank(h))))
          else match ScriptMeans(h, f.body, r.0, fuel)
            case None => None
            case Some(q) =>
              if Caught(h, q.1).Some? then Some((q.0, Caught(h, q.1).value)) else NextMeans(h, f, q.0, fuel)
  }

  function Gathered(h: Host, shape: ForeachInfo, acc: seq<Val>): Val {
    if shape.lmap then h.list(acc) else Blank(h)
  }

  /** The passes from `k` on; an lmap keeps what its finished passes gave. */
  function EachMeans(h: Host, f: Form, lists: seq<Val>, k: nat, acc: seq<Val>, w: World, fuel: nat): Got
    decreases fuel, f, 1, h.iters(InfoOf(f), lists) - k
  {
    if !f.Foreach? then None
    else if k >= h.iters(f.info, lists) then Some((w, Gives(Gathered(h, f.shape, acc))))
    else
      var b := Ask(h, w, Bind(f.info, lists, k));
      var got := if b.1.Gives? then ScriptMeans(h, f.body, b.0, fuel) else Some(b);
      match got
      case None => None
      case Some(r) =>
        match r.1
        case Breaks(_) => Some((r.0, Gives(Gathered(h, f.shape, acc))))
        case Halts(_) => Some(r)
        case Continues(_) => EachMeans(h, f, lists, k + 1, acc, r.0, fuel)
        case Gives(v) => EachMeans(h, f, lists, k + 1, acc + [v], r.0, fuel)
  }

  /** A word's value handed to one request. */
  function Feed(h: Host, r: Got, q: Val -> Request): Got {
    match r
    case None => None
    case Some(a) => if !a.1.Gives? then r else Some(Ask(h, a.0, q(a.1.v)))
  }

  function FormMeans(h: Host, f: Form, w: World, fuel: nat): Got
    decreases fuel, f, 2
  {
    match f
    case Set(x, y) =>
      (match WordMeans(h, y, w, fuel)
       case None => None
       case Some(a) =>
         if !a.1.Gives? then Some(a)
         else var r := Ask(h, a.0, Write(x, a.1.v)); Some(if r.1.Gives? then (r.0, a.1) else r))
    case Get(x) => Some(Ask(h, w, Request.Read(x)))
    case Bump(x, k) => Some(Ask(h, w, Request.Bump(x, k)))
    case Extend(x, y) => Feed(h, WordMeans(h, y, w, fuel), v => Request.Extend(x, v))
    case Calc(t) => TestMeans(h, t, w, fuel)
    case If(t, body, arms) =>
      (match TestMeans(h, t, w, fuel)
       case None => None
       case Some(r) =>
         match Choose(h, r.1)
         case Neither(x) => Some((r.0, x))
         case Chose(b) => if b then ScriptMeans(h, body, r.0, fuel) else ArmsMean(h, arms, r.0, fuel))
    case While(_, _) => WhileMeans(h, f, w, fuel)
    case For(start, _, _, _) =>
      (match ScriptMeans(h, start, w, fuel)
       case None => None
       case Some(r) => if !r.1.Gives? then Some(r) else ForMeans(h, f, r.0, fuel))
    case Foreach(info, _, data, _) =>
      (match WordsMean(h, data, w, fuel)
       case None => None
       case Some(r) =>
         match r.1
         case Fell(x) => Some((r.0, x))
         case Many(vs) =>
           var o := Ask(h, r.0, OpenLists(info, vs));
           if !o.1.Gives? then Some(o) else EachMeans(h, f, vs, 0, [], o.0, fuel))
    case Leave => Some((w, Breaks(Brk(1))))
    case Again => Some((w, Continues(Cnt(1))))
    case Give(y) =>
      (match WordMeans(h, y, w, fuel)
       case None => None
       case Some(a) => if !a.1.Gives? then Some(a) else Some((a.0, Halts(Ret(a.1.v)))))
    case Stop(code) => Some((w, Halts(Quit(code))))
    case Run(dyn, _, ws) =>
      match WordsMean(h, ws, w, fuel)
      case None => None
      case Some(r) =>
        match r.1
        case Fell(x) => Some((r.0, x))
        case Many(vs) => Some(Ask(h, r.0, Invoke(dyn, vs)))
  }
}
