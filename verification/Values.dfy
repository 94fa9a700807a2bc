/** Reference-counted values: what the counts, the recycled boxes, the cached
    strings and the copy on write of a value heap promise. */
module Values {
  import Dicts
  import ListText
  import opened Options

  // ── words ──

  const MAX62: int := 0x4000_0000_0000_0000
  const WORD: int := 0x1_0000_0000_0000_0000

  /** Integers a word holds without a box. */
  predicate InI63(n: int) { -MAX62 <= n < MAX62 }

  predicate InI64(n: int) { -2 * MAX62 <= n < 2 * MAX62 }

  /** The bits of an immediate, and the integer read back from bits: a shift
      left with the low bit set, and an arithmetic shift right. */
  function Tagged(n: int): (bits: int)
    ensures 0 <= bits < WORD && bits % 2 == 1
  {
    (2 * n + 1) % WORD
  }

  function Untagged(bits: int): int
    requires 0 <= bits < WORD
  {
    (if bits < WORD / 2 then bits else bits - WORD) / 2
  }

  /** Tagging loses nothing exactly on 63-bit integers. */
  lemma TagExact(n: int)
    requires InI64(n)
    ensures Untagged(Tagged(n)) == n <==> InI63(n)
  {
    var k := 2 * n + 1;
    if 0 <= n < MAX62 { assert k % WORD == k; }
    else if -MAX62 <= n < 0 { assert k % WORD == k + WORD by { ModDown(k); } }
  }

  lemma ModDown(k: int)
    requires -WORD <= k < 0
    ensures k % WORD == k + WORD
  {
  }

  // ── what a value means ──

  datatype Tree = Str(s: string) | Num(n: int) | Truth(b: bool) | Seq(items: seq<Tree>)
                | Map(keys: seq<string>, items: seq<Tree>) | Absent

  function Digits(n: nat): string {
    if n < 10 then [('0' as int + n) as char] else Digits(n / 10) + [('0' as int + n % 10) as char]
  }

  function FormatInt(n: int): string { if n < 0 then "-" + Digits(-n) else Digits(n) }

  /** The string a value is. */
  function TextOf(t: Tree): string {
    match t
    case Str(s) => s
    case Num(n) => FormatInt(n)
    case Truth(b) => if b then "1" else "0"
    case Seq(items) => ListText.Serialize(seq(|items|, i requires 0 <= i < |items| => TextOf(items[i])))
    case Map(keys, items) =>
      var texts := seq(|items|, i requires 0 <= i < |items| => TextOf(items[i]));
      if |keys| == |items| then ListText.Serialize(Dicts.Woven(keys, texts)) else ""
    case Absent => ""
  }

  lemma SeqText(t: Tree, texts: seq<string>)
    requires t.Seq? && |texts| == |t.items| && forall i | 0 <= i < |texts| :: texts[i] == TextOf(t.items[i])
    ensures TextOf(t) == ListText.Serialize(texts)
  {
    assert texts == seq(|t.items|, i requires 0 <= i < |t.items| => TextOf(t.items[i]));
  }

  lemma MapText(t: Tree, texts: seq<string>)
    requires t.Map? && |t.keys| == |texts| == |t.items| && forall i | 0 <= i < |texts| :: texts[i] == TextOf(t.items[i])
    ensures TextOf(t) == ListText.Serialize(Dicts.Woven(t.keys, texts))
  {
    assert texts == seq(|t.items|, i requires 0 <= i < |t.items| => TextOf(t.items[i]));
  }

  // ── dictionaries ──

  predicate IsMap(t: Tree) { t.Map? && |t.keys| == |t.items| && Dicts.Distinct(t.keys) }

  function WithEntry(t: Tree, key: string, v: Tree): Tree
    requires IsMap(t)
  {
    Map(Dicts.WithKey(t.keys, key), Dicts.WithItem(t.keys, t.items, key, v))
  }

  function WithoutEntry(t: Tree, key: string): Tree
    requires IsMap(t)
  {
    var i := Dicts.At(t.keys, key);
    Map(Dicts.Cut(t.keys, i), Dicts.Cut(t.items, i))
  }

  // ── boxes ──

  datatype Word = Unset | Imm(n: int) | Ptr(p: nat)

  datatype Rep = Plain | Int(n: int) | Flag(b: bool) | Items(items: seq<Word>)
               | Entries(keys: seq<string>, items: seq<Word>)

  datatype Box = Box(text: Option<string>, rep: Rep, rc: nat)

  datatype Slot = Live(box: Box) | Recycled | Gone

  /** Lists and dictionaries hold words. */
  predicate Holder(rep: Rep) { rep.Items? || rep.Entries? }

  /** One key for each item, no key twice. */
  predicate Keyed(rep: Rep) { rep.Entries? ==> |rep.keys| == |rep.items| && Dicts.Distinct(rep.keys) }

  function Kids(s: Slot): seq<Word> { if s.Live? && Holder(s.box.rep) then s.box.rep.items else [] }

  /** How often the first `n` boxes hold a word. */
  function Held(mem: seq<Slot>, n: nat, w: Word): nat
    requires n <= |mem|
  {
    if n == 0 then 0 else Held(mem, n - 1, w) + multiset(Kids(mem[n - 1]))[w]
  }

  /** How often boxes, handles and words in flight hold it. */
  function Refs(mem: seq<Slot>, roots: seq<Word>, pending: multiset<Word>, w: Word): nat {
    Held(mem, |mem|, w) + multiset(roots)[w] + pending[w]
  }

  function Rc(mem: seq<Slot>, p: nat): nat { if p < |mem| && mem[p].Live? then mem[p].box.rc else 0 }

  predicate IsLive(mem: seq<Slot>, p: nat) { p < |mem| && mem[p].Live? }

  function WordMeans(meaning: seq<Tree>, w: Word): Tree {
    match w
    case Unset => Absent
    case Imm(n) => Num(n)
    case Ptr(p) => if p < |meaning| then meaning[p] else Absent
  }

  function Means(meaning: seq<Tree>, ws: seq<Word>): seq<Tree> {
    seq(|ws|, i requires 0 <= i < |ws| => WordMeans(meaning, ws[i]))
  }

  function RepMeans(meaning: seq<Tree>, box: Box): Tree {
    match box.rep
    case Plain => Str(if box.text.Some? then box.text.value else "")
    case Int(n) => Num(n)
    case Flag(b) => Truth(b)
    case Items(ws) => Seq(Means(meaning, ws))
    case Entries(keys, ws) => Map(keys, Means(meaning, ws))
  }

  // ── the invariant, part by part ──

  const CAP: nat := 8192

  /** Recycled boxes are listed once each, and nothing else is. */
  ghost predicate FreeOk(mem: seq<Slot>, free: seq<nat>) {
    && |free| <= CAP
    && (forall i, j | 0 <= i < j < |free| :: free[i] != free[j])
    && (forall i | 0 <= i < |free| :: free[i] < |mem| && mem[free[i]] == Recycled)
    && (forall p | 0 <= p < |mem| && mem[p] == Recycled :: p in free)
  }

  /** A box's count is the number of words that hold it; words hold no dead box. */
  ghost predicate CountsOk(mem: seq<Slot>, roots: seq<Word>, pending: multiset<Word>) {
    && (forall p: nat :: Refs(mem, roots, pending, Ptr(p)) == Rc(mem, p))
    && (forall p: nat | IsLive(mem, p) :: mem[p].box.rc >= 1)
  }

  /** Every box means what its contents mean, and its cached string is the
      rendering of that. */
  ghost predicate MeaningOk(mem: seq<Slot>, meaning: seq<Tree>) {
    && |meaning| == |mem|
    && forall p: nat | IsLive(mem, p) :: BoxOk(mem[p].box, meaning, meaning[p])
  }

  predicate BoxOk(box: Box, meaning: seq<Tree>, t: Tree) {
    && t == RepMeans(meaning, box)
    && (box.text.Some? ==> box.text.value == TextOf(t))
    && (box.rep.Plain? ==> box.text.Some?)
    && Keyed(box.rep)
  }

  ghost predicate Sound(mem: seq<Slot>, free: seq<nat>, roots: seq<Word>, meaning: seq<Tree>, pending: multiset<Word>) {
    FreeOk(mem, free) && CountsOk(mem, roots, pending) && MeaningOk(mem, meaning)
  }

  // ── reference sums ──

  lemma {:induction false} HeldUpdate(mem: seq<Slot>, n: nat, q: nat, s: Slot, w: Word)
    requires n <= |mem| && q < |mem|
    ensures q >= n ==> Held(mem[q := s], n, w) == Held(mem, n, w)
    ensures q < n ==> Held(mem[q := s], n, w) + multiset(Kids(mem[q]))[w] == Held(mem, n, w) + multiset(Kids(s))[w]
  {
    if n > 0 { HeldUpdate(mem, n - 1, q, s, w); }
  }

  lemma {:induction false} HeldAppend(mem: seq<Slot>, s: Slot, n: nat, w: Word)
    requires n <= |mem|
    ensures Held(mem + [s], n, w) == Held(mem, n, w)
  {
    if n > 0 { HeldAppend(mem, s, n - 1, w); }
  }

  lemma {:induction false} HeldAt(mem: seq<Slot>, n: nat, q: nat, w: Word)
    requires q < n <= |mem|
    ensures Held(mem, n, w) >= multiset(Kids(mem[q]))[w]
  {
    if q < n - 1 { HeldAt(mem, n - 1, q, w); }
  }

  /** What a live box, a handle or a word in flight holds is live. */
  lemma HeldIsLive(mem: seq<Slot>, roots: seq<Word>, pending: multiset<Word>, q: nat, i: nat)
    requires CountsOk(mem, roots, pending) && q < |mem| && i < |Kids(mem[q])| && Kids(mem[q])[i].Ptr?
    ensures IsLive(mem, Kids(mem[q])[i].p)
  {
    var w := Kids(mem[q])[i];
    assert w in multiset(Kids(mem[q]));
    HeldAt(mem, |mem|, q, w);
    assert Refs(mem, roots, pending, Ptr(w.p)) == Rc(mem, w.p);
  }

  lemma RootIsLive(mem: seq<Slot>, roots: seq<Word>, pending: multiset<Word>, h: nat)
    requires CountsOk(mem, roots, pending) && h < |roots| && roots[h].Ptr?
    ensures IsLive(mem, roots[h].p)
  {
    assert roots[h] in multiset(roots);
    assert Refs(mem, roots, pending, Ptr(roots[h].p)) == Rc(mem, roots[h].p);
  }

  lemma PendingIsLive(mem: seq<Slot>, roots: seq<Word>, pending: multiset<Word>, w: Word)
    requires CountsOk(mem, roots, pending) && w in pending && w.Ptr?
    ensures IsLive(mem, w.p)
  {
    assert Refs(mem, roots, pending, Ptr(w.p)) == Rc(mem, w.p);
  }
}
