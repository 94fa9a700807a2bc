/** The value heap: handles over recycled, reference-counted boxes. */
module Heaps {
  import opened Options
  import Dicts
  import ListText
  import opened Values
  import opened ValueSteps

  function One(s: Slot): nat { if s.Live? then 1 else 0 }

  /** How many boxes are alive. */
  function LiveCount(mem: seq<Slot>, n: nat): nat
    requires n <= |mem|
  {
    if n == 0 then 0 else LiveCount(mem, n - 1) + One(mem[n - 1])
  }

  lemma {:induction false} LiveUpdate(mem: seq<Slot>, n: nat, p: nat, s: Slot)
    requires n <= |mem| && p < |mem|
    ensures p >= n ==> LiveCount(mem[p := s], n) == LiveCount(mem, n)
    ensures p < n ==> LiveCount(mem[p := s], n) == LiveCount(mem, n) + One(s) - One(mem[p])
  {
    if n > 0 { LiveUpdate(mem, n - 1, p, s); }
  }

  /** Nothing but counts went down and boxes went away. */
  ghost predicate Shrunk(was: seq<Slot>, mem: seq<Slot>) {
    && |mem| == |was|
    && LiveCount(mem, |mem|) <= LiveCount(was, |was|)
    && (forall p | 0 <= p < |mem| && mem[p].Live? :: was[p].Live? && mem[p].box == was[p].box.(rc := mem[p].box.rc))
    && (forall p | 0 <= p < |mem| && !was[p].Live? :: mem[p] == was[p])
  }

  /** A place that holds a value: a handle, an item of a list or of a dictionary. */
  datatype Cell = Root(h: nat) | Item(p: nat, k: nat)

  class Heap {
    var mem: seq<Slot>
    var free: seq<nat>
    var roots: seq<Word>
    ghost var meaning: seq<Tree>

    /** The invariant while the words of `pending` are in flight. */
    ghost predicate Holding(pending: multiset<Word>)
      reads this
    {
      Sound(mem, free, roots, meaning, pending)
    }

    ghost predicate Valid()
      reads this
    {
      Holding(multiset{})
    }

    /** The value behind a handle. */
    ghost function Value(h: nat): Tree
      reads this
      requires h < |roots|
    {
      WordMeans(meaning, roots[h])
    }

    constructor ()
      ensures Valid() && roots == []
    {
      mem, free, roots, meaning := [], [], [], [];
    }

    // ── moves with words in flight ──

    method Dec(p: nat, ghost pending: multiset<Word>)
      requires Holding(pending) && Ptr(p) in pending && IsLive(mem, p) && mem[p].box.rc > 1
      modifies this`mem
      ensures Holding(pending - multiset{Ptr(p)})
      ensures p < |old(mem)| && mem == old(mem)[p := Recounted(old(mem)[p], -1)]
    {
      Release(mem, free, roots, meaning, pending, p);
      mem := mem[p := Live(mem[p].box.(rc := mem[p].box.rc - 1))];
    }

    /** Give up a word: the last one frees the box, what it holds, and so on. */
    method DropWord(w: Word, ghost pending: multiset<Word>)
      requires w in pending && Holding(pending)
      modifies this`mem, this`free
      ensures Holding(pending - multiset{w})
      ensures Shrunk(old(mem), mem)
      decreases LiveCount(mem, |mem|), 1
    {
      hide Sound, LiveCount;
      if !w.Ptr? {
        Light(mem, free, roots, meaning, pending - multiset{w}, w);
        assert pending - multiset{w} + multiset{w} == pending;
        return;
      }
      var p := w.p;
      assert IsLive(mem, p) && mem[p].box.rc >= 1 by { LivePending(mem, free, roots, meaning, pending, w); }
      if mem[p].box.rc > 1 {
        LiveUpdate(mem, |mem|, p, Recounted(mem[p], -1));
        Dec(p, pending);
        return;
      }
      DropLast(p, pending);
    }

    method DropLast(p: nat, ghost pending: multiset<Word>)
      requires Ptr(p) in pending && Holding(pending) && IsLive(mem, p) && mem[p].box.rc == 1
      modifies this`mem, this`free
      ensures Holding(pending - multiset{Ptr(p)})
      ensures Shrunk(old(mem), mem) && !IsLive(mem, p)
      decreases LiveCount(mem, |mem|), 0
    {
      hide Sound, LiveCount;
      var items := Kids(mem[p]);
      ghost var rest := pending - multiset{Ptr(p)};
      Free(mem, free, roots, meaning, pending, p);
      LiveUpdate(mem, |mem|, p, Gone);
      mem := mem[p := Gone];
      DropAll(items, rest);
      if |free| < CAP {
        Recycle(mem, free, roots, meaning, rest, p);
        LiveUpdate(mem, |mem|, p, Recycled);
        free, mem := free + [p], mem[p := Recycled];
      }
    }

    method DropAll(ws: seq<Word>, ghost rest: multiset<Word>)
      requires Holding(rest + multiset(ws))
      modifies this`mem, this`free
      ensures Holding(rest) && Shrunk(old(mem), mem)
      decreases LiveCount(mem, |mem|), 2
    {
      hide Sound, LiveCount;
      var k := 0;
      assert ws[0..] == ws;
      while k < |ws|
        invariant 0 <= k <= |ws|
        invariant Holding(rest + multiset(ws[k..])) && Shrunk(old(mem), mem)
      {
        assert ws[k..] == [ws[k]] + ws[k + 1..];
        assert rest + multiset(ws[k..]) - multiset{ws[k]} == rest + multiset(ws[k + 1..]);
        ghost var before := mem;
        DropWord(ws[k], rest + multiset(ws[k..]));
        ShrunkTwice(old(mem), before, mem);
        k := k + 1;
      }
      assert rest + multiset(ws[k..]) == rest;
    }

    /** A box for `box`, from the recycled ones when there are any. */
    method NewBox(box: Box, ghost t: Tree, ghost pending: multiset<Word>) returns (p: nat)
      requires Holding(pending) && box.rc == 1 && multiset(Kids(Live(box))) <= pending && BoxOk(box, meaning, t)
      modifies this`mem, this`free, this`meaning
      ensures Holding(pending - multiset(Kids(Live(box))) + multiset{Ptr(p)})
      ensures !IsLive(old(mem), p) && Added(old(mem), old(meaning), mem, meaning, p) && mem[p] == Live(box)
          && meaning[p] == t
    {
      hide BoxOk, FreeOk, CountsOk, MeaningOk;
      SameSize(mem, meaning);
      if |free| > 0 {
        Unlist(mem, free, roots, meaning, pending);
        p := free[|free| - 1];
        assert mem[p] == Recycled by { ListedIsRecycled(mem, free); }
        free, mem := free[..|free| - 1], mem[p := Gone];
      } else {
        Grow(mem, free, roots, meaning, pending);
        p := |mem|;
        forall i | 0 <= i < |Kids(Live(box))| && Kids(Live(box))[i].Ptr? ensures Kids(Live(box))[i].p < |meaning| {
          assert Kids(Live(box))[i] in multiset(Kids(Live(box)));
          PendingIsLive(mem, roots, pending, Kids(Live(box))[i]);
        }
        BoxGrow(box, meaning, Absent, t);
        mem, meaning := mem + [Gone], meaning + [Absent];
      }
      Revive(mem, free, roots, meaning, pending, p, box, t);
      mem, meaning := mem[p := Live(box)], meaning[p := t];
    }

    // ── what a program does with values ──

    method Clone(h: nat) returns (g: nat)
      requires Valid() && h < |roots|
      modifies this`mem, this`roots
      ensures Valid() && g == |old(roots)| && roots == old(roots) + [old(roots)[h]]
      ensures Value(g) == Value(h)
      ensures forall k | 0 <= k < |old(roots)| :: Value(k) == old(Value(k))
    {
      hide Sound;
      var w := roots[h];
      if w.Ptr? {
        assert IsLive(mem, w.p) by { LiveRoot(mem, free, roots, meaning, multiset{}, h); }
        Retain(mem, free, roots, meaning, multiset{}, w.p);
        mem := mem[w.p := Live(mem[w.p].box.(rc := mem[w.p].box.rc + 1))];
      } else {
        Light(mem, free, roots, meaning, multiset{}, w);
      }
      assert multiset{} + multiset{w} == multiset{w};
      NewRoot(mem, free, roots, meaning, multiset{w}, w);
      assert multiset{w} - multiset{w} == multiset{};
      g := |roots|;
      roots := roots + [w];
    }

    method Drop(h: nat)
      requires Valid() && h < |roots|
      modifies this`mem, this`free, this`roots
      ensures Valid() && roots == old(roots)[h := Unset]
      ensures Shrunk(old(mem), mem)
      ensures forall k | 0 <= k < |roots| && k != h :: Value(k) == old(Value(k))
    {
      hide Sound, Shrunk;
      var w := roots[h];
      Take(h);
      DropWord(w, multiset{w});
      assert multiset{w} - multiset{w} == multiset{};
    }

    /** Move the word out of a handle. */
    method Take(h: nat)
      requires Valid() && h < |roots|
      modifies this`roots
      ensures Holding(multiset{old(roots)[h]}) && roots == old(roots)[h := Unset]
    {
      hide Sound;
      Light(mem, free, roots, meaning, multiset{}, Unset);
      assert multiset{} + multiset{Unset} == multiset{Unset};
      Swap(mem, free, roots, meaning, multiset{Unset}, h, Unset);
      assert multiset{Unset} - multiset{Unset} + multiset{roots[h]} == multiset{roots[h]};
      roots := roots[h := Unset];
    }

    method NewHandle(w: Word, ghost pending: multiset<Word>) returns (h: nat)
      requires Holding(pending) && w in pending
      modifies this`roots
      ensures Holding(pending - multiset{w}) && h == |old(roots)| && roots == old(roots) + [w]
    {
      hide Sound;
      NewRoot(mem, free, roots, meaning, pending, w);
      h := |roots|;
      roots := roots + [w];
    }

    method FromStr(s: string) returns (h: nat)
      requires Valid()
      modifies this
      ensures Valid() && h == |old(roots)| && |roots| == h + 1 && Value(h) == Str(s)
      ensures forall k | 0 <= k < h :: Value(k) == old(Value(k))
    {
      hide Sound;
      ghost var was, means, m0 := roots, meaning, mem;
      var p := NewBox(Box(Some(s), Plain, 1), Str(s), multiset{});
      assert multiset{} - multiset(Kids(Live(Box(Some(s), Plain, 1)))) + multiset{Ptr(p)} == multiset{Ptr(p)};
      StillHolds(m0, old(free), was, means, multiset{}, mem, meaning, p);
      h := NewHandle(Ptr(p), multiset{Ptr(p)});
      assert multiset{Ptr(p)} - multiset{Ptr(p)} == multiset{};
    }

    /** Small integers need no box. */
    method FromInt(n: int) returns (h: nat)
      requires Valid() && InI64(n)
      modifies this
      ensures Valid() && h == |old(roots)| && |roots| == h + 1 && Value(h) == Num(n)
      ensures InI63(n) ==> mem == old(mem) && roots[h] == Imm(n)
      ensures forall k | 0 <= k < h :: Value(k) == old(Value(k))
    {
      hide Sound;
      if InI63(n) {
        Light(mem, free, roots, meaning, multiset{}, Imm(n));
        assert multiset{} + multiset{Imm(n)} == multiset{Imm(n)};
        h := NewHandle(Imm(n), multiset{Imm(n)});
        assert multiset{Imm(n)} - multiset{Imm(n)} == multiset{};
      } else {
        ghost var was, means, m0 := roots, meaning, mem;
        var p := NewBox(Box(None, Int(n), 1), Num(n), multiset{});
        assert multiset{} - multiset(Kids(Live(Box(None, Int(n), 1)))) + multiset{Ptr(p)} == multiset{Ptr(p)};
        StillHolds(m0, old(free), was, means, multiset{}, mem, meaning, p);
        h := NewHandle(Ptr(p), multiset{Ptr(p)});
        assert multiset{Ptr(p)} - multiset{Ptr(p)} == multiset{};
      }
    }

    /** One more word like `w`. */
    method Hold(w: Word, ghost pending: multiset<Word>)
      requires Holding(pending) && (w.Ptr? ==> IsLive(mem, w.p))
      modifies this`mem
      ensures Holding(pending + multiset{w}) && Counted(old(mem), mem)
    {
      hide Sound;
      if w.Ptr? {
        Retain(mem, free, roots, meaning, pending, w.p);
        mem := mem[w.p := Live(mem[w.p].box.(rc := mem[w.p].box.rc + 1))];
      } else {
        Light(mem, free, roots, meaning, pending, w);
      }
    }

    method HoldAll(ws: seq<Word>, ghost pending: multiset<Word>)
      requires Holding(pending) && forall i | 0 <= i < |ws| && ws[i].Ptr? :: IsLive(mem, ws[i].p)
      modifies this`mem
      ensures Holding(pending + multiset(ws)) && Counted(old(mem), mem)
    {
      hide Sound;
      var k := 0;
      assert pending + multiset(ws[..0]) == pending;
      while k < |ws|
        invariant 0 <= k <= |ws|
        invariant Holding(pending + multiset(ws[..k])) && Counted(old(mem), mem)
      {
        assert ws[..k + 1] == ws[..k] + [ws[k]];
        assert pending + multiset(ws[..k]) + multiset{ws[k]} == pending + multiset(ws[..k + 1]);
        Hold(ws[k], pending + multiset(ws[..k]));
        k := k + 1;
      }
      assert ws[..k] == ws;
    }

    /** A list of what some handles hold; the handles keep their values. */
    method FromList(hs: seq<nat>) returns (h: nat)
      requires Valid() && forall i | 0 <= i < |hs| :: hs[i] < |roots|
      modifies this
      ensures Valid() && h == |old(roots)| && |roots| == h + 1
      ensures Value(h).Seq? && |Value(h).items| == |hs|
      ensures forall i | 0 <= i < |hs| :: Value(h).items[i] == old(Value(hs[i]))
      ensures forall k | 0 <= k < h :: Value(k) == old(Value(k))
    {
      hide Sound, TextOf;
      var ws: seq<Word> := [];
      assert multiset(ws) == multiset{};
      while |ws| < |hs|
        invariant |ws| <= |hs| && Holding(multiset(ws)) && Counted(old(mem), mem)
        invariant roots == old(roots) && meaning == old(meaning)
        invariant forall i | 0 <= i < |ws| :: ws[i] == roots[hs[i]]
        decreases |hs| - |ws|
      {
        var w := roots[hs[|ws|]];
        if w.Ptr? { LiveRoot(mem, free, roots, meaning, multiset(ws), hs[|ws|]); }
        Hold(w, multiset(ws));
        assert multiset(ws) + multiset{w} == multiset(ws + [w]);
        ws := ws + [w];
      }
      h := NewList(ws);
    }

    method NewList(ws: seq<Word>) returns (h: nat)
      requires Holding(multiset(ws))
      modifies this
      ensures Valid() && h == |old(roots)| && |roots| == h + 1
      ensures Value(h) == Seq(Means(old(meaning), ws))
      ensures forall k | 0 <= k < h :: Value(k) == old(Value(k))
    {
      hide Sound, TextOf;
      var box := Box(None, Items(ws), 1);
      ghost var was, means, m0, f0 := roots, meaning, mem, free;
      var p := NewBox(box, RepMeans(meaning, box), multiset(ws));
      assert multiset(ws) - multiset(Kids(Live(box))) + multiset{Ptr(p)} == multiset{Ptr(p)};
      StillHolds(m0, f0, was, means, multiset(ws), mem, meaning, p);
      h := NewHandle(Ptr(p), multiset{Ptr(p)});
      assert multiset{Ptr(p)} - multiset{Ptr(p)} == multiset{};
    }

    method NewDict() returns (h: nat)
      requires Valid()
      modifies this
      ensures Valid() && h == |old(roots)| && |roots| == h + 1 && Value(h) == Map([], [])
      ensures forall k | 0 <= k < h :: Value(k) == old(Value(k))
    {
      hide Sound;
      var box := Box(None, Entries([], []), 1);
      ghost var was, means, m0 := roots, meaning, mem;
      assert Means(meaning, []) == [];
      var p := NewBox(box, Map([], []), multiset{});
      assert multiset{} - multiset(Kids(Live(box))) + multiset{Ptr(p)} == multiset{Ptr(p)};
      StillHolds(m0, old(free), was, means, multiset{}, mem, meaning, p);
      h := NewHandle(Ptr(p), multiset{Ptr(p)});
      assert multiset{Ptr(p)} - multiset{Ptr(p)} == multiset{};
    }

    // ── changing a value through one handle ──

    /** The handle's own box, copied first when it is shared. */
    method MakeMut(h: nat) returns (p: nat)
      requires Valid() && h < |roots| && roots[h].Ptr?
      modifies this
      ensures Valid() && roots == old(roots)[h := Ptr(p)]
      ensures IsLive(mem, p) && mem[p].box.rc == 1 && mem[p].box.rep == RepAt(old(mem), old(roots[h].p))
      ensures forall k | 0 <= k < |roots| :: Value(k) == old(Value(k))
    {
      hide Sound, TextOf, BoxOk;
      p := roots[h].p;
      assert IsLive(mem, p) && mem[p].box.rc >= 1 by { LiveRoot(mem, free, roots, meaning, multiset{}, h); }
      if mem[p].box.rc == 1 { return; }
      var box := mem[p].box.(rc := 1);
      var kids := Kids(Live(box));
      KidsLive(mem, free, roots, meaning, p);
      assert kids == Kids(mem[p]);
      HoldAll(kids, multiset{});
      assert multiset{} + multiset(kids) == multiset(kids);
      assert BoxOk(box, meaning, meaning[p]) by { CopyOk(mem, free, roots, meaning, multiset(kids), p); }
      ghost var m0, f0, means := mem, free, meaning;
      var q := NewBox(box, meaning[p], multiset(kids));
      assert multiset(kids) - multiset(kids) + multiset{Ptr(q)} == multiset{Ptr(q)};
      StillHolds(m0, f0, roots, means, multiset(kids), mem, meaning, q);
      Swap(mem, free, roots, meaning, multiset{Ptr(q)}, h, Ptr(q));
      assert multiset{Ptr(q)} - multiset{Ptr(q)} + multiset{Ptr(p)} == multiset{Ptr(p)};
      roots := roots[h := Ptr(q)];
      Dec(p, multiset{Ptr(p)});
      assert multiset{Ptr(p)} - multiset{Ptr(p)} == multiset{};
      p := q;
    }

    /** Write a new payload into the box a handle is the only holder of. */
    method Put(h: nat, p: nat, rep: Rep, ghost pending: multiset<Word>)
      requires Holding(pending) && h < |roots| && roots[h] == Ptr(p) && IsLive(mem, p) && mem[p].box.rc == 1
      requires !rep.Plain? && Keyed(rep) && multiset(Kids(Live(Box(None, rep, 1)))) <= pending + multiset(Kids(mem[p]))
      modifies this`mem, this`meaning
      ensures Holding(pending + multiset(Kids(old(mem)[p])) - multiset(Kids(Live(Box(None, rep, 1)))))
      ensures Value(h) == RepMeans(old(meaning), Box(None, rep, 1))
      ensures mem == old(mem)[p := Live(Box(None, rep, 1))]
      ensures forall k | 0 <= k < |roots| && k != h :: Value(k) == old(Value(k))
    {
      hide Sound, TextOf, RepMeans;
      SoleRootOf(mem, free, roots, meaning, pending, h, p);
      OverwriteRoot(mem, free, roots, meaning, pending, h, p, rep);
      var box := Box(None, rep, 1);
      mem, meaning := mem[p := Live(box)], meaning[p := RepMeans(meaning, box)];
    }

    /** The same, giving up the words that the new payload leaves over. */
    method Rewrite(h: nat, p: nat, rep: Rep, gone: seq<Word>, ghost pending: multiset<Word>)
      requires Holding(pending) && h < |roots| && roots[h] == Ptr(p) && IsLive(mem, p) && mem[p].box.rc == 1
      requires !rep.Plain? && Keyed(rep)
      requires multiset(Kids(Live(Box(None, rep, 1)))) + multiset(gone) == pending + multiset(Kids(mem[p]))
      modifies this`mem, this`free, this`meaning
      ensures Valid() && Value(h) == RepMeans(old(meaning), Box(None, rep, 1))
      ensures forall k | 0 <= k < |roots| && k != h :: Value(k) == old(Value(k))
    {
      hide Sound, TextOf, RepMeans, Kids, Keyed;
      ghost var was, now := multiset(Kids(mem[p])), multiset(Kids(Live(Box(None, rep, 1))));
      assert now <= now + multiset(gone);
      Put(h, p, rep, pending);
      assert pending + was - now == multiset{} + multiset(gone);
      DropAll(gone, multiset{});
    }

    method SetInt(h: nat, n: int)
      requires Valid() && h < |roots| && roots[h] != Unset && InI64(n)
      modifies this
      ensures Valid() && |roots| == |old(roots)| && Value(h) == Num(n)
      ensures forall k | 0 <= k < |roots| && k != h :: Value(k) == old(Value(k))
    {
      hide Sound, TextOf;
      if roots[h].Ptr? {
        var p := MakeMut(h);
        var kids := Kids(mem[p]);
        assert multiset(Kids(Live(Box(None, Int(n), 1)))) + multiset(kids) == multiset{} + multiset(kids);
        Rewrite(h, p, Int(n), kids, multiset{});
      } else {
        var was := roots[h];
        if InI63(n) {
          Take(h);
          Light(mem, free, roots, meaning, multiset{}, was);
          assert multiset{} + multiset{was} == multiset{was};
          Light(mem, free, roots, meaning, multiset{}, Imm(n));
          assert multiset{} + multiset{Imm(n)} == multiset{Imm(n)};
          SetRoot(h, Imm(n), multiset{});
        } else {
          ghost var rs, means, m0, f0 := roots, meaning, mem, free;
          var p := NewBox(Box(None, Int(n), 1), Num(n), multiset{});
          assert multiset{} - multiset(Kids(Live(Box(None, Int(n), 1)))) + multiset{Ptr(p)} == multiset{Ptr(p)};
          StillHolds(m0, f0, rs, means, multiset{}, mem, meaning, p);
          Swap(mem, free, roots, meaning, multiset{Ptr(p)}, h, Ptr(p));
          assert multiset{Ptr(p)} - multiset{Ptr(p)} + multiset{was} == multiset{} + multiset{was};
          roots := roots[h := Ptr(p)];
          Light(mem, free, roots, meaning, multiset{}, was);
        }
      }
    }

    /** Fill an unset handle. */
    method SetRoot(h: nat, w: Word, ghost pending: multiset<Word>)
      requires h < |roots| && roots[h] == Unset && Holding(pending + multiset{w})
      modifies this`roots
      ensures Holding(pending) && roots == old(roots)[h := w]
    {
      hide Sound;
      Swap(mem, free, roots, meaning, pending + multiset{w}, h, w);
      assert pending + multiset{w} - multiset{w} + multiset{Unset} == pending + multiset{Unset};
      roots := roots[h := w];
      Light(mem, free, roots, meaning, pending, Unset);
    }

    /** Append what `v` holds to the list `h` holds; `v` gives its value away. */
    method Append(h: nat, v: nat) returns (ok: bool)
      requires Valid() && h < |roots| && v < |roots| && h != v
      modifies this
      ensures Valid() && |roots| == |old(roots)|
      ensures ok == (old(roots[h]).Ptr? && RepAt(old(mem), old(roots[h].p)).Items?)
      ensures ok ==> old(Value(h)).Seq? && Value(h) == Seq(old(Value(h)).items + [old(Value(v))]) && Value(v) == Absent
      ensures !ok ==> mem == old(mem) && roots == old(roots) && meaning == old(meaning)
      ensures forall k | 0 <= k < |roots| && k != h && k != v :: Value(k) == old(Value(k))
    {
      hide Sound, TextOf;
      if !roots[h].Ptr? { return false; }
      assert IsLive(mem, roots[h].p) by { LiveRoot(mem, free, roots, meaning, multiset{}, h); }
      if !mem[roots[h].p].box.rep.Items? { return false; }
      var p := MakeMut(h);
      var w, items := roots[v], mem[p].box.rep.items;
      ItemsMean(mem, free, roots, meaning, multiset{}, p);
      assert Means(meaning, items + [w]) == Means(meaning, items) + [Value(v)];
      assert multiset(items + [w]) + multiset([]) == multiset{w} + multiset(items);
      Take(v);
      Rewrite(h, p, Items(items + [w]), [], multiset{w});
      ok := true;
    }

    method StoreItem(h: nat, p: nat, i: nat, v: nat)
      requires Valid() && h < |roots| && v < |roots| && h != v
      requires roots[h] == Ptr(p) && IsLive(mem, p) && mem[p].box.rc == 1 && mem[p].box.rep.Items?
      requires i < |mem[p].box.rep.items|
      modifies this
      ensures Valid() && |roots| == |old(roots)| && Value(v) == Absent
      ensures old(Value(h)).Seq? && i < |old(Value(h)).items|
      ensures Value(h) == Seq(old(Value(h)).items[i := old(Value(v))])
      ensures forall k | 0 <= k < |roots| && k != h && k != v :: Value(k) == old(Value(k))
    {
      hide Sound, TextOf;
      var w, items := roots[v], mem[p].box.rep.items;
      ItemsMean(mem, free, roots, meaning, multiset{}, p);
      assert Means(meaning, items[i := w]) == Means(meaning, items)[i := Value(v)];
      assert multiset(items[i := w]) + multiset([items[i]]) == multiset{w} + multiset(items) by {
        assert items[i] in multiset(items);
      }
      Take(v);
      Rewrite(h, p, Items(items[i := w]), [items[i]], multiset{w});
    }

    /** Replace one item; the old one is given up. */
    method SetItem(h: nat, i: nat, v: nat) returns (ok: bool)
      requires Valid() && h < |roots| && v < |roots| && h != v
      modifies this
      ensures Valid() && |roots| == |old(roots)|
      ensures ok == (old(roots[h]).Ptr? && HasItem(RepAt(old(mem), old(roots[h].p)), i))
      ensures ok ==> old(Value(h)).Seq? && i < |old(Value(h)).items|
      ensures ok ==> Value(h) == Seq(old(Value(h)).items[i := old(Value(v))]) && Value(v) == Absent
      ensures !ok ==> mem == old(mem) && roots == old(roots) && meaning == old(meaning)
      ensures forall k | 0 <= k < |roots| && k != h && k != v :: Value(k) == old(Value(k))
    {
      hide Sound, TextOf, Means, WordMeans;
      if !roots[h].Ptr? { return false; }
      assert IsLive(mem, roots[h].p) by { LiveRoot(mem, free, roots, meaning, multiset{}, h); }
      if !HasItem(mem[roots[h].p].box.rep, i) { return false; }
      var p := MakeMut(h);
      StoreItem(h, p, i, v);
      ok := true;
    }

    method StoreEntry(h: nat, p: nat, key: string, v: nat)
      requires Valid() && h < |roots| && v < |roots| && h != v
      requires roots[h] == Ptr(p) && IsLive(mem, p) && mem[p].box.rc == 1 && mem[p].box.rep.Entries?
      modifies this
      ensures Valid() && |roots| == |old(roots)| && Value(v) == Absent
      ensures IsMap(old(Value(h))) && Value(h) == WithEntry(old(Value(h)), key, old(Value(v)))
      ensures forall k | 0 <= k < |roots| && k != h && k != v :: Value(k) == old(Value(k))
    {
      hide Sound, TextOf, Dicts.WithKey, Dicts.WithItem, Dicts.Distinct;
      var w, keys, items := roots[v], mem[p].box.rep.keys, mem[p].box.rep.items;
      EntriesMean(mem, free, roots, meaning, multiset{}, p);
      var i := Dicts.At(keys, key);
      var gone := if i < |keys| then [items[i]] else [];
      var rep := Entries(Dicts.WithKey(keys, key), Dicts.WithItem(keys, items, key, w));
      Dicts.GetWith(keys, items, key, w, key);
      EntryMeans(meaning, keys, items, key, w);
      EntryWords(keys, items, key, w);
      Take(v);
      Rewrite(h, p, rep, gone, multiset{w});
    }

    /** Write a key of the dictionary `h` holds; `v` gives its value away. */
    method Insert(h: nat, key: string, v: nat) returns (ok: bool)
      requires Valid() && h < |roots| && v < |roots| && h != v
      modifies this
      ensures Valid() && |roots| == |old(roots)|
      ensures ok == (old(roots[h]).Ptr? && RepAt(old(mem), old(roots[h].p)).Entries?)
      ensures ok ==>
          IsMap(old(Value(h))) && Value(h) == WithEntry(old(Value(h)), key, old(Value(v))) && Value(v) == Absent
      ensures !ok ==> mem == old(mem) && roots == old(roots) && meaning == old(meaning)
      ensures forall k | 0 <= k < |roots| && k != h && k != v :: Value(k) == old(Value(k))
    {
      hide Sound, TextOf, Means, WordMeans;
      if !roots[h].Ptr? { return false; }
      assert IsLive(mem, roots[h].p) by { LiveRoot(mem, free, roots, meaning, multiset{}, h); }
      if !mem[roots[h].p].box.rep.Entries? { return false; }
      var p := MakeMut(h);
      StoreEntry(h, p, key, v);
      ok := true;
    }

    /** Take a key out of the dictionary `h` holds. */
    method Remove(h: nat, key: string) returns (ok: bool)
      requires Valid() && h < |roots|
      modifies this
      ensures Valid() && |roots| == |old(roots)|
      ensures ok == (old(roots[h]).Ptr? && RepAt(old(mem), old(roots[h].p)).Entries?)
      ensures ok ==> IsMap(old(Value(h))) && Value(h) == WithoutEntry(old(Value(h)), key)
      ensures !ok ==> mem == old(mem) && roots == old(roots) && meaning == old(meaning)
      ensures forall k | 0 <= k < |roots| && k != h :: Value(k) == old(Value(k))
    {
      hide Sound, TextOf, Means, Dicts.Cut, Dicts.Distinct;
      if !roots[h].Ptr? { return false; }
      assert IsLive(mem, roots[h].p) by { LiveRoot(mem, free, roots, meaning, multiset{}, h); }
      if !mem[roots[h].p].box.rep.Entries? { return false; }
      var p := MakeMut(h);
      var keys, items := mem[p].box.rep.keys, mem[p].box.rep.items;
      EntriesMean(mem, free, roots, meaning, multiset{}, p);
      var i := Dicts.At(keys, key);
      var gone := if i < |items| then [items[i]] else [];
      var rep := Entries(Dicts.Cut(keys, i), Dicts.Cut(items, i));
      Dicts.GetCut(keys, items, key, key);
      CutMeans(meaning, items, i);
      assert multiset(rep.items) + multiset(gone) == multiset{} + multiset(items);
      Rewrite(h, p, rep, gone, multiset{});
      ok := true;
    }

    // ── the string of a value ──

    ghost predicate HasCell(c: Cell)
      reads this
    {
      match c
      case Root(h) => h < |roots|
      case Item(p, k) => IsLive(mem, p) && HasKid(mem[p].box.rep, k)
    }

    function CellWord(c: Cell): Word
      reads this
      requires HasCell(c)
    {
      match c case Root(h) => roots[h] case Item(p, k) => mem[p].box.rep.items[k]
    }

    ghost function CellMeans(c: Cell): Tree
      reads this
      requires HasCell(c)
    {
      WordMeans(meaning, CellWord(c))
    }

    /** The string of the value in a cell.  An immediate is moved to a box that
        remembers its string; the string of a list is remembered in its box,
        shared or not, after its items have theirs. */
    method AsStr(c: Cell) returns (s: string)
      requires Valid() && HasCell(c) && Present(CellMeans(c))
      modifies this
      ensures Valid() && s == TextOf(old(CellMeans(c)))
      ensures Extended(old(mem), old(meaning), mem, meaning) && |roots| == |old(roots)|
      ensures forall k | 0 <= k < |roots| :: Value(k) == old(Value(k))
      ensures c.Item? ==> roots == old(roots)
      ensures HasCell(c) && CellMeans(c) == old(CellMeans(c))
      ensures CellWord(c).Ptr? && Remembers(mem, CellWord(c).p, s)
      decreases CellMeans(c), 1
    {
      hide Sound, TextOf, Means;
      var w := CellWord(c);
      if w.Imm? {
        s := FormatInt(w.n);
        assert s == TextOf(Num(w.n)) by { IntText(w.n); }
        ToBox(c, w.n);
        return;
      }
      var p := w.p;
      assert IsLive(mem, p) by { LiveCell(mem, free, roots, meaning, c, w); }
      LiveText(mem, free, roots, meaning, p);
      if mem[p].box.text.Some? { return mem[p].box.text.value; }
      match mem[p].box.rep {
        case Int(n) => s := FormatInt(n); IntText(n);
        case Flag(b) => s := if b then "1" else "0"; FlagText(b);
        case Items(_) => s := ListStr(p);
        case Entries(_, _) => s := DictStr(p);
        case Plain => assert false;
      }
      StayRemembered(mem, free, roots, meaning, p);
      mem := mem[p := Live(mem[p].box.(text := Some(s)))];
    }

    /** An immediate moves to a box that remembers its string. */
    method ToBox(c: Cell, n: int)
      requires Valid() && HasCell(c) && CellWord(c) == Imm(n)
      modifies this
      ensures Valid() && HasCell(c)
      ensures Extended(old(mem), old(meaning), mem, meaning) && |roots| == |old(roots)|
      ensures forall k | 0 <= k < |roots| :: Value(k) == old(Value(k))
      ensures c.Item? ==> roots == old(roots)
      ensures CellMeans(c) == Num(n) && CellWord(c).Ptr? && Remembers(mem, CellWord(c).p, FormatInt(n))
    {
      hide Sound, TextOf, Means, FormatInt;
      IntText(n);
      ghost var was, means, m0, f0 := roots, meaning, mem, free;
      var p := NewBox(Box(Some(FormatInt(n)), Int(n), 1), Num(n), multiset{});
      assert multiset{} - multiset(Kids(mem[p])) + multiset{Ptr(p)} == multiset{Ptr(p)};
      StillHolds(m0, f0, was, means, multiset{}, mem, meaning, p);
      match c {
        case Root(h) =>
          Swap(mem, free, roots, meaning, multiset{Ptr(p)}, h, Ptr(p));
          roots := roots[h := Ptr(p)];
        case Item(q, k) =>
          Upgrade(mem, free, roots, meaning, multiset{Ptr(p)}, q, k, Ptr(p));
          mem := mem[q := Live(mem[q].box.(rep := mem[q].box.rep.(items := mem[q].box.rep.items[k := Ptr(p)])))];
      }
      assert multiset{Ptr(p)} - multiset{Ptr(p)} + multiset{Imm(n)} == multiset{} + multiset{Imm(n)};
      Light(mem, free, roots, meaning, multiset{}, Imm(n));
    }

    /** The string of a list, item by item. */
    method ListStr(p: nat) returns (s: string)
      requires Valid() && IsLive(mem, p) && mem[p].box.rep.Items? && Present(WordMeans(meaning, Ptr(p)))
      modifies this
      ensures Valid() && s == TextOf(old(WordMeans(meaning, Ptr(p))))
      ensures Extended(old(mem), old(meaning), mem, meaning) && roots == old(roots)
      ensures forall k | 0 <= k < |roots| :: Value(k) == old(Value(k))
      decreases WordMeans(meaning, Ptr(p)), 0
    {
      hide Sound, TextOf;
      ghost var t := WordMeans(meaning, Ptr(p));
      ItemsMean(mem, free, roots, meaning, multiset{}, p);
      var n := |mem[p].box.rep.items|;
      ExtendedSame(mem, free, roots, meaning);
      var texts: seq<string> := [];
      while |texts| < n
        invariant Valid() && |texts| <= n && roots == old(roots)
        invariant Extended(old(mem), old(meaning), mem, meaning)
        invariant forall k | 0 <= k < |roots| :: Value(k) == old(Value(k))
        invariant IsLive(mem, p) && mem[p].box.rep.Items? && |mem[p].box.rep.items| == n
        invariant t == Seq(Means(meaning, mem[p].box.rep.items))
        invariant forall i | 0 <= i < |texts| :: texts[i] == TextOf(t.items[i])
        decreases n - |texts|
      {
        var c := Item(p, |texts|);
        assert CellMeans(c) == t.items[|texts|];
        ghost var m0, means := mem, meaning;
        var x := AsStr(c);
        SeqRep(mem, free, roots, meaning, p, t);
        ExtendedTwice(old(mem), old(meaning), m0, means, mem, meaning);
        texts := texts + [x];
      }
      s := ListText.Serialize(texts);
      SeqText(t, texts);
    }

    /** The string of a dictionary, key and item in turn.  It is made from
        copies: a number without a box stays without one. */
    method DictStr(p: nat) returns (s: string)
      requires Valid() && IsLive(mem, p) && mem[p].box.rep.Entries? && Present(WordMeans(meaning, Ptr(p)))
      modifies this
      ensures Valid() && s == TextOf(old(WordMeans(meaning, Ptr(p))))
      ensures Extended(old(mem), old(meaning), mem, meaning) && roots == old(roots)
      ensures forall k | 0 <= k < |roots| :: Value(k) == old(Value(k))
      decreases WordMeans(meaning, Ptr(p)), 0
    {
      hide Sound, TextOf, Dicts.Woven, Dicts.Distinct;
      ghost var t := WordMeans(meaning, Ptr(p));
      EntriesMean(mem, free, roots, meaning, multiset{}, p);
      var keys := mem[p].box.rep.keys;
      ExtendedSame(mem, free, roots, meaning);
      var words, n := [], 0;
      ghost var texts: seq<string> := [];
      while n < |keys|
        invariant Valid() && n <= |keys| && roots == old(roots)
        invariant Extended(old(mem), old(meaning), mem, meaning)
        invariant forall k | 0 <= k < |roots| :: Value(k) == old(Value(k))
        invariant IsLive(mem, p) && mem[p].box.rep.Entries? && mem[p].box.rep.keys == keys
            && |mem[p].box.rep.items| == |keys|
        invariant t == Map(keys, Means(meaning, mem[p].box.rep.items))
        invariant |texts| == n && words == Dicts.Woven(keys[..n], texts)
        invariant forall i | 0 <= i < n :: texts[i] == TextOf(t.items[i])
        decreases |keys| - n
      {
        var c := Item(p, n);
        assert CellMeans(c) == t.items[n];
        var x;
        if CellWord(c).Imm? {
          x := FormatInt(CellWord(c).n);
          IntText(CellWord(c).n);
        } else {
          ghost var m0, means := mem, meaning;
          x := AsStr(c);
          MapRep(mem, free, roots, meaning, p, t);
          ExtendedTwice(old(mem), old(meaning), m0, means, mem, meaning);
        }
        Dicts.WovenMore(keys[..n], texts, keys[n], x);
        assert keys[..n] + [keys[n]] == keys[..n + 1];
        words, texts, n := words + [keys[n], x], texts + [x], n + 1;
      }
      s := ListText.Serialize(words);
      assert keys[..n] == keys;
      MapText(t, texts);
    }
  }

  lemma EntryMeans(meaning: seq<Tree>, keys: seq<string>, items: seq<Word>, key: string, w: Word)
    requires |keys| == |items|
    ensures |Means(meaning, items)| == |keys|
    ensures Means(meaning, Dicts.WithItem(keys, items, key, w))
        == Dicts.WithItem(keys, Means(meaning, items), key, WordMeans(meaning, w))
  {
  }

  lemma EntryWords(keys: seq<string>, items: seq<Word>, key: string, w: Word)
    requires |keys| == |items|
    ensures var i := Dicts.At(keys, key);
      multiset(Dicts.WithItem(keys, items, key, w)) + multiset(if i < |keys| then [items[i]] else [])
      == multiset{w} + multiset(items)
  {
    var i := Dicts.At(keys, key);
    if i < |keys| {
      assert multiset(items[i := w]) == multiset(items) - multiset{items[i]} + multiset{w};
      assert items[i] in multiset(items);
    } else {
      assert multiset(items + [w]) == multiset(items) + multiset{w};
    }
  }

  lemma CutMeans(meaning: seq<Tree>, items: seq<Word>, i: nat)
    ensures Means(meaning, Dicts.Cut(items, i)) == Dicts.Cut(Means(meaning, items), i)
    ensures multiset(Dicts.Cut(items, i)) + multiset(if i < |items| then [items[i]] else []) == multiset(items)
  {
    if i < |items| { assert items == items[..i] + [items[i]] + items[i + 1..]; }
  }

  lemma EntriesMean(mem: seq<Slot>, free: seq<nat>, roots: seq<Word>, meaning: seq<Tree>, pending: multiset<Word>,
          p: nat)
    requires Sound(mem, free, roots, meaning, pending) && IsLive(mem, p) && mem[p].box.rep.Entries?
    ensures |meaning| == |mem| && meaning[p] == Map(mem[p].box.rep.keys, Means(meaning, mem[p].box.rep.items))
    ensures Keyed(mem[p].box.rep) && IsMap(meaning[p])
  {
    hide TextOf;
    LiveMeans(mem, meaning, p);
  }

  lemma IntText(n: int)
    ensures TextOf(Num(n)) == FormatInt(n)
  {
  }

  lemma FlagText(b: bool)
    ensures TextOf(Truth(b)) == if b then "1" else "0"
  {
  }

  lemma SeqRep(mem: seq<Slot>, free: seq<nat>, roots: seq<Word>, meaning: seq<Tree>, p: nat, t: Tree)
    requires Sound(mem, free, roots, meaning, multiset{}) && IsLive(mem, p) && t.Seq? && WordMeans(meaning, Ptr(p)) == t
    ensures mem[p].box.rep.Items? && t == Seq(Means(meaning, mem[p].box.rep.items))
  {
    hide TextOf;
    LiveMeans(mem, meaning, p);
  }

  lemma MapRep(mem: seq<Slot>, free: seq<nat>, roots: seq<Word>, meaning: seq<Tree>, p: nat, t: Tree)
    requires Sound(mem, free, roots, meaning, multiset{}) && IsLive(mem, p) && t.Map? && WordMeans(meaning, Ptr(p)) == t
    ensures var rep := mem[p].box.rep;
      rep.Entries? && |rep.keys| == |rep.items| && t == Map(rep.keys, Means(meaning, rep.items))
  {
    hide TextOf;
    LiveMeans(mem, meaning, p);
  }

  lemma ExtendedSame(mem: seq<Slot>, free: seq<nat>, roots: seq<Word>, meaning: seq<Tree>)
    requires Sound(mem, free, roots, meaning, multiset{})
    ensures Extended(mem, meaning, mem, meaning)
  {
  }

  lemma ExtendedTwice(am: seq<Slot>, a: seq<Tree>, bm: seq<Slot>, b: seq<Tree>, cm: seq<Slot>, c: seq<Tree>)
    requires Extended(am, a, bm, b) && Extended(bm, b, cm, c)
    ensures Extended(am, a, cm, c)
  {
  }

  /** The word of a cell leads to a live box. */
  lemma LiveCell(mem: seq<Slot>, free: seq<nat>, roots: seq<Word>, meaning: seq<Tree>, c: Cell, w: Word)
    requires Sound(mem, free, roots, meaning, multiset{}) && w.Ptr?
    requires match c
             case Root(h) => h < |roots| && roots[h] == w
             case Item(p, k) => IsLive(mem, p) && HasKid(mem[p].box.rep, k) && mem[p].box.rep.items[k] == w
    ensures IsLive(mem, w.p)
  {
    match c
    case Root(h) => RootIsLive(mem, roots, multiset{}, h);
    case Item(p, k) =>
      assert Kids(mem[p])[k] == w;
      HeldIsLive(mem, roots, multiset{}, p, k);
  }

  lemma LiveText(mem: seq<Slot>, free: seq<nat>, roots: seq<Word>, meaning: seq<Tree>, p: nat)
    requires Sound(mem, free, roots, meaning, multiset{}) && IsLive(mem, p)
    ensures |meaning| == |mem| && meaning[p] == RepMeans(meaning, mem[p].box)
    ensures mem[p].box.text.Some? ==> mem[p].box.text.value == TextOf(meaning[p])
    ensures mem[p].box.rep.Plain? ==> mem[p].box.text.Some?
    ensures Extended(mem, meaning, mem, meaning)
  {
    hide TextOf;
    LiveMeans(mem, meaning, p);
  }

  lemma StayRemembered(mem: seq<Slot>, free: seq<nat>, roots: seq<Word>, meaning: seq<Tree>, p: nat)
    requires Sound(mem, free, roots, meaning, multiset{}) && IsLive(mem, p)
    ensures |meaning| == |mem|
    ensures Sound(mem[p := Live(mem[p].box.(text := Some(TextOf(meaning[p]))))], free, roots, meaning, multiset{})
  {
    hide TextOf, Sound;
    Remember(mem, free, roots, meaning, multiset{}, p);
  }

  /** Nothing unset inside. */
  predicate Present(t: Tree) {
    match t
    case Absent => false
    case Seq(items) => forall i | 0 <= i < |items| :: Present(items[i])
    case Map(_, items) => forall i | 0 <= i < |items| :: Present(items[i])
    case _ => true
  }

  /** Every box lives on, held as often, meaning the same. */
  ghost predicate Extended(wasMem: seq<Slot>, was: seq<Tree>, mem: seq<Slot>, meaning: seq<Tree>) {
    && |was| == |wasMem| && |meaning| == |mem| && |mem| >= |wasMem|
    && forall q | 0 <= q < |wasMem| && wasMem[q].Live? ::
         mem[q].Live? && meaning[q] == was[q] && mem[q].box.rc == wasMem[q].box.rc
         && SameItems(wasMem[q].box.rep, mem[q].box.rep)
  }

  /** At most immediates gave way to boxes. */
  predicate SameItems(was: Rep, rep: Rep) {
    if Holder(was) then
      Holder(rep) && rep == was.(items := rep.items) && |rep.items| == |was.items| && forall i | 0 <= i < |was.items|
          && was.items[i].Ptr? :: rep.items[i] == was.items[i]
    else rep == was
  }

  predicate Remembers(mem: seq<Slot>, p: nat, s: string) { IsLive(mem, p) && mem[p].box.text == Some(s) }


  predicate HasItem(rep: Rep, i: nat) { rep.Items? && i < |rep.items| }

  predicate HasKid(rep: Rep, i: nat) { Holder(rep) && i < |rep.items| }

  function RepAt(mem: seq<Slot>, p: nat): Rep { if IsLive(mem, p) then mem[p].box.rep else Plain }

  lemma KidsLive(mem: seq<Slot>, free: seq<nat>, roots: seq<Word>, meaning: seq<Tree>, p: nat)
    requires Sound(mem, free, roots, meaning, multiset{}) && IsLive(mem, p)
    ensures forall i | 0 <= i < |Kids(mem[p])| && Kids(mem[p])[i].Ptr? :: IsLive(mem, Kids(mem[p])[i].p)
    ensures |meaning| == |mem|
  {
    forall i | 0 <= i < |Kids(mem[p])| && Kids(mem[p])[i].Ptr? ensures IsLive(mem, Kids(mem[p])[i].p) {
      HeldIsLive(mem, roots, multiset{}, p, i);
    }
  }

  lemma CopyOk(mem: seq<Slot>, free: seq<nat>, roots: seq<Word>, meaning: seq<Tree>, pending: multiset<Word>, p: nat)
    requires Sound(mem, free, roots, meaning, pending) && IsLive(mem, p)
    ensures |meaning| == |mem| && BoxOk(mem[p].box.(rc := 1), meaning, meaning[p])
  {
    hide TextOf;
    LiveMeans(mem, meaning, p);
  }

  lemma SoleRootOf(mem: seq<Slot>, free: seq<nat>, roots: seq<Word>, meaning: seq<Tree>, pending: multiset<Word>,
          h: nat, p: nat)
    requires Sound(mem, free, roots, meaning, pending) && h < |roots| && roots[h] == Ptr(p) && Rc(mem, p) == 1
    ensures forall g | 0 <= g < |roots| && g != h :: roots[g] != Ptr(p)
    ensures |meaning| == |mem|
  {
    SoleRoot(mem, roots, pending, h, p);
  }

  lemma ItemsMean(mem: seq<Slot>, free: seq<nat>, roots: seq<Word>, meaning: seq<Tree>, pending: multiset<Word>, p: nat)
    requires Sound(mem, free, roots, meaning, pending) && IsLive(mem, p) && mem[p].box.rep.Items?
    ensures |meaning| == |mem| && meaning[p] == Seq(Means(meaning, mem[p].box.rep.items))
  {
    hide TextOf;
    LiveMeans(mem, meaning, p);
  }

  /** Only counts changed. */
  ghost predicate Counted(was: seq<Slot>, mem: seq<Slot>) {
    && |mem| == |was|
    && (forall p | 0 <= p < |mem| :: mem[p].Live? == was[p].Live? && (!was[p].Live? ==> mem[p] == was[p]))
    && (forall p | 0 <= p < |mem| && was[p].Live? :: mem[p].box == was[p].box.(rc := mem[p].box.rc))
    && (forall p | 0 <= p < |mem| && was[p].Live? :: mem[p].box.rc >= was[p].box.rc)
  }

  /** A place filled where nothing lived leaves every handle its value. */
  lemma StillHolds(wasMem: seq<Slot>, wasFree: seq<nat>, roots: seq<Word>, was: seq<Tree>, pending: multiset<Word>,
                   mem: seq<Slot>, meaning: seq<Tree>, p: nat)
    requires Sound(wasMem, wasFree, roots, was, pending) && Added(wasMem, was, mem, meaning, p) && !IsLive(wasMem, p)
    ensures forall k | 0 <= k < |roots| :: WordMeans(meaning, roots[k]) == WordMeans(was, roots[k])
  {
    hide FreeOk, MeaningOk;
    forall k | 0 <= k < |roots| ensures WordMeans(meaning, roots[k]) == WordMeans(was, roots[k]) {
      if roots[k].Ptr? { RootIsLive(wasMem, roots, pending, k); }
    }
  }

  lemma ListedIsRecycled(mem: seq<Slot>, free: seq<nat>)
    requires FreeOk(mem, free) && |free| > 0
    ensures free[|free| - 1] < |mem| && mem[free[|free| - 1]] == Recycled
  {
  }

  /** One place was filled; nothing else changed. */
  ghost predicate Added(wasMem: seq<Slot>, was: seq<Tree>, mem: seq<Slot>, meaning: seq<Tree>, p: nat) {
    && |was| == |wasMem| && |meaning| == |mem| && p < |mem|
    && |wasMem| <= |mem| <= |wasMem| + 1
    && (forall q | 0 <= q < |wasMem| && q != p :: mem[q] == wasMem[q] && meaning[q] == was[q])
    && (|mem| > |wasMem| ==> p == |wasMem|)
  }

  lemma LiveRoot(mem: seq<Slot>, free: seq<nat>, roots: seq<Word>, meaning: seq<Tree>, pending: multiset<Word>, h: nat)
    requires Sound(mem, free, roots, meaning, pending) && h < |roots| && roots[h].Ptr?
    ensures IsLive(mem, roots[h].p) && mem[roots[h].p].box.rc >= 1
  {
    RootIsLive(mem, roots, pending, h);
  }

  lemma ShrunkTwice(a: seq<Slot>, b: seq<Slot>, c: seq<Slot>)
    requires Shrunk(a, b) && Shrunk(b, c)
    ensures Shrunk(a, c)
  {
    hide LiveCount;
  }

  lemma LivePending(mem: seq<Slot>, free: seq<nat>, roots: seq<Word>, meaning: seq<Tree>, pending: multiset<Word>,
          w: Word)
    requires Sound(mem, free, roots, meaning, pending) && w in pending && w.Ptr?
    ensures IsLive(mem, w.p) && mem[w.p].box.rc >= 1
  {
    PendingIsLive(mem, roots, pending, w);
  }
}
