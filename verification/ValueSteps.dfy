/** The moves a value heap is made of, each keeping counts, free list and
    meanings in order.  A word in flight belongs to nobody yet. */
module ValueSteps {
  import opened Options
  import opened Values

  function Recounted(s: Slot, d: int): Slot
    requires s.Live? && s.box.rc + d >= 0
  {
    Live(s.box.(rc := s.box.rc + d))
  }

  lemma CountOne(mem: seq<Slot>, roots: seq<Word>, pending: multiset<Word>, p: nat)
    requires CountsOk(mem, roots, pending)
    ensures Refs(mem, roots, pending, Ptr(p)) == Rc(mem, p)
  {
  }

  // ── changing one place ──

  function RcOf(s: Slot): nat { if s.Live? then s.box.rc else 0 }

  lemma CountsUpdate(mem: seq<Slot>, roots: seq<Word>, pending: multiset<Word>, p: nat, s: Slot,
          pending': multiset<Word>)
    requires CountsOk(mem, roots, pending) && p < |mem| && (s.Live? ==> s.box.rc >= 1)
    requires forall q: nat ::
      pending'[Ptr(q)] + multiset(Kids(s))[Ptr(q)] + (if q == p then RcOf(mem[p]) else 0)
      == pending[Ptr(q)] + multiset(Kids(mem[p]))[Ptr(q)] + (if q == p then RcOf(s) else 0)
    ensures CountsOk(mem[p := s], roots, pending')
  {
    hide Kids;
    forall q: nat ensures Refs(mem[p := s], roots, pending', Ptr(q)) == Rc(mem[p := s], q) {
      CountOne(mem, roots, pending, q);
      HeldUpdate(mem, |mem|, p, s, Ptr(q));
    }
  }

  lemma FreeUpdate(mem: seq<Slot>, free: seq<nat>, p: nat, s: Slot)
    requires FreeOk(mem, free) && p < |mem| && mem[p] != Recycled && s != Recycled
    ensures FreeOk(mem[p := s], free)
  {
  }

  lemma MeaningUpdate(mem: seq<Slot>, meaning: seq<Tree>, p: nat, s: Slot)
    requires MeaningOk(mem, meaning) && p < |mem| && (s.Live? ==> BoxOk(s.box, meaning, meaning[p]))
    ensures MeaningOk(mem[p := s], meaning)
  {
    hide BoxOk;
  }

  /** One more word for a live box. */
  lemma Retain(mem: seq<Slot>, free: seq<nat>, roots: seq<Word>, meaning: seq<Tree>, pending: multiset<Word>, p: nat)
    requires Sound(mem, free, roots, meaning, pending) && IsLive(mem, p)
    ensures Sound(mem[p := Recounted(mem[p], 1)], free, roots, meaning, pending + multiset{Ptr(p)})
  {
    hide TextOf, FreeOk, CountsOk, MeaningOk;
    var s := Recounted(mem[p], 1);
    CountsUpdate(mem, roots, pending, p, s, pending + multiset{Ptr(p)});
    FreeUpdate(mem, free, p, s);
    LiveMeans(mem, meaning, p);
    MeaningUpdate(mem, meaning, p, s);
  }

  lemma LiveMeans(mem: seq<Slot>, meaning: seq<Tree>, p: nat)
    requires MeaningOk(mem, meaning) && IsLive(mem, p)
    ensures |meaning| == |mem| && BoxOk(mem[p].box, meaning, meaning[p])
  {
  }

  /** One word less for a box others hold too. */
  lemma Release(mem: seq<Slot>, free: seq<nat>, roots: seq<Word>, meaning: seq<Tree>, pending: multiset<Word>, p: nat)
    requires Sound(mem, free, roots, meaning, pending) && Ptr(p) in pending && IsLive(mem, p) && mem[p].box.rc > 1
    ensures Sound(mem[p := Recounted(mem[p], -1)], free, roots, meaning, pending - multiset{Ptr(p)})
  {
    hide TextOf, FreeOk, CountsOk, MeaningOk;
    var s := Recounted(mem[p], -1);
    CountsUpdate(mem, roots, pending, p, s, pending - multiset{Ptr(p)});
    FreeUpdate(mem, free, p, s);
    LiveMeans(mem, meaning, p);
    MeaningUpdate(mem, meaning, p, s);
  }

  /** The last word: the payload's own words are in flight now. */
  lemma Free(mem: seq<Slot>, free: seq<nat>, roots: seq<Word>, meaning: seq<Tree>, pending: multiset<Word>, p: nat)
    requires Sound(mem, free, roots, meaning, pending) && Ptr(p) in pending && IsLive(mem, p) && mem[p].box.rc == 1
    ensures Sound(mem[p := Gone], free, roots, meaning, pending - multiset{Ptr(p)} + multiset(Kids(mem[p])))
  {
    hide FreeOk, CountsOk, MeaningOk;
    CountsUpdate(mem, roots, pending, p, Gone, pending - multiset{Ptr(p)} + multiset(Kids(mem[p])));
    FreeUpdate(mem, free, p, Gone);
    LiveMeans(mem, meaning, p);
    MeaningUpdate(mem, meaning, p, Gone);
  }

  lemma Recycle(mem: seq<Slot>, free: seq<nat>, roots: seq<Word>, meaning: seq<Tree>, pending: multiset<Word>, p: nat)
    requires Sound(mem, free, roots, meaning, pending) && p < |mem| && mem[p] == Gone && |free| < CAP
    ensures Sound(mem[p := Recycled], free + [p], roots, meaning, pending)
  {
    hide CountsOk, MeaningOk;
    CountsUpdate(mem, roots, pending, p, Recycled, pending);
    MeaningUpdate(mem, meaning, p, Recycled);
    var mem', free' := mem[p := Recycled], free + [p];
    forall q | 0 <= q < |mem'| && mem'[q] == Recycled ensures q in free' {
      if q != p { assert q in free; } else { assert free'[|free|] == p; }
    }
  }

  /** Taking the last recycled place off the list. */
  lemma Unlist(mem: seq<Slot>, free: seq<nat>, roots: seq<Word>, meaning: seq<Tree>, pending: multiset<Word>)
    requires Sound(mem, free, roots, meaning, pending) && |free| > 0
    ensures var p := free[|free| - 1];
            p < |mem| && Sound(mem[p := Gone], free[..|free| - 1], roots, meaning, pending)
  {
    hide CountsOk, MeaningOk;
    var p, free' := free[|free| - 1], free[..|free| - 1];
    CountsUpdate(mem, roots, pending, p, Gone, pending);
    MeaningUpdate(mem, meaning, p, Gone);
    forall q | 0 <= q < |mem| && mem[p := Gone][q] == Recycled ensures q in free' {
      assert q in free;
      var i :| 0 <= i < |free| && free[i] == q;
      assert free'[i] == q;
    }
  }

  // ── a new meaning where no word leads ──

  lemma BoxFrame(box: Box, meaning: seq<Tree>, p: nat, t: Tree, m: Tree)
    requires p < |meaning| && BoxOk(box, meaning, m)
    requires forall i | 0 <= i < |Kids(Live(box))| :: Kids(Live(box))[i] != Ptr(p)
    ensures BoxOk(box, meaning[p := t], m)
  {
    hide TextOf;
    if Holder(box.rep) {
      assert Kids(Live(box)) == box.rep.items;
      assert Means(meaning[p := t], box.rep.items) == Means(meaning, box.rep.items);
    }
  }

  /** No box holds a word for a dead place. */
  lemma DeadUnheld(mem: seq<Slot>, roots: seq<Word>, pending: multiset<Word>, p: nat, q: nat, i: nat)
    requires CountsOk(mem, roots, pending) && !IsLive(mem, p) && q < |mem| && i < |Kids(mem[q])|
    ensures Kids(mem[q])[i] != Ptr(p)
  {
    CountOne(mem, roots, pending, p);
    HeldAt(mem, |mem|, q, Ptr(p));
    assert Kids(mem[q])[i] in multiset(Kids(mem[q]));
  }

  /** Meanings survive a new box in a place no word leads to. */
  lemma AllMean(mem: seq<Slot>, roots: seq<Word>, meaning: seq<Tree>, pending: multiset<Word>, p: nat, box: Box,
          t: Tree)
    requires CountsOk(mem, roots, pending) && MeaningOk(mem, meaning) && p < |mem| && !mem[p].Live?
    requires multiset(Kids(Live(box))) <= pending && BoxOk(box, meaning, t)
    ensures MeaningOk(mem[p := Live(box)], meaning[p := t])
  {
    hide TextOf, RepMeans, BoxOk, Means, CountsOk, Kids;
    var kids := Kids(Live(box));
    forall i | 0 <= i < |kids| ensures kids[i] != Ptr(p) {
      assert kids[i] in multiset(kids);
      if kids[i].Ptr? { PendingIsLive(mem, roots, pending, kids[i]); }
    }
    BoxFrame(box, meaning, p, t, t);
    forall q: nat | IsLive(mem, q) && q != p ensures BoxOk(mem[q].box, meaning[p := t], meaning[q]) {
      forall i | 0 <= i < |Kids(mem[q])| ensures Kids(mem[q])[i] != Ptr(p) { DeadUnheld(mem, roots, pending, p, q, i); }
      assert mem[q] == Live(mem[q].box);
      BoxFrame(mem[q].box, meaning, p, t, meaning[q]);
    }
  }

  /** A fresh allocation: a place nobody knows. */
  lemma Grow(mem: seq<Slot>, free: seq<nat>, roots: seq<Word>, meaning: seq<Tree>, pending: multiset<Word>)
    requires Sound(mem, free, roots, meaning, pending)
    ensures Sound(mem + [Gone], free, roots, meaning + [Absent], pending)
  {
    hide TextOf;
    var mem', meaning' := mem + [Gone], meaning + [Absent];
    forall q: nat ensures Refs(mem', roots, pending, Ptr(q)) == Rc(mem', q) {
      CountOne(mem, roots, pending, q);
      HeldAppend(mem, Gone, |mem|, Ptr(q));
    }
    forall q: nat | IsLive(mem', q) ensures BoxOk(mem'[q].box, meaning', meaning'[q]) {
      forall i | 0 <= i < |Kids(mem[q])| ensures WordMeans(meaning', Kids(mem[q])[i])
          == WordMeans(meaning, Kids(mem[q])[i]) {
        if Kids(mem[q])[i].Ptr? { HeldIsLive(mem, roots, pending, q, i); }
      }
      if Holder(mem[q].box.rep) { assert Means(meaning', mem[q].box.rep.items) == Means(meaning, mem[q].box.rep.items);
          }
    }
  }

  /** A box comes to life in a place freed or fresh. */
  lemma Revive(mem: seq<Slot>, free: seq<nat>, roots: seq<Word>, meaning: seq<Tree>, pending: multiset<Word>, p: nat,
          box: Box, t: Tree)
    requires Sound(mem, free, roots, meaning, pending) && p < |mem| && mem[p] == Gone && box.rc == 1
    requires multiset(Kids(Live(box))) <= pending && BoxOk(box, meaning, t)
    ensures |meaning| == |mem|
    ensures Sound(mem[p := Live(box)], free, roots, meaning[p := t],
        pending - multiset(Kids(Live(box))) + multiset{Ptr(p)})
  {
    hide TextOf, Means, RepMeans, CountsOk, BoxOk, FreeOk, MeaningOk;
    CountsUpdate(mem, roots, pending, p, Live(box), pending - multiset(Kids(Live(box))) + multiset{Ptr(p)});
    FreeUpdate(mem, free, p, Live(box));
    AllMean(mem, roots, meaning, pending, p, box, t);
    assert |meaning| == |mem| by { SameSize(mem, meaning); }
  }

  lemma SameSize(mem: seq<Slot>, meaning: seq<Tree>)
    requires MeaningOk(mem, meaning)
    ensures |meaning| == |mem|
  {
  }

  /** A handle's word and a word in flight change places. */
  lemma Swap(mem: seq<Slot>, free: seq<nat>, roots: seq<Word>, meaning: seq<Tree>, pending: multiset<Word>, h: nat,
          w: Word)
    requires Sound(mem, free, roots, meaning, pending) && h < |roots| && w in pending
    ensures Sound(mem, free, roots[h := w], meaning, pending - multiset{w} + multiset{roots[h]})
  {
    hide MeaningOk, FreeOk;
    var pending' := pending - multiset{w} + multiset{roots[h]};
    forall q: nat ensures Refs(mem, roots[h := w], pending', Ptr(q)) == Rc(mem, q) {
      CountOne(mem, roots, pending, q);
    }
  }

  /** Words without a box come and go freely. */
  lemma Light(mem: seq<Slot>, free: seq<nat>, roots: seq<Word>, meaning: seq<Tree>, pending: multiset<Word>, w: Word)
    requires !w.Ptr?
    ensures Sound(mem, free, roots, meaning, pending) <==> Sound(mem, free, roots, meaning, pending + multiset{w})
  {
    hide MeaningOk, FreeOk;
    forall q: nat ensures Refs(mem, roots, pending, Ptr(q)) == Refs(mem, roots, pending + multiset{w}, Ptr(q)) {
    }
  }

  /** A new handle takes a word in flight. */
  lemma NewRoot(mem: seq<Slot>, free: seq<nat>, roots: seq<Word>, meaning: seq<Tree>, pending: multiset<Word>, w: Word)
    requires Sound(mem, free, roots, meaning, pending) && w in pending
    ensures Sound(mem, free, roots + [w], meaning, pending - multiset{w})
  {
    hide MeaningOk, FreeOk;
    forall q: nat ensures Refs(mem, roots + [w], pending - multiset{w}, Ptr(q)) == Rc(mem, q) {
      CountOne(mem, roots, pending, q);
    }
  }

  /** The string is remembered. */
  lemma Remember(mem: seq<Slot>, free: seq<nat>, roots: seq<Word>, meaning: seq<Tree>, pending: multiset<Word>, p: nat)
    requires Sound(mem, free, roots, meaning, pending) && IsLive(mem, p)
    ensures |meaning| == |mem|
    ensures Sound(mem[p := Live(mem[p].box.(text := Some(TextOf(meaning[p]))))], free, roots, meaning, pending)
  {
    hide TextOf, CountsOk, FreeOk, MeaningOk;
    LiveMeans(mem, meaning, p);
    assert mem[p].box.rc >= 1 by { LiveCounts(mem, roots, pending, p); }
    var s := Live(mem[p].box.(text := Some(TextOf(meaning[p]))));
    if mem[p].box.rep.Plain? { PlainText(mem[p].box, meaning, meaning[p]); }
    CountsUpdate(mem, roots, pending, p, s, pending);
    FreeUpdate(mem, free, p, s);
    MeaningUpdate(mem, meaning, p, s);
  }

  lemma PlainText(box: Box, meaning: seq<Tree>, t: Tree)
    requires BoxOk(box, meaning, t) && box.rep.Plain?
    ensures box.text == Some(TextOf(t))
  {
  }

  lemma LiveCounts(mem: seq<Slot>, roots: seq<Word>, pending: multiset<Word>, p: nat)
    requires CountsOk(mem, roots, pending) && IsLive(mem, p)
    ensures mem[p].box.rc >= 1
  {
  }

  /** The payload of a box is replaced while its only word is in flight: the
      new words come from the old ones and from others in flight. */
  lemma Overwrite(mem: seq<Slot>, free: seq<nat>, roots: seq<Word>, meaning: seq<Tree>, pending: multiset<Word>,
          p: nat, rep: Rep)
    requires Sound(mem, free, roots, meaning, pending) && Ptr(p) in pending && Rc(mem, p) == 1 && !rep.Plain?
        && Keyed(rep)
    requires multiset(Kids(Live(Box(None, rep, 1)))) <= pending - multiset{Ptr(p)} + multiset(Kids(mem[p]))
    ensures |meaning| == |mem|
    ensures var box := Box(None, rep, 1);
      Sound(mem[p := Live(box)], free, roots, meaning[p := RepMeans(meaning, box)],
            pending - multiset{Ptr(p)} + multiset(Kids(mem[p])) - multiset(Kids(Live(box))) + multiset{Ptr(p)})
  {
    hide TextOf, Means, RepMeans;
    var box := Box(None, rep, 1);
    Free(mem, free, roots, meaning, pending, p);
    var pending' := pending - multiset{Ptr(p)} + multiset(Kids(mem[p]));
    Revive(mem[p := Gone], free, roots, meaning, pending', p, box, RepMeans(meaning, box));
    assert mem[p := Gone][p := Live(box)] == mem[p := Live(box)];
  }

  lemma Twice(ws: seq<Word>, g: nat, h: nat)
    requires g < |ws| && h < |ws| && g != h && ws[g] == ws[h]
    ensures multiset(ws)[ws[h]] >= 2
  {
    var i, j := if g < h then g else h, if g < h then h else g;
    assert ws == ws[..i] + [ws[i]] + ws[i + 1..j] + [ws[j]] + ws[j + 1..];
  }

  /** Nothing else leads to a box a handle holds with count 1. */
  lemma SoleRoot(mem: seq<Slot>, roots: seq<Word>, pending: multiset<Word>, h: nat, p: nat)
    requires CountsOk(mem, roots, pending) && h < |roots| && roots[h] == Ptr(p) && Rc(mem, p) == 1
    ensures forall g | 0 <= g < |roots| && g != h :: roots[g] != Ptr(p)
    ensures forall w | w in pending :: w != Ptr(p)
  {
    CountOne(mem, roots, pending, p);
    assert roots[h] in multiset(roots);
    forall g | 0 <= g < |roots| && g != h ensures roots[g] != Ptr(p) {
      if roots[g] == Ptr(p) { Twice(roots, g, h); }
    }
  }

  /** The same through a handle that is the box's only holder. */
  lemma OverwriteRoot(mem: seq<Slot>, free: seq<nat>, roots: seq<Word>, meaning: seq<Tree>, pending: multiset<Word>,
          h: nat, p: nat, rep: Rep)
    requires Sound(mem, free, roots, meaning, pending) && h < |roots| && roots[h] == Ptr(p) && Rc(mem, p) == 1
        && !rep.Plain? && Keyed(rep)
    requires multiset(Kids(Live(Box(None, rep, 1)))) <= pending + multiset(Kids(mem[p]))
    ensures |meaning| == |mem|
    ensures var box := Box(None, rep, 1);
      Sound(mem[p := Live(box)], free, roots, meaning[p := RepMeans(meaning, box)],
            pending + multiset(Kids(mem[p])) - multiset(Kids(Live(box))))
  {
    hide TextOf, Means, RepMeans, Sound, Kids;
    var box := Box(None, rep, 1);
    var p1 := pending + multiset{Unset};
    Light(mem, free, roots, meaning, pending, Unset);
    Swap(mem, free, roots, meaning, p1, h, Unset);
    var p2 := p1 - multiset{Unset} + multiset{Ptr(p)};
    assert p2 == pending + multiset{Ptr(p)};
    assert p2 - multiset{Ptr(p)} == pending;
    var out := roots[h := Unset];
    Overwrite(mem, free, out, meaning, p2, p, rep);
    var mem', meaning' := mem[p := Live(box)], meaning[p := RepMeans(meaning, box)];
    var p3 := pending + multiset(Kids(mem[p])) - multiset(Kids(Live(box)));
    assert p2 - multiset{Ptr(p)} + multiset(Kids(mem[p])) - multiset(Kids(Live(box))) + multiset{Ptr(p)}
        == p3 + multiset{Ptr(p)};
    Swap(mem', free, out, meaning', p3 + multiset{Ptr(p)}, h, Ptr(p));
    assert out[h := Ptr(p)] == roots;
    assert p3 + multiset{Ptr(p)} - multiset{Ptr(p)} + multiset{Unset} == p3 + multiset{Unset};
    Light(mem', free, roots, meaning', p3, Unset);
  }

  /** More places do not change what a box means. */
  lemma BoxGrow(box: Box, meaning: seq<Tree>, x: Tree, t: Tree)
    requires BoxOk(box, meaning, t)
    requires forall i | 0 <= i < |Kids(Live(box))| && Kids(Live(box))[i].Ptr? :: Kids(Live(box))[i].p < |meaning|
    ensures BoxOk(box, meaning + [x], t)
  {
    hide TextOf;
    if Holder(box.rep) {
      assert Kids(Live(box)) == box.rep.items;
      assert Means(meaning + [x], box.rep.items) == Means(meaning, box.rep.items);
    }
  }

  /** An item gives way to another word for the same value. */
  lemma Upgrade(mem: seq<Slot>, free: seq<nat>, roots: seq<Word>, meaning: seq<Tree>, pending: multiset<Word>, p: nat,
          k: nat, w: Word)
    requires Sound(mem, free, roots, meaning, pending) && w in pending
    requires IsLive(mem, p) && Holder(mem[p].box.rep) && k < |mem[p].box.rep.items|
    requires WordMeans(meaning, w) == WordMeans(meaning, mem[p].box.rep.items[k])
    ensures var was := mem[p].box.rep.items;
      Sound(mem[p := Live(mem[p].box.(rep := mem[p].box.rep.(items := was[k := w])))], free, roots, meaning,
            pending - multiset{w} + multiset{was[k]})
  {
    hide TextOf, CountsOk, FreeOk, MeaningOk;
    var items := mem[p].box.rep.items;
    var s := Live(mem[p].box.(rep := mem[p].box.rep.(items := items[k := w])));
    LiveCounts(mem, roots, pending, p);
    CountsUpdate(mem, roots, pending, p, s, pending - multiset{w} + multiset{items[k]});
    FreeUpdate(mem, free, p, s);
    LiveMeans(mem, meaning, p);
    assert Means(meaning, items[k := w]) == Means(meaning, items);
    MeaningUpdate(mem, meaning, p, s);
  }
}
