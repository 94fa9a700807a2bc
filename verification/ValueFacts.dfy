/** What the heap's invariant says about every heap that has it: values are
    trees, nothing unreachable is alive, and meanings are not a choice. */
module ValueFacts {
  import opened Options
  import opened Values
  import opened ValueSteps
  import Dicts
  import ListText
  import ListRoundTrip
  import Numerals
  import Utf8

  function Sizes(ts: seq<Tree>, n: nat): (s: nat)
    requires n <= |ts|
    decreases ts, n
  {
    if n == 0 then 0 else Sizes(ts, n - 1) + Size(ts[n - 1])
  }

  function Size(t: Tree): (s: nat)
    ensures s > 0
    decreases t
  {
    match t case Seq(items) => 1 + Sizes(items, |items|) case Map(_, items) => 1 + Sizes(items, |items|) case _ => 1
  }

  lemma {:induction false} SizesAt(ts: seq<Tree>, n: nat, i: nat)
    requires i < n <= |ts|
    ensures Size(ts[i]) <= Sizes(ts, n)
  {
    if i < n - 1 { SizesAt(ts, n - 1, i); }
  }

  predicate Holds(mem: seq<Slot>, q: nat, p: nat) { q < |mem| && Ptr(p) in Kids(mem[q]) }

  /** A list or dictionary is bigger than what it holds, so no value is inside itself. */
  lemma HeldIsSmaller(mem: seq<Slot>, meaning: seq<Tree>, q: nat, p: nat)
    requires MeaningOk(mem, meaning) && Holds(mem, q, p) && IsLive(mem, p)
    ensures IsLive(mem, q) && Size(meaning[p]) < Size(meaning[q])
  {
    hide TextOf;
    LiveMeans(mem, meaning, q);
    var items := mem[q].box.rep.items;
    var i :| 0 <= i < |items| && items[i] == Ptr(p);
    assert Means(meaning, items)[i] == meaning[p];
    SizesAt(Means(meaning, items), |items|, i);
  }

  /** A chain of lists from box `q` down to box `p`. */
  ghost predicate Inside(mem: seq<Slot>, q: nat, p: nat, n: nat)
    decreases n
  {
    if n == 0 then q == p else exists m: nat :: IsLive(mem, m) && Holds(mem, q, m) && Inside(mem, m, p, n - 1)
  }

  lemma {:induction false} NoCycle(mem: seq<Slot>, meaning: seq<Tree>, q: nat, p: nat, n: nat)
    requires MeaningOk(mem, meaning) && IsLive(mem, q) && Inside(mem, q, p, n)
    ensures IsLive(mem, p) && |meaning| == |mem|
    ensures Size(meaning[p]) <= Size(meaning[q]) && (n > 0 ==> q != p)
    decreases n
  {
    hide MeaningOk;
    assert |meaning| == |mem| by { SameSize(mem, meaning); }
    if n > 0 {
      var m: nat :| IsLive(mem, m) && Holds(mem, q, m) && Inside(mem, m, p, n - 1);
      HeldIsSmaller(mem, meaning, q, m);
      NoCycle(mem, meaning, m, p, n - 1);
    }
  }

  // ── nothing leaks ──

  /** A handle leads to the box, through `n` lists. */
  ghost predicate Reached(mem: seq<Slot>, roots: seq<Word>, p: nat, n: nat)
    decreases n
  {
    if n == 0 then Ptr(p) in roots
    else exists q: nat :: IsLive(mem, q) && Holds(mem, q, p) && Reached(mem, roots, q, n - 1)
  }

  lemma {:induction false} HeldSomewhere(mem: seq<Slot>, n: nat, p: nat) returns (q: nat)
    requires n <= |mem| && Held(mem, n, Ptr(p)) > 0
    ensures q < n && Holds(mem, q, p)
  {
    if multiset(Kids(mem[n - 1]))[Ptr(p)] > 0 {
      assert Ptr(p) in multiset(Kids(mem[n - 1]));
      q := n - 1;
    } else {
      q := HeldSomewhere(mem, n - 1, p);
    }
  }

  function Largest(meaning: seq<Tree>, n: nat): (m: nat)
    requires n <= |meaning|
    ensures forall i | 0 <= i < n :: Size(meaning[i]) <= m
  {
    if n == 0 then 0
    else var m := Largest(meaning, n - 1); if Size(meaning[n - 1]) > m then Size(meaning[n - 1]) else m
  }

  /** Every box alive is reached from some handle. */
  lemma {:induction false} NoLeak(mem: seq<Slot>, free: seq<nat>, roots: seq<Word>, meaning: seq<Tree>, p: nat)
    returns (n: nat)
    requires Sound(mem, free, roots, meaning, multiset{}) && IsLive(mem, p)
    ensures Reached(mem, roots, p, n)
    decreases Largest(meaning, |meaning|) - (if p < |meaning| then Size(meaning[p]) else 0)
  {
    hide TextOf, FreeOk, MeaningOk, BoxOk;
    SameSize(mem, meaning);
    CountOne(mem, roots, multiset{}, p);
    LiveCounts(mem, roots, multiset{}, p);
    if Ptr(p) in roots {
      n := 0;
    } else {
      assert multiset(roots)[Ptr(p)] == 0;
      var q := HeldSomewhere(mem, |mem|, p);
      HeldIsSmaller(mem, meaning, q, p);
      assert Size(meaning[q]) <= Largest(meaning, |meaning|);
      var m := NoLeak(mem, free, roots, meaning, q);
      n := m + 1;
    }
  }

  lemma {:induction false} NothingReached(mem: seq<Slot>, roots: seq<Word>, p: nat, n: nat)
    requires forall h | 0 <= h < |roots| :: !roots[h].Ptr?
    ensures !Reached(mem, roots, p, n)
    decreases n
  {
    if n > 0 {
      forall q: nat | IsLive(mem, q) ensures !Reached(mem, roots, q, n - 1) { NothingReached(mem, roots, q, n - 1); }
    }
  }

  /** Once no handle holds a box, every box has been released. */
  lemma AllReleased(mem: seq<Slot>, free: seq<nat>, roots: seq<Word>, meaning: seq<Tree>, p: nat)
    requires Sound(mem, free, roots, meaning, multiset{})
    requires forall h | 0 <= h < |roots| :: !roots[h].Ptr?
    ensures !IsLive(mem, p)
  {
    hide Sound;
    if IsLive(mem, p) {
      var n := NoLeak(mem, free, roots, meaning, p);
      NothingReached(mem, roots, p, n);
    }
  }

  /** The memory alone decides what its boxes mean. */
  lemma {:induction false} MeaningUnique(mem: seq<Slot>, free: seq<nat>, roots: seq<Word>, a: seq<Tree>, b: seq<Tree>,
          p: nat)
    requires Sound(mem, free, roots, a, multiset{}) && Sound(mem, free, roots, b, multiset{}) && IsLive(mem, p)
    ensures p < |a| && p < |b| && a[p] == b[p]
    decreases if p < |a| then Size(a[p]) else 0
  {
    hide TextOf, FreeOk, CountsOk;
    LiveMeans(mem, a, p);
    LiveMeans(mem, b, p);
    var box := mem[p].box;
    if Holder(box.rep) {
      var items := box.rep.items;
      forall i | 0 <= i < |items| ensures WordMeans(a, items[i]) == WordMeans(b, items[i]) {
        if items[i].Ptr? {
          assert Kids(mem[p])[i] == items[i];
          HeldIsLive(mem, roots, multiset{}, p, i);
          HeldIsSmaller(mem, a, p, items[i].p);
          MeaningUnique(mem, free, roots, a, b, items[i].p);
        }
      }
      assert Means(a, items) == Means(b, items);
    }
  }

  // ── strings of lists ──

  function Texts(items: seq<Tree>): seq<string> { seq(|items|, i requires 0 <= i < |items| => TextOf(items[i])) }

  /** The string of a list value parses into the strings of its items. */
  lemma ListTextParses(t: Tree)
    requires t.Seq? && forall i | 0 <= i < |t.items| :: Utf8.Valid(TextOf(t.items[i]))
    ensures Utf8.Valid(TextOf(t)) && ListText.Parse(TextOf(t)) == ListText.Ok(Texts(t.items))
  {
    assert TextOf(t) == ListText.Serialize(Texts(t.items)) by {
      assert Texts(t.items) == seq(|t.items|, i requires 0 <= i < |t.items| => TextOf(t.items[i]));
    }
    ListRoundTrip.RoundTrip(Texts(t.items));
  }

  /** A dictionary reads at a key what was written there last. */
  lemma EntriesKept(t: Tree, key: string, v: Tree, k: string)
    requires IsMap(t)
    ensures var u := WithEntry(t, key, v);
      IsMap(u) && Dicts.Get(u.keys, u.items, k) == if k == key then Some(v) else Dicts.Get(t.keys, t.items, k)
    ensures var u := WithoutEntry(t, key);
      IsMap(u) && Dicts.Get(u.keys, u.items, k) == if k == key then None else Dicts.Get(t.keys, t.items, k)
    ensures WithoutEntry(t, key) == t <==> key !in t.keys
    ensures key !in t.keys ==> WithoutEntry(WithEntry(t, key, v), key) == t
  {
    hide Dicts.Get, Dicts.Distinct;
    Dicts.GetWith(t.keys, t.items, key, v, k);
    Dicts.GetCut(t.keys, t.items, key, k);
    if key !in t.keys { Dicts.NewAt(t.keys, key); }
  }

  /** The string of a dictionary parses into its keys and its items' strings in
      turn, and reading that list as a dictionary gives it back, in order. */
  lemma DictTextParses(t: Tree)
    requires IsMap(t)
    requires forall i | 0 <= i < |t.keys| :: Utf8.Valid(t.keys[i]) && Utf8.Valid(TextOf(t.items[i]))
    ensures Utf8.Valid(TextOf(t))
    ensures var ws := Dicts.Woven(t.keys, Texts(t.items));
      ListText.Parse(TextOf(t)) == ListText.Ok(ws) && Dicts.Gather(ws, |t.keys|) == Dicts.Pairs(t.keys, Texts(t.items))
  {
    hide TextOf, Utf8.Valid, Dicts.Distinct;
    var texts := Texts(t.items);
    var ws := Dicts.Woven(t.keys, texts);
    MapText(t, texts);
    forall i | 0 <= i < |ws| ensures Utf8.Valid(ws[i]) { Dicts.WovenAt(t.keys, texts, i / 2); }
    ListRoundTrip.RoundTrip(ws);
    Dicts.GatherWoven(t.keys, texts, |t.keys|);
    assert t.keys[..|t.keys|] == t.keys && texts[..|t.keys|] == texts;
  }

  /** The string of an integer: a sign where it is negative, then a numeral of its
      size without leading zeros. */
  lemma IntText(n: int)
    ensures var s := TextOf(Num(n)); var ds := if n < 0 then s[1..] else s;
      && s == (if n < 0 then "-" else "") + ds
      && ds != "" && Numerals.Spells(ds, 10, if n < 0 then -n else n) && (ds[0] == '0' ==> n == 0 && ds == "0")
  {
    hide Numerals.Spells;
    DigitsSpell(if n < 0 then -n else n);
    var ds := Digits(if n < 0 then -n else n);
    assert ("-" + ds)[1..] == ds;
  }

  lemma {:induction false} DigitsSpell(n: nat)
    ensures var ds := Digits(n); ds != "" && Numerals.Spells(ds, 10, n) && (ds[0] == '0' ==> n == 0 && ds == "0")
    decreases n
  {
    var ds := Digits(n);
    if n < 10 {
      assert ds[..0] == "" && Numerals.Spells("", 10, 0);
    } else {
      DigitsSpell(n / 10);
      assert ds[..|ds| - 1] == Digits(n / 10);
    }
  }
}
