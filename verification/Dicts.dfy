/** Dictionaries that keep the order keys came in: keys and items side by side. */
module Dicts {
  import opened Options

  predicate Distinct(keys: seq<string>) { forall i, j | 0 <= i < j < |keys| :: keys[i] != keys[j] }

  /** Where a key stands, or the number of keys when it is new. */
  function At(keys: seq<string>, key: string): (i: nat)
    ensures i <= |keys| && (i < |keys| <==> key in keys)
    ensures i < |keys| ==> keys[i] == key
  {
    if keys == [] || keys[0] == key then 0 else 1 + At(keys[1..], key)
  }

  function Get<V>(keys: seq<string>, items: seq<V>, key: string): Option<V>
    requires |keys| == |items|
  {
    var i := At(keys, key);
    if i < |keys| then Some(items[i]) else None
  }

  /** A known key keeps its place; a new one goes last. */
  function WithKey(keys: seq<string>, key: string): seq<string> { if key in keys then keys else keys + [key] }

  function WithItem<V>(keys: seq<string>, items: seq<V>, key: string, v: V): seq<V>
    requires |keys| == |items|
  {
    var i := At(keys, key);
    if i < |keys| then items[i := v] else items + [v]
  }

  /** The others close ranks. */
  function Cut<V>(s: seq<V>, i: nat): seq<V> { if i < |s| then s[..i] + s[i + 1..] else s }

  lemma AtUnique(keys: seq<string>, i: nat)
    requires Distinct(keys) && i < |keys|
    ensures At(keys, keys[i]) == i
  {
    var k := At(keys, keys[i]);
  }

  /** Writing a key is seen at that key and nowhere else. */
  lemma GetWith<V>(keys: seq<string>, items: seq<V>, key: string, v: V, k: string)
    requires Distinct(keys) && |keys| == |items|
    ensures Distinct(WithKey(keys, key)) && |WithKey(keys, key)| == |WithItem(keys, items, key, v)|
    ensures Get(WithKey(keys, key), WithItem(keys, items, key, v), k) == if k == key then Some(v)
        else Get(keys, items, k)
  {
    var keys' := WithKey(keys, key);
    assert Distinct(keys');
    if key !in keys { AtUnique(keys', |keys|); }
    if k in keys && k != key {
      assert keys'[At(keys, k)] == k;
      AtUnique(keys', At(keys, k));
    }
  }

  lemma CutAt(keys: seq<string>, i: nat, j: nat)
    requires Distinct(keys) && i < |keys| && j < |keys| && i != j
    ensures Distinct(Cut(keys, i))
    ensures At(Cut(keys, i), keys[j]) == if j < i then j else j - 1
  {
    var keys' := Cut(keys, i);
    assert forall m | 0 <= m < |keys'| :: keys'[m] == keys[if m < i then m else m + 1];
    assert Distinct(keys');
    AtUnique(keys', if j < i then j else j - 1);
  }

  lemma CutGone(keys: seq<string>, i: nat)
    requires Distinct(keys) && i < |keys|
    ensures keys[i] !in Cut(keys, i) && Distinct(Cut(keys, i))
  {
    var keys' := Cut(keys, i);
    assert forall m | 0 <= m < |keys'| :: keys'[m] == keys[if m < i then m else m + 1];
  }

  /** A removed key is gone and every other is as before. */
  lemma GetCut<V>(keys: seq<string>, items: seq<V>, key: string, k: string)
    requires Distinct(keys) && |keys| == |items|
    ensures var i := At(keys, key);
      && Distinct(Cut(keys, i)) && |Cut(keys, i)| == |Cut(items, i)|
      && Get(Cut(keys, i), Cut(items, i), k) == if k == key then None else Get(keys, items, k)
  {
    hide Distinct;
    var i := At(keys, key);
    if i < |keys| {
      CutGone(keys, i);
      if k in keys && k != key {
        CutAt(keys, i, At(keys, k));
      } else if k != key {
        assert k !in Cut(keys, i);
      }
    }
  }

  /** The order of the others never changes: writing keeps every place, and a
      second write at the same key decides. */
  lemma WithTwice<V>(keys: seq<string>, items: seq<V>, key: string, u: V, v: V)
    requires |keys| == |items|
    ensures keys <= WithKey(keys, key) && WithKey(WithKey(keys, key), key) == WithKey(keys, key)
    ensures |WithKey(keys, key)| == |WithItem(keys, items, key, u)|
    ensures WithItem(WithKey(keys, key), WithItem(keys, items, key, u), key, v) == WithItem(keys, items, key, v)
  {
    if key !in keys { NewAt(keys, key); }
  }

  lemma {:induction false} NewAt(keys: seq<string>, key: string)
    requires key !in keys
    ensures At(keys + [key], key) == |keys|
  {
    if keys != [] {
      assert (keys + [key])[1..] == keys[1..] + [key];
      NewAt(keys[1..], key);
    }
  }

  // ── dictionaries as lists ──

  /** Key, item, key, item. */
  function Woven(keys: seq<string>, texts: seq<string>): (ws: seq<string>)
    requires |keys| == |texts|
    ensures |ws| == 2 * |keys|
  {
    seq(2 * |keys|, i requires 0 <= i < 2 * |keys| => if i % 2 == 0 then keys[i / 2] else texts[i / 2])
  }

  datatype Pairs = Pairs(keys: seq<string>, texts: seq<string>)

  /** What the first `n` pairs of a list read as: pair after pair is written. */
  function Gather(ws: seq<string>, n: nat): (d: Pairs)
    requires 2 * n <= |ws|
    ensures |d.keys| == |d.texts|
  {
    if n == 0 then Pairs([], [])
    else
      var d := Gather(ws, n - 1);
      Pairs(WithKey(d.keys, ws[2 * n - 2]), WithItem(d.keys, d.texts, ws[2 * n - 2], ws[2 * n - 1]))
  }

  lemma WovenAt(keys: seq<string>, texts: seq<string>, i: nat)
    requires |keys| == |texts| && i < |keys|
    ensures Woven(keys, texts)[2 * i] == keys[i] && Woven(keys, texts)[2 * i + 1] == texts[i]
  {
  }

  lemma WovenMore(keys: seq<string>, texts: seq<string>, key: string, x: string)
    requires |keys| == |texts|
    ensures Woven(keys + [key], texts + [x]) == Woven(keys, texts) + [key, x]
  {
  }

  lemma NotBefore(keys: seq<string>, n: nat)
    requires Distinct(keys) && n < |keys|
    ensures keys[n] !in keys[..n] && At(keys[..n], keys[n]) == n
  {
    assert keys[n] !in keys[..n];
  }

  /** A dictionary written as a list reads back in the same order. */
  lemma {:induction false} GatherWoven(keys: seq<string>, texts: seq<string>, n: nat)
    requires |keys| == |texts| && Distinct(keys) && n <= |keys|
    ensures Gather(Woven(keys, texts), n) == Pairs(keys[..n], texts[..n])
  {
    hide Woven, Distinct, At;
    if n > 0 {
      var m := n - 1;
      GatherWoven(keys, texts, m);
      WovenAt(keys, texts, m);
      NotBefore(keys, m);
      assert 2 * n - 2 == 2 * m && 2 * n - 1 == 2 * m + 1;
      assert keys[..n] == keys[..m] + [keys[m]] && texts[..n] == texts[..m] + [texts[m]];
    }
  }

  /** The last of the pairs with a key, if any. */
  function LastPair(ws: seq<string>, n: nat, key: string): (r: Option<string>)
    requires 2 * n <= |ws|
  {
    if n == 0 then None
    else if ws[2 * n - 2] == key then Some(ws[2 * n - 1])
    else LastPair(ws, n - 1, key)
  }

  /** The last pair with a key decides what it means, and no key comes twice. */
  lemma {:induction false} GatherLast(ws: seq<string>, n: nat, key: string)
    requires 2 * n <= |ws|
    ensures var d := Gather(ws, n); Distinct(d.keys) && Get(d.keys, d.texts, key) == LastPair(ws, n, key)
  {
    hide Get, WithKey, WithItem, Distinct;
    if n > 0 {
      var d := Gather(ws, n - 1);
      GatherLast(ws, n - 1, key);
      GetWith(d.keys, d.texts, ws[2 * n - 2], ws[2 * n - 1], key);
    } else {
      Nothing(key);
    }
  }

  lemma Nothing(key: string)
    ensures Distinct([]) && Get<string>([], [], key) == None
  {
  }
}
