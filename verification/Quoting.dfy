/** Which elements of a list are printed as they are, in braces, or escaped, said
    of their bytes. */
module Quoting {
  import opened ListText
  import Utf8

  /** The byte at `k` is taken together with the backslash in front of it. */
  predicate Second(s: string, k: nat)
    requires k < |s|
  {
    k > 0 && s[k] in "\n{}\\" && s[k - 1] == '\\' && !Second(s, k - 1)
  }

  /** Braces opened and not closed in the first `k` bytes. */
  function Depth(s: string, k: nat): int
    requires k <= |s|
  {
    if k == 0 then 0
    else Depth(s, k - 1) + (if Second(s, k - 1) then 0 else if s[k - 1] == '{' then 1 else if s[k - 1] == '}' then -1
        else 0)
  }

  /** At `k` no braces can be put around the element: one would be closed by it,
      or a backslash would take in what follows. */
  predicate Spoils(s: string, k: nat)
    requires k < |s|
  {
    && !Second(s, k)
    && ((s[k] == '}' && Depth(s, k) <= 0) || (s[k] == '\\' && (k + 1 == |s| || s[k + 1] == '\n')))
  }

  predicate Unbraceable(s: string) { Depth(s, |s|) != 0 || exists k | 0 <= k < |s| :: Spoils(s, k) }

  predicate Active(c: char) { c in "[]$;\"\\ \t\n\r" || c as int == 11 || c as int == 12 }

  /** A bracket or a quote that only closes. */
  predicate Shutting(c: char) { c == ']' || c == '"' }

  predicate Leads(s: string) { s != "" && (s[0] == '{' || s[0] == '"') }

  /** What the scan knows after `i` bytes. */
  predicate Known(s: string, i: nat, st: Scan) {
    i <= |s|
    && st.nesting == Depth(s, i)
    && (st.requireEscape <==> exists k | 0 <= k < i :: Spoils(s, k))
    && (st.forbidNone <==> Leads(s) || exists k | 0 <= k < i :: Active(s[k]))
    && (st.preferEscape <==> exists k | 0 <= k < i :: Shutting(s[k]))
    && (st.preferBrace <==> Leads(s) || exists k | 0 <= k < i :: Active(s[k]) && !Shutting(s[k]))
  }

  lemma ActiveIs(c: char)
    ensures Active(c) <==> c == ']' || c == '"' || c == '[' || c == '$' || c == ';' || c == '\\' || IsSpace(c)
  {
  }

  /** What the scan knows with one more byte seen, for which `st1` is right. */
  predicate Learns(s: string, i: nat, st: Scan, st1: Scan)
    requires i < |s|
  {
    && st1.nesting == Depth(s, i + 1)
    && (st1.requireEscape <==> st.requireEscape || Spoils(s, i))
    && (st1.forbidNone <==> st.forbidNone || Active(s[i]))
    && (st1.preferEscape <==> st.preferEscape || Shutting(s[i]))
    && (st1.preferBrace <==> st.preferBrace || (Active(s[i]) && !Shutting(s[i])))
  }

  lemma Learnt(s: string, i: nat, st: Scan, st1: Scan)
    requires i < |s| && Known(s, i, st) && Learns(s, i, st, st1)
    ensures Known(s, i + 1, st1)
  {
    hide Spoils, Active, Shutting, Depth;
  }

  lemma OneByte(s: string, i: nat, st: Scan)
    requires i < |s| && !Second(s, i) && st.nesting == Depth(s, i)
    requires s[i] == '\\' && i + 1 < |s| ==> s[i + 1] !in "\n{}\\"
    ensures var r := ScanOne(s, i, st); r.1 == i + 1 && Learns(s, i, st, r.0)
  {
    ActiveIs(s[i]);
  }

  /** Of a pair, the first byte says it all. */
  lemma TwoBytes(s: string, i: nat, st: Scan)
    requires i + 1 < |s| && !Second(s, i) && st.nesting == Depth(s, i) && s[i] == '\\' && s[i + 1] in "\n{}\\"
    ensures var r := ScanOne(s, i, st); r.1 == i + 2 && Learns(s, i, st, r.0) && Learns(s, i + 1, r.0, r.0)
  {
    assert Second(s, i + 1);
    ActiveIs(s[i]);
  }

  lemma {:induction false} ScanKnows(s: string, i: nat, st: Scan)
    requires i <= |s| && Known(s, i, st) && (i < |s| ==> !Second(s, i))
    ensures Known(s, |s|, ScanFrom(s, i, st))
    decreases |s| - i
  {
    hide Known, ScanOne, Learns, Second;
    if i < |s| {
      var r := ScanOne(s, i, st);
      assert st.nesting == Depth(s, i) by { NestingIs(s, i, st); }
      if s[i] == '\\' && i + 1 < |s| && s[i + 1] in "\n{}\\" {
        TwoBytes(s, i, st);
        Learnt(s, i, st, r.0);
        Learnt(s, i + 1, r.0, r.0);
      } else {
        OneByte(s, i, st);
        Learnt(s, i, st, r.0);
      }
      if r.1 < |s| { NextFirst(s, i, r.1); }
      ScanKnows(s, r.1, r.0);
    }
  }

  lemma NestingIs(s: string, i: nat, st: Scan)
    requires Known(s, i, st)
    ensures i <= |s| && st.nesting == Depth(s, i)
  {
  }

  lemma NextFirst(s: string, i: nat, j: nat)
    requires i < j < |s| && !Second(s, i)
    requires if s[i] == '\\' && s[i + 1] in "\n{}\\" then j == i + 2 else j == i + 1
    ensures !Second(s, j)
  {
  }

  /** An element that braces cannot hold is escaped; one without active bytes
      stands as it is, if it does not start like a quoted one; brackets and
      quotes that only close are masked; anything else goes into braces. */
  lemma ModeIs(s: string)
    requires s != ""
    ensures ModeOf(s) ==
      if Unbraceable(s) then Escape
      else if !Leads(s) && forall k | 0 <= k < |s| :: !Active(s[k]) then Plain
      else if !Leads(s) && forall k | 0 <= k < |s| :: Active(s[k]) ==> Shutting(s[k]) then Mask
      else Brace
  {
    hide ScanFrom, Spoils, Depth;
    assert Depth(s, 0) == 0 by { DepthNone(s); }
    ScanKnows(s, 0, Started(s));
    assert forall k | 0 <= k < |s| :: Shutting(s[k]) ==> Active(s[k]);
  }

  lemma DepthNone(s: string)
    ensures Depth(s, 0) == 0
  {
  }

  /** What an element is printed as.  In front of a list, a `#` would start a
      comment: it is put into braces, or escaped. */
  lemma ElementPrinted(s: string, first: bool)
    requires s != ""
    ensures Convert(s, first) ==
      if Unbraceable(s) then
        if first && s[0] == '#' then "\\#" + EscapeText(s[1..], Escape) else EscapeText(s, Escape)
      else if first && s[0] == '#' then "{" + s + "}"
      else if !Leads(s) && forall k | 0 <= k < |s| :: !Active(s[k]) then s
      else if !Leads(s) && forall k | 0 <= k < |s| :: Active(s[k]) ==> Shutting(s[k]) then EscapeText(s, Mask)
      else "{" + s + "}"
  {
    hide ModeOf, EscapeText, Unbraceable, Active, Shutting, Leads;
    ModeIs(s);
  }

  /** Escaped, an active byte has a backslash in front of it, control characters
      go by their letter, and other bytes stay; braces only where they count. */
  lemma {:induction false} EscapedBytes(s: string, mode: Mode)
    ensures s != "" ==>
      var c, rest := s[0], EscapeText(s[1..], mode);
      EscapeText(s, mode) ==
        if 9 <= c as int <= 13 then ['\\', "tnvfr"[c as int - 9]] + rest
        else if Active(c) || (mode.Escape? && c in "{}") then ['\\', c] + rest
        else [c] + rest
  {
  }

  /** So no printed list starts a comment. */
  lemma NoComment(items: seq<string>)
    ensures Serialize(items) != "" ==> Serialize(items)[0] != '#'
  {
    hide Utf8.Valid, EscapeText, Unbraceable, Active, Shutting, Leads, Convert;
    if items != [] {
      var t := JoinFrom(items, 0);
      assert t == Convert(items[0], true) + JoinFrom(items, 1) by { FirstPrinted(items); }
      FirstByte(items[0]);
    } else {
      assert JoinFrom(items, 0) == "";
    }
  }

  lemma FirstPrinted(items: seq<string>)
    requires items != []
    ensures JoinFrom(items, 0) == Convert(items[0], true) + JoinFrom(items, 1)
  {
    hide Convert;
    assert "" + Convert(items[0], true) == Convert(items[0], true);
  }

  lemma FirstByte(s: string)
    ensures Convert(s, true) != "" && Convert(s, true)[0] != '#'
  {
    hide ModeOf;
    if s != "" && s[0] != '#' { EscapedBytes(s, ModeOf(s)); }
  }
}
