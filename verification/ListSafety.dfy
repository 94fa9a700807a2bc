/** Parsing UTF-8 text never cuts a character: every position the scanners
    slice at starts one, and every element that comes out is UTF-8 again. */
module ListSafety {
  import opened Options
  import opened Utf8
  import opened ListText
  import ListRoundTrip

  /** A place the scanners may stand at. */
  predicate At(b: string, i: nat) { Valid(b) && i <= |b| && Boundary(b, i) }

  lemma AsciiNext(b: string, i: nat)
    requires At(b, i) && i < |b| && IsAscii(b[i])
    ensures At(b, i + 1)
  {
    hide Valid;
    AfterAscii(b, i);
  }

  lemma {:induction false} AsciiRun(b: string, i: nat, j: nat)
    requires At(b, i) && i <= j <= |b| && forall k | i <= k < j :: IsAscii(b[k])
    ensures At(b, j)
    decreases j - i
  {
    hide Valid;
    if i < j { AsciiNext(b, i); AsciiRun(b, i + 1, j); }
  }

  lemma CharNext(b: string, i: nat)
    requires At(b, i) && i < |b|
    ensures i + Len(b[i]) <= |b| && At(b, i + Len(b[i])) && Valid(b[i..i + Len(b[i])])
  {
    hide Valid, OneChar;
    CharAt(b, i);
    ValidOne(b[i..i + Len(b[i])]);
  }

  lemma LossyIsValid(v: nat)
    ensures Valid(EncodeLossy(v))
  {
    ValidOne(EncodeLossy(v));
  }

  lemma UnicodeKeeps(b: string, i: nat)
    requires At(b, i) && i + 1 < |b| && b[i] == '\\' && (b[i + 1] == 'u' || b[i + 1] == 'U')
    ensures var r := UnicodeEscape(b, i); At(b, i + r.0) && Valid(r.1)
  {
    hide Valid, EncodeLossy, HexRun, Boundary;
    var c := b[i + 1];
    var h := HexRun(b, i + 2, if c == 'u' then 4 else 8, 0, 0);
    ValidAscii([c]);
    LossyIsValid(h.1);
    AsciiRun(b, i, i + 2 + h.0);
    if c == 'u' && PairAhead(b, i + 2, h.0, h.1) {
      var lo := HexRun(b, i + 2 + h.0 + 2, 4, 0, 0);
      LossyIsValid(Combined(h.1, lo.1));
      AsciiRun(b, i, i + 2 + h.0 + 2 + lo.0);
    }
  }

  lemma BackslashKeeps(b: string, i: nat)
    requires At(b, i) && i < |b| && b[i] == '\\'
    ensures var r := Backslash(b, i); At(b, i + r.0) && Valid(r.1)
  {
    hide Valid, EncodeLossy, HexRun, OctalRun, BlanksFrom, UnicodeEscape, Boundary;
    AsciiNext(b, i);
    ValidAscii("\\");
    if i + 1 < |b| {
      var c := b[i + 1];
      if Letter(c).Some? {
        ValidAscii(Letter(c).value);
        AsciiNext(b, i + 1);
      } else if c == 'x' {
        var h := HexRun(b, i + 2, 2, 0, 0);
        ValidAscii("x");
        LossyIsValid(h.1 % 0x100);
        AsciiRun(b, i, i + 2 + h.0);
      } else if c == 'u' || c == 'U' {
        UnicodeKeeps(b, i);
      } else if IsOctal(c) {
        var o := OctalRun(b, i + 1, 1, Digit(c));
        LossyIsValid(o.1 % 0x100);
        AsciiRun(b, i, i + 1 + o.0);
      } else if c == '\n' {
        ValidAscii(" ");
        AsciiRun(b, i, BlanksFrom(b, i + 2));
      } else {
        CharNext(b, i + 1);
      }
    }
  }

  /** The scanners step byte by byte, but only stop at ASCII bytes. */
  lemma AsciiStands(b: string, i: nat)
    requires Valid(b) && i < |b| && IsAscii(b[i])
    ensures At(b, i)
  {
  }

  lemma CloseBraceKeeps(b: string, i: nat, depth: nat)
    requires Valid(b) && i <= |b| && depth > 0 && CloseBrace(b, i, depth).Some?
    ensures At(b, CloseBrace(b, i, depth).value) && At(b, CloseBrace(b, i, depth).value + 1)
  {
    hide Valid, Backslash;
    var e := CloseBrace(b, i, depth).value;
    AsciiStands(b, e);
    AsciiNext(b, e);
  }

  lemma {:induction false} SpacesKeep(b: string, i: nat)
    requires At(b, i)
    ensures At(b, SkipSpaces(b, i))
    decreases |b| - i
  {
    hide Valid, Boundary;
    if i < |b| && IsSpace(b[i]) { AsciiNext(b, i); SpacesKeep(b, i + 1); }
  }

  lemma BareEndStands(b: string, i: nat)
    requires At(b, i)
    ensures At(b, BareEnd(b, i))
  {
    hide Valid, Backslash;
    BareEndStops(b, i);
    if BareEnd(b, i) < |b| { AsciiStands(b, BareEnd(b, i)); }
  }

  lemma {:induction false} BareEndStops(b: string, i: nat)
    requires i <= |b|
    ensures BareEnd(b, i) < |b| ==> IsSpace(b[BareEnd(b, i)])
    decreases |b| - i
  {
    hide Backslash;
    if i < |b| && !IsSpace(b[i]) { BareEndStops(b, if b[i] == '\\' then i + Backslash(b, i).0 else i + 1); }
  }

  lemma {:induction false} CollapseKeeps(b: string, i: nat)
    requires At(b, i)
    ensures Valid(CollapseFrom(b, i))
    decreases |b| - i
  {
    hide Valid, Backslash, Boundary;
    if i < |b| {
      if b[i] == '\\' {
        BackslashKeeps(b, i);
        var r := Backslash(b, i);
        CollapseKeeps(b, i + r.0);
        ValidJoin(r.1, CollapseFrom(b, i + r.0));
      } else {
        CharNext(b, i);
        var j := i + Len(b[i]);
        CollapseKeeps(b, j);
        ValidJoin(b[i..j], CollapseFrom(b, j));
      }
    } else {
      ValidAscii("");
    }
  }

  lemma SubstitutedKeeps(b: string, i: nat, j: nat)
    requires At(b, i) && At(b, j) && i <= j
    ensures Valid(Substituted(b[i..j]))
  {
    hide Valid, CollapseFrom;
    Slice(b, i, j);
    var raw := b[i..j];
    StartStands(raw);
    CollapseKeeps(raw, 0);
  }

  lemma StartStands(s: string)
    requires Valid(s)
    ensures At(s, 0)
  {
    if s != "" { NextStarts(s); }
  }

  /** An element and the place after it. */
  lemma ElementKeeps(b: string, i: nat)
    requires At(b, i) && i < |b| && !IsSpace(b[i]) && FindElement(b, i).Ok?
    ensures var r := FindElement(b, i).value; Valid(r.0) && At(b, r.1)
  {
    hide Valid, CloseBrace, CloseQuote, BareEnd, SkipSpaces, Substituted, Boundary;
    if b[i] == '{' {
      AsciiNext(b, i);
      var e := CloseBrace(b, i + 1, 1).value;
      CloseBraceKeeps(b, i + 1, 1);
      Slice(b, i + 1, e);
      SpacesKeep(b, e + 1);
    } else if b[i] == '"' {
      AsciiNext(b, i);
      var e := CloseQuote(b, i + 1).value;
      AsciiStands(b, e);
      AsciiNext(b, e);
      SubstitutedKeeps(b, i + 1, e);
      SpacesKeep(b, e + 1);
    } else {
      BareEndStands(b, i);
      SubstitutedKeeps(b, i, BareEnd(b, i));
    }
  }

  lemma {:induction false} ElementsKeep(b: string, i: nat)
    requires At(b, i) && ParseFrom(b, i).Ok?
    ensures forall k | 0 <= k < |ParseFrom(b, i).value| :: Valid(ParseFrom(b, i).value[k])
    decreases |b| - i
  {
    hide Valid, FindElement, SkipSpaces, Boundary;
    SpacesKeep(b, i);
    var j := SkipSpaces(b, i);
    if j < |b| {
      ElementKeeps(b, j);
      ElementsKeep(b, FindElement(b, j).value.1);
    }
  }

  /** Parsing UTF-8 yields UTF-8. */
  lemma ParseKeepsUtf8(b: string)
    requires Valid(b) && Parse(b).Ok?
    ensures forall k | 0 <= k < |Parse(b).value| :: Valid(Parse(b).value[k])
  {
    hide ParseFrom, Valid;
    StartStands(b);
    ElementsKeep(b, 0);
  }

  /** Printing what any UTF-8 text parsed to, and parsing again, changes
      nothing. */
  lemma Canonical(b: string)
    requires Valid(b) && Parse(b).Ok?
    ensures Parse(Serialize(Parse(b).value)) == Parse(b)
  {
    hide Parse, Serialize, Valid;
    ParseKeepsUtf8(b);
    ListRoundTrip.RoundTrip(Parse(b).value);
  }
}
