/** UTF-8 as section 4 of RFC 3629 defines it, and the character boundaries that
    cutting a text must respect. */
module Utf8 {
  import opened SessionEvents

  predicate Tail(o: Octet) {
    0x80 <= o <= 0xbf
  }

  /** Length of the character a text starts with, or 0 if it starts with none. */
  function CharLength(t: Text): (n: nat)
    ensures n <= |t| && n <= 4
    ensures n > 0 ==> !Tail(t[0]) && forall i :: 1 <= i < n ==> Tail(t[i])
  {
    if t == [] then 0
    else if t[0] <= 0x7f then 1
    else if |t| >= 2 && 0xc2 <= t[0] <= 0xdf && Tail(t[1]) then 2
    else if |t| >= 3 && ThreeOctets(t[0], t[1]) && Tail(t[2]) then 3
    else if |t| >= 4 && FourOctets(t[0], t[1]) && Tail(t[2]) && Tail(t[3]) then 4
    else 0
  }

  predicate ThreeOctets(a: Octet, b: Octet) {
    || (a == 0xe0 && 0xa0 <= b <= 0xbf)
    || ((0xe1 <= a <= 0xec || 0xee <= a <= 0xef) && Tail(b))
    || (a == 0xed && 0x80 <= b <= 0x9f)
  }

  predicate FourOctets(a: Octet, b: Octet) {
    || (a == 0xf0 && 0x90 <= b <= 0xbf)
    || (0xf1 <= a <= 0xf3 && Tail(b))
    || (a == 0xf4 && 0x80 <= b <= 0x8f)
  }

  /** The first two octets allow exactly the characters of that length: no longer form
      of a shorter character, no surrogate, nothing above the last code point. */
  lemma CodePoints(a: Octet, b: Octet, c: Octet, d: Octet)
    requires Tail(c) && Tail(d)
    ensures ThreeOctets(a, b) <==>
              && 0xe0 <= a <= 0xef && Tail(b)
              && var point := (a as int - 0xe0) * 0x1000 + (b as int - 0x80) * 0x40 + (c as int - 0x80);
                 0x800 <= point <= 0xffff && !(0xd800 <= point <= 0xdfff)
    ensures FourOctets(a, b) <==>
              && 0xf0 <= a <= 0xf7 && Tail(b)
              && var point := (a as int - 0xf0) * 0x40000 + (b as int - 0x80) * 0x1000
                              + (c as int - 0x80) * 0x40 + (d as int - 0x80);
                 0x10000 <= point <= 0x10ffff
  {
  }

  /** A text starts with one octet below 128, or with two of a code point that needs
      two, or with the octets of a longer character. */
  lemma FirstCharacter(t: Text)
    requires t != []
    ensures CharLength(t) == 1 <==> t[0] < 0x80
    ensures CharLength(t) == 2 <==>
              && |t| >= 2 && 0xc0 <= t[0] <= 0xdf && Tail(t[1])
              && (t[0] as int - 0xc0) * 0x40 + (t[1] as int - 0x80) >= 0x80
    ensures CharLength(t) == 3 <==> |t| >= 3 && ThreeOctets(t[0], t[1]) && Tail(t[2])
    ensures CharLength(t) == 4 <==> |t| >= 4 && FourOctets(t[0], t[1]) && Tail(t[2]) && Tail(t[3])
  {
  }

  predicate ValidUtf8(t: Text)
    decreases |t|
  {
    t == [] || (CharLength(t) > 0 && ValidUtf8(t[CharLength(t)..]))
  }

  type Utf8Text = t: Text | ValidUtf8(t) witness []

  predicate CharBoundary(t: Text, i: nat)
    requires i <= |t|
  {
    i == 0 || i == |t| || !Tail(t[i])
  }

  /** A boundary splits a valid text into two valid texts. */
  lemma {:induction false} SplitValid(t: Text, i: nat)
    requires ValidUtf8(t) && i <= |t| && CharBoundary(t, i)
    ensures ValidUtf8(t[..i]) && ValidUtf8(t[i..])
    decreases |t|
  {
    hide CharLength, ValidUtf8;
    if i == 0 {
      assert t[0..] == t && t[..0] == [];
      ValidNothing();
    } else {
      ValidStep(t);
      var n := CharLength(t);
      var rest, left := t[n..], t[..i];
      assert i < |t| ==> rest[i - n] == t[i];
      SplitValid(rest, i - n);
      assert rest[i - n..] == t[i..];
      SameLength(t, i);
      ValidStep(left);
      assert left[n..] == rest[..i - n];
    }
  }

  lemma ValidNothing()
    ensures ValidUtf8([])
  {
  }

  lemma SameLength(t: Text, i: nat)
    requires 0 < CharLength(t) <= i <= |t|
    ensures CharLength(t[..i]) == CharLength(t)
  {
    var left := t[..i];
    assert left[0] == t[0];
    assert |left| >= 2 ==> left[1] == t[1];
    assert |left| >= 3 ==> left[2] == t[2];
    assert |left| >= 4 ==> left[3] == t[3];
  }

  lemma ValidStep(t: Text)
    requires t != []
    ensures ValidUtf8(t) <==> CharLength(t) > 0 && ValidUtf8(t[CharLength(t)..])
  {
  }

  lemma {:induction false} JoinValid(left: Text, right: Text)
    requires ValidUtf8(left) && ValidUtf8(right)
    ensures ValidUtf8(left + right)
    decreases |left|
  {
    hide CharLength, ValidUtf8;
    if left == [] {
      assert left + right == right;
    } else {
      ValidStep(left);
      var n, all := CharLength(left), left + right;
      LongerLength(left, right);
      JoinValid(left[n..], right);
      assert all[n..] == left[n..] + right;
      ValidStep(all);
    }
  }

  lemma LongerLength(left: Text, right: Text)
    requires CharLength(left) > 0
    ensures CharLength(left + right) == CharLength(left)
  {
    var all := left + right;
    assert all[0] == left[0];
    assert |left| >= 2 ==> all[1] == left[1];
    assert |left| >= 3 ==> all[2] == left[2];
    assert |left| >= 4 ==> all[3] == left[3];
    assert CharLength(left) == 1 ==> left[0] <= 0x7f;
  }

  /** A character has at most three tails, so four positions in a row hold a boundary. */
  lemma {:induction false} BoundaryNearby(t: Text, i: nat)
    requires ValidUtf8(t) && i + 3 < |t|
    ensures !Tail(t[i]) || !Tail(t[i + 1]) || !Tail(t[i + 2]) || !Tail(t[i + 3])
    decreases |t|
  {
    var n := CharLength(t);
    var rest := t[n..];
    if i >= n {
      BoundaryNearby(rest, i - n);
      assert rest[i - n] == t[i] && rest[i - n + 1] == t[i + 1] && rest[i - n + 2] == t[i + 2];
      assert rest[i - n + 3] == t[i + 3];
    } else if i > 0 {
      assert rest != [] && rest[0] == t[n];
      assert CharLength(rest) > 0;
    }
  }

  /** The greatest boundary that is not beyond a limit. */
  method CutAt(t: Text, limit: nat) returns (end: nat)
    requires ValidUtf8(t) && limit >= 4
    ensures end <= |t| && end <= limit && CharBoundary(t, end)
    ensures |t| <= limit ==> end == |t|
    ensures |t| > limit ==> limit - 3 <= end
    ensures forall i :: end < i <= limit && i <= |t| ==> !CharBoundary(t, i)
  {
    end := if |t| < limit then |t| else limit;
    ghost var start, near := end, end;
    if end < |t| {
      BoundaryNearby(t, end - 3);
      near := if !Tail(t[end]) then end else if !Tail(t[end - 1]) then end - 1 else if !Tail(t[end - 2]) then end - 2
        else end - 3;
    }
    while !CharBoundary(t, end)
      invariant near <= end <= start
      invariant forall i :: end < i <= start ==> !CharBoundary(t, i)
      decreases end
    {
      end := end - 1;
    }
  }

  // ---- white space ----

  predicate AsciiSpace(o: Octet) {
    o == 0x20 || 0x09 <= o <= 0x0d
  }

  /** Only white space, as its UTF-8 octets. */
  predicate Blank(text: Text) {
    || text == []
    || (AsciiSpace(text[0]) && Blank(text[1..]))
    || (|text| >= 2 && text[0] == 0xc2 && text[1] in {0x85, 0xa0} && Blank(text[2..]))
    || (|text| >= 3 && WideSpace(text[0], text[1], text[2]) && Blank(text[3..]))
  }

  predicate WideSpace(a: Octet, b: Octet, c: Octet) {
    || (a == 0xe1 && b == 0x9a && c == 0x80)
    || (a == 0xe2 && b == 0x80 && (0x80 <= c <= 0x8a || c in {0xa8, 0xa9, 0xaf}))
    || (a == 0xe2 && b == 0x81 && c == 0x9f)
    || (a == 0xe3 && b == 0x80 && c == 0x80)
  }

  /** The white space beyond ASCII, by its code points. */
  lemma SpacePoints(a: Octet, b: Octet, c: Octet)
    requires 0xe0 <= a <= 0xef && Tail(b) && Tail(c)
    ensures var point := (a as int - 0xe0) * 0x1000 + (b as int - 0x80) * 0x40 + (c as int - 0x80);
            WideSpace(a, b, c) <==>
              point in {0x1680, 0x2028, 0x2029, 0x202f, 0x205f, 0x3000} || 0x2000 <= point <= 0x200a
  {
  }

  /** One character, then the rest: what is blank begins with white space. */
  lemma BlankStep(text: Text)
    requires text != [] && ValidUtf8(text)
    ensures var n := CharLength(text);
            Blank(text) <==>
              && Blank(text[n..])
              && match n
                 case 1 => AsciiSpace(text[0])
                 case 2 => (text[0] as int - 0xc0) * 0x40 + (text[1] as int - 0x80) in {0x85, 0xa0}
                 case 3 => WideSpace(text[0], text[1], text[2])
                 case _ => false
  {
  }

  function TrimSpace(text: Text): (trimmed: Text)
    ensures trimmed <= text
    decreases |text|
  {
    var n := |text|;
    if n >= 1 && AsciiSpace(text[n - 1]) then TrimSpace(text[..n - 1])
    else if n >= 2 && text[n - 2] == 0xc2 && text[n - 1] in {0x85, 0xa0} then TrimSpace(text[..n - 2])
    else if n >= 3 && WideSpace(text[n - 3], text[n - 2], text[n - 1]) then TrimSpace(text[..n - 3])
    else text
  }

  /** A character of white space ends the text at some length. */
  predicate EndsWhite(text: Text) {
    var n := |text|;
    || (n >= 1 && AsciiSpace(text[n - 1]))
    || (n >= 2 && text[n - 2] == 0xc2 && text[n - 1] in {0x85, 0xa0})
    || (n >= 3 && WideSpace(text[n - 3], text[n - 2], text[n - 1]))
  }

  lemma {:induction false} BlankEndsWhite(text: Text)
    requires Blank(text) && text != []
    ensures EndsWhite(text)
    decreases |text|
  {
    var n := if AsciiSpace(text[0]) && Blank(text[1..]) then 1
      else if |text| >= 2 && text[0] == 0xc2 && text[1] in {0x85, 0xa0} && Blank(text[2..]) then 2 else 3;
    if text[n..] != [] {
      BlankEndsWhite(text[n..]);
    }
  }

  /** White space added at the end does not change whether a text is blank. */
  lemma {:induction false} BlankJoin(text: Text, more: Text)
    requires ValidUtf8(text) && ValidUtf8(more) && Blank(more)
    ensures Blank(text + more) <==> Blank(text)
    decreases |text|
  {
    hide Blank, WideSpace, AsciiSpace, ValidUtf8, CharLength;
    BlankNothing([]);
    if text == [] {
      assert text + more == more;
    } else {
      FirstStays(text, more);
      var n := CharLength(text);
      assert (text + more)[n..] == text[n..] + more;
      JoinValid(text, more);
      BlankJoin(text[n..], more);
      BlankStep(text);
      BlankStep(text + more);
    }
  }

  lemma FirstStays(text: Text, more: Text)
    requires ValidUtf8(text) && text != []
    ensures CharLength(text + more) == CharLength(text) > 0 && ValidUtf8(text[CharLength(text)..])
  {
  }

  /** From a boundary on a text is blank exactly if all of that is trimmed: trimming
      takes away white space, the whole of it, and nothing else. */
  lemma {:induction false} TrimExact(text: Text, k: nat)
    requires ValidUtf8(text) && k <= |text| && CharBoundary(text, k)
    ensures Blank(text[k..]) <==> |TrimSpace(text)| <= k
    decreases |text|
  {
    hide Blank, ValidUtf8, EndsWhite, TrimSpace, CharLength;
    BlankNothing(text[|text|..]);
    if !EndsWhite(text) {
      NothingToTrim(text, k);
    } else {
      var start := LastWhite(text);
      var rest, white := text[..start], text[start..];
      SplitValid(text, start);
      if k <= start {
        SplitValid(rest, k);
        TrimExact(rest, k);
        assert text[k..] == rest[k..] + white;
        BlankJoin(rest[k..], white);
      }
    }
  }

  lemma NothingToTrim(text: Text, k: nat)
    requires !EndsWhite(text) && k <= |text|
    ensures TrimSpace(text) == text && (k < |text| ==> !Blank(text[k..]))
  {
    hide Blank, WideSpace, AsciiSpace;
    if k < |text| && Blank(text[k..]) {
      BlankEndsWhite(text[k..]);
    }
  }

  lemma LastWhite(text: Text) returns (start: nat)
    requires EndsWhite(text)
    ensures start < |text| && Blank(text[start..]) && TrimSpace(text) == TrimSpace(text[..start])
    ensures !Tail(text[start]) && forall i :: start < i < |text| ==> Tail(text[i])
  {
    var n := |text|;
    start := if AsciiSpace(text[n - 1]) then n - 1
      else if text[n - 2] == 0xc2 && text[n - 1] in {0x85, 0xa0} then n - 2 else n - 3;
    OneWhite(text[start..]);
  }

  lemma OneWhite(text: Text)
    requires || (|text| == 1 && AsciiSpace(text[0]))
             || (|text| == 2 && text[0] == 0xc2 && text[1] in {0x85, 0xa0})
             || (|text| == 3 && WideSpace(text[0], text[1], text[2]))
    ensures Blank(text)
  {
    BlankNothing(text[|text|..]);
  }

  lemma BlankNothing(text: Text)
    ensures text == [] ==> Blank(text)
  {
  }

  /** Of ASCII text, what is blank is all white space, and trims to nothing. */
  lemma {:induction false} BlankAscii(text: Text)
    requires forall i :: 0 <= i < |text| ==> text[i] < 0x80
    ensures Blank(text) <==> forall i :: 0 <= i < |text| ==> text[i] in {0x09, 0x0a, 0x0b, 0x0c, 0x0d, 0x20}
    decreases |text|
  {
    if text != [] {
      BlankAscii(text[1..]);
      assert forall i :: 0 < i < |text| ==> text[i] == text[1..][i - 1];
    }
  }

  /** Of ASCII text, exactly the white space at its end is trimmed. */
  lemma {:induction false} TrimAscii(text: Text)
    requires forall i :: 0 <= i < |text| ==> text[i] < 0x80
    ensures var trimmed := TrimSpace(text);
            && trimmed <= text && (trimmed != [] ==> !AsciiSpace(trimmed[|trimmed| - 1]))
            && forall i :: |trimmed| <= i < |text| ==> AsciiSpace(text[i])
    decreases |text|
  {
    var n := |text|;
    if n > 0 && AsciiSpace(text[n - 1]) {
      TrimAscii(text[..n - 1]);
    }
  }
}
