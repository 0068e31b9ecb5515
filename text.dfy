/**
 * The string operations the puzzles use on what the player types:
 * JavaScript's whitespace class (the `\s` of a regular expression, which is
 * also what `String.prototype.trim` strips), `trim`, `toLowerCase` restricted
 * to ASCII letters, and `replace(/\s/g, '')`.
 */
module Text {

  /** White space and line terminators as ECMAScript defines them. */
  predicate IsSpace(c: char)
  {
    c == '\t' || c == '\n' || c == '\U{B}' || c == '\U{C}' || c == '\r' || c == ' '
    || c == '\U{A0}' || c == '\U{1680}' || ('\U{2000}' <= c <= '\U{200A}')
    || c == '\U{2028}' || c == '\U{2029}' || c == '\U{202F}' || c == '\U{205F}'
    || c == '\U{3000}' || c == '\U{FEFF}'
  }

  /** Letters, digits and punctuation are never white space. */
  lemma {:induction false} PrintableIsNotSpace(c: char)
    requires '!' <= c <= '~'
    ensures !IsSpace(c)
  {
  }

  predicate AllSpace(s: string)
  {
    forall i :: 0 <= i < |s| ==> IsSpace(s[i])
  }

  predicate NoSpace(s: string)
  {
    forall i :: 0 <= i < |s| ==> !IsSpace(s[i])
  }

  /** How many white-space characters the input starts with. */
  function LeadingSpaces(s: string): (k: nat)
    ensures k <= |s|
    ensures forall i :: 0 <= i < k ==> IsSpace(s[i])
    ensures k == |s| || !IsSpace(s[k])
  {
    SpaceRunFrom(s, 0)
  }

  /** The end of the run of white space that starts at index `i`. */
  function SpaceRunFrom(s: string, i: nat): (k: nat)
    requires i <= |s|
    ensures i <= k <= |s|
    ensures forall j :: i <= j < k ==> IsSpace(s[j])
    ensures k == |s| || !IsSpace(s[k])
    decreases |s| - i
  {
    if i < |s| && IsSpace(s[i]) then SpaceRunFrom(s, i + 1) else i
  }

  /** How many white-space characters the input ends with. */
  function TrailingSpaces(s: string): (k: nat)
    ensures k <= |s|
    ensures forall i :: |s| - k <= i < |s| ==> IsSpace(s[i])
    ensures k == |s| || !IsSpace(s[|s| - k - 1])
  {
    |s| - SpaceRunBefore(s, |s|)
  }

  /** The start of the run of white space that ends just before index `j`. */
  function SpaceRunBefore(s: string, j: nat): (k: nat)
    requires j <= |s|
    ensures k <= j
    ensures forall i :: k <= i < j ==> IsSpace(s[i])
    ensures k == 0 || !IsSpace(s[k - 1])
  {
    if j > 0 && IsSpace(s[j - 1]) then SpaceRunBefore(s, j - 1) else j
  }

  /** `String.prototype.trim`: the input without its leading and trailing white space. */
  function Trim(s: string): (r: string)
    ensures |r| <= |s|
  {
    var k := LeadingSpaces(s);
    if k == |s| then [] else s[k..|s| - TrailingSpaces(s)]
  }

  /** What `trim` returns neither starts nor ends with white space. */
  lemma {:induction false} TrimHasNoEdgeSpace(s: string)
    ensures var r := Trim(s); r == [] || (!IsSpace(r[0]) && !IsSpace(r[|r| - 1]))
  {
    if LeadingSpaces(s) < |s| {
      TrimIsSlice(s, LeadingSpaces(s), |s| - TrailingSpaces(s));
    }
  }

  /** The leading white space is the stretch up to the first other character. */
  lemma {:induction false} LeadingUnique(s: string, k: nat)
    requires k <= |s| && (forall i :: 0 <= i < k ==> IsSpace(s[i])) && (k == |s| || !IsSpace(s[k]))
    ensures LeadingSpaces(s) == k
  {
  }

  /** The trailing white space is the stretch after the last other character. */
  lemma {:induction false} TrailingUnique(s: string, k: nat)
    requires k <= |s| && (forall i :: |s| - k <= i < |s| ==> IsSpace(s[i])) && (k == |s| || !IsSpace(s[|s| - k - 1]))
    ensures TrailingSpaces(s) == k
  {
  }

  /** What `trim` keeps is one stretch of the input with only white space before and after it. */
  lemma {:induction false} TrimSpan(s: string) returns (i: nat)
    ensures i + |Trim(s)| <= |s| && Trim(s) == s[i..i + |Trim(s)|]
    ensures AllSpace(s[..i]) && AllSpace(s[i + |Trim(s)|..])
  {
    i := LeadingSpaces(s);
  }

  /** White space around the input does not change what `trim` returns. */
  lemma {:induction false} TrimIgnoresPadding(before: string, s: string, after: string)
    requires AllSpace(before) && AllSpace(after)
    ensures Trim(before + s + after) == Trim(s)
  {
    if LeadingSpaces(s) == |s| {
      TrimOfPaddedSpace(before, s, after);
    } else {
      TrimOfPaddedText(before, s, after);
    }
  }

  lemma {:induction false} TrimOfPaddedSpace(before: string, s: string, after: string)
    requires AllSpace(before) && AllSpace(after) && LeadingSpaces(s) == |s|
    ensures Trim(before + s + after) == [] == Trim(s)
  {
    var u := before + s + after;
    var m := |before| + |s|;
    forall i | 0 <= i < |u| ensures IsSpace(u[i]) {
      if i < |before| {
        assert u[i] == before[i];
      } else if i < m {
        assert u[i] == s[i - |before|];
      } else {
        assert u[i] == after[i - m];
      }
    }
    LeadingUnique(u, |u|);
  }

  lemma {:induction false} TrimOfPaddedText(before: string, s: string, after: string)
    requires AllSpace(before) && AllSpace(after) && LeadingSpaces(s) < |s|
    ensures Trim(before + s + after) == Trim(s)
  {
    LeadingOfPadded(before, s, after);
    TrailingOfPadded(before, s, after);
    MiddleSlice(before, s, after, 0, |s|);
    TrimOfEmbedded(before + s + after, s, |before|);
  }

  /**
   * If `s` sits at offset `off` of `u` and the white space at either end of
   * `u` reaches exactly as far as that at the ends of `s`, both trim alike.
   */
  lemma {:induction false} TrimOfEmbedded(u: string, s: string, off: nat)
    requires off + |s| <= |u| && u[off..off + |s|] == s[0..|s|]
    requires LeadingSpaces(s) < |s|
    requires LeadingSpaces(u) == off + LeadingSpaces(s)
    requires TrailingSpaces(u) == |u| - (off + |s|) + TrailingSpaces(s)
    ensures Trim(u) == Trim(s)
  {
    var k, e := LeadingSpaces(s), |s| - TrailingSpaces(s);
    TrimIsSlice(u, off + k, off + e);
    TrimIsSlice(s, k, e);
    SliceOfSlice(u, s, off, k, e);
  }

  lemma {:induction false} SliceOfSlice(u: string, s: string, off: nat, a: nat, b: nat)
    requires off + |s| <= |u| && u[off..off + |s|] == s[0..|s|] && a <= b <= |s|
    ensures u[off + a..off + b] == s[a..b]
  {
    forall i | 0 <= i < b - a ensures u[off + a..off + b][i] == s[a..b][i] {
      assert u[off + a + i] == u[off..off + |s|][a + i];
    }
  }

  lemma {:induction false} TrimIsSlice(s: string, lo: nat, hi: nat)
    requires LeadingSpaces(s) == lo < |s| && |s| - TrailingSpaces(s) == hi
    ensures lo <= hi && Trim(s) == s[lo..hi]
  {
  }

  lemma {:induction false} LeadingOfPadded(before: string, s: string, after: string)
    requires AllSpace(before) && LeadingSpaces(s) < |s|
    ensures LeadingSpaces(before + s + after) == |before| + LeadingSpaces(s)
  {
    var u := before + s + after;
    var k := LeadingSpaces(s);
    forall i | 0 <= i < |before| + k ensures IsSpace(u[i]) {
      if i < |before| {
        assert u[i] == before[i];
      } else {
        assert u[i] == s[i - |before|];
      }
    }
    assert u[|before| + k] == s[k];
    LeadingUnique(u, |before| + k);
  }

  lemma {:induction false} TrailingOfPadded(before: string, s: string, after: string)
    requires AllSpace(after) && LeadingSpaces(s) < |s|
    ensures TrailingSpaces(before + s + after) == |after| + TrailingSpaces(s)
  {
    var u := before + s + after;
    var m := |before| + |s|;
    var t := TrailingSpaces(s);
    forall i | |u| - (|after| + t) <= i < |u| ensures IsSpace(u[i]) {
      if i < m {
        assert u[i] == s[i - |before|];
      } else {
        assert u[i] == after[i - m];
      }
    }
    assert t < |s|;
    assert u[|u| - (|after| + t) - 1] == s[|s| - t - 1];
    TrailingUnique(u, |after| + t);
  }

  lemma {:induction false} MiddleSlice(before: string, s: string, after: string, a: nat, b: nat)
    requires a <= b <= |s|
    ensures (before + s + after)[|before| + a..|before| + b] == s[a..b]
  {
    var w := (before + s + after)[|before| + a..|before| + b];
    assert forall i :: 0 <= i < |w| ==> w[i] == s[a + i];
  }

  /** Trimming twice is trimming once. */
  lemma {:induction false} TrimIdempotent(s: string)
    ensures Trim(Trim(s)) == Trim(s)
  {
    var r := Trim(s);
    if r != [] {
      LeadingUnique(r, 0);
      TrailingUnique(r, 0);
      assert r[0..|r|] == r;
    }
  }

  /** The lower-case form of an ASCII capital; every other character is kept. */
  function LowerChar(c: char): (d: char)
  {
    if 'A' <= c <= 'Z' then (c as int - 'A' as int + 'a' as int) as char else c
  }

  predicate IsUpper(c: char)
  {
    'A' <= c <= 'Z'
  }

  /** `String.prototype.toLowerCase` on ASCII letters. */
  function ToLower(s: string): (r: string)
    ensures |r| == |s|
    ensures forall i :: 0 <= i < |s| ==> !IsUpper(r[i])
    ensures forall i :: 0 <= i < |s| && !IsUpper(s[i]) ==> r[i] == s[i]
    ensures forall i :: 0 <= i < |s| && IsUpper(s[i]) ==> r[i] as int == s[i] as int - 'A' as int + 'a' as int
  {
    seq(|s|, i requires 0 <= i < |s| => LowerChar(s[i]))
  }

  /** `replace(/\s/g, '')`: every white-space character removed, the rest kept in order. */
  function StripSpaces(s: string): (r: string)
    ensures NoSpace(r)
    ensures |r| <= |s|
  {
    if s == [] then []
    else if IsSpace(s[0]) then StripSpaces(s[1..])
    else [s[0]] + StripSpaces(s[1..])
  }

  /** `replace(/\s/g, '')` distributes over concatenation. */
  lemma {:induction false} StripSpacesAppend(a: string, b: string)
    ensures StripSpaces(a + b) == StripSpaces(a) + StripSpaces(b)
    decreases |a|
  {
    if a == [] {
      assert a + b == b;
    } else {
      assert (a + b)[0] == a[0];
      assert (a + b)[1..] == a[1..] + b;
      StripSpacesAppend(a[1..], b);
    }
  }

  /** A string with no white space is left as it is. */
  lemma {:induction false} StripSpacesOfNoSpace(s: string)
    requires NoSpace(s)
    ensures StripSpaces(s) == s
    decreases |s|
  {
    if s != [] {
      StripSpacesOfNoSpace(s[1..]);
    }
  }

  /** A string of nothing but white space is removed entirely. */
  lemma {:induction false} StripSpacesOfAllSpace(s: string)
    requires AllSpace(s)
    ensures StripSpaces(s) == []
    decreases |s|
  {
    if s != [] {
      StripSpacesOfAllSpace(s[1..]);
    }
  }

  /** Stripping white space, then a word after some white space, adds just the word. */
  lemma {:induction false} StripSpacesAppendPadded(x: string, pad: string, word: string)
    requires AllSpace(pad) && NoSpace(word)
    ensures StripSpaces(x + pad + word) == StripSpaces(x) + word
  {
    StripSpacesAppend(x + pad, word);
    StripSpacesAppend(x, pad);
    StripSpacesOfAllSpace(pad);
    StripSpacesOfNoSpace(word);
  }

  /** Removing white space twice is removing it once. */
  lemma {:induction false} StripSpacesIdempotent(s: string)
    ensures StripSpaces(StripSpaces(s)) == StripSpaces(s)
  {
    StripSpacesOfNoSpace(StripSpaces(s));
  }

  /** Inserting one white-space character anywhere does not change the stripped string. */
  lemma {:induction false} StripSpacesIgnoresInsertedSpace(a: string, c: char, b: string)
    requires IsSpace(c)
    ensures StripSpaces(a + [c] + b) == StripSpaces(a + b)
  {
    StripSpacesAppend(a + [c], b);
    StripSpacesAppend(a, [c]);
    StripSpacesAppend(a, b);
    assert StripSpaces([c]) == [];
  }
}
