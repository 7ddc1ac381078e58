/** The two functions of Go's `strings` package that the search relies on,
    restricted to ASCII. */
module Strings {

  predicate IsUpper(c: char) {
    'A' <= c <= 'Z'
  }

  /** ASCII lower-casing of one character; any other character is kept. */
  function LowerChar(c: char): (r: char)
    ensures !IsUpper(r)
    ensures IsUpper(c) ==> r as int == c as int + 32
    ensures !IsUpper(c) ==> r == c
  {
    if IsUpper(c) then (c as int + 32) as char else c
  }

  /** `strings.ToLower` on ASCII text. */
  function ToLower(s: string): (r: string)
    ensures |r| == |s|
  {
    if s == [] then [] else [LowerChar(s[0])] + ToLower(s[1..])
  }

  /** `ToLower` lower-cases each character where it stands. */
  lemma {:induction false} ToLowerAt(s: string)
    ensures forall i :: 0 <= i < |s| ==> ToLower(s)[i] == LowerChar(s[i])
  {
    if s != [] {
      ToLowerAt(s[1..]);
    }
  }

  /** `t` is the lower-case form of `s` when it lower-cases `s` letter by
      letter. */
  lemma LowerCaseOf(s: string, t: string)
    requires |s| == |t| && forall i :: 0 <= i < |s| ==> t[i] == LowerChar(s[i])
    ensures ToLower(s) == t
  {
    ToLowerAt(s);
  }

  /** `strings.Contains(hay, needle)`: `needle` occurs in `hay` at some
      offset. The empty needle occurs in every string, a longer needle in
      none. */
  predicate Contains(hay: string, needle: string)
    ensures needle == [] ==> Contains(hay, needle)
    ensures |needle| > |hay| ==> !Contains(hay, needle)
  {
    assert needle == [] ==> OccursAt(hay, needle, 0);
    exists i :: 0 <= i <= |hay| && OccursAt(hay, needle, i)
  }

  /** `needle` starts at offset `i` of `hay`. */
  predicate OccursAt(hay: string, needle: string, i: nat)
    requires i <= |hay|
  {
    needle <= hay[i..]
  }

  lemma {:induction false} ToLowerIdempotent(s: string)
    ensures ToLower(ToLower(s)) == ToLower(s)
  {
    var t := ToLower(s);
    ToLowerAt(s);
    ToLowerAt(t);
    assert forall i :: 0 <= i < |t| ==> ToLower(t)[i] == t[i];
  }

  /** Lower-casing both sides preserves an occurrence, so a case-sensitive
      match is always also a case-insensitive one. */
  lemma ContainsLowered(hay: string, needle: string)
    requires Contains(hay, needle)
    ensures Contains(ToLower(hay), ToLower(needle))
  {
    var i :| 0 <= i <= |hay| && OccursAt(hay, needle, i);
    var lh, ln := ToLower(hay), ToLower(needle);
    ToLowerAt(hay);
    ToLowerAt(needle);
    assert forall k :: 0 <= k < |ln| ==> ln[k] == lh[i..][k] by {
      forall k | 0 <= k < |ln| ensures ln[k] == lh[i..][k] {
        assert needle[k] == hay[i + k];
      }
    }
    assert OccursAt(lh, ln, i);
  }

  /** A needle holding a character the haystack lacks never occurs in it. */
  lemma MissingCharNotContained(hay: string, needle: string, c: char)
    requires c in needle && c !in hay
    ensures !Contains(hay, needle)
  {
    var j :| 0 <= j < |needle| && needle[j] == c;
    forall i | 0 <= i <= |hay| ensures !OccursAt(hay, needle, i) {
      if i + j < |hay| {
        assert hay[i..][j] != c;
      }
    }
  }
}
