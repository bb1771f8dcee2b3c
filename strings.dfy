/**
 * The three string operations the recipe engine relies on, restricted to ASCII:
 * `toLowerCase`, `trim` and `includes` (substring search).
 */
module Strings {

  /** ASCII `toLowerCase` of one character: 'A'..'Z' become 'a'..'z', the rest is kept. */
  function LowerChar(c: char): (r: char)
    ensures 'A' <= c <= 'Z' ==> 'a' <= r <= 'z' && r as int == c as int + 32
    ensures !('A' <= c <= 'Z') ==> r == c
  {
    if 'A' <= c <= 'Z' then (c as int + 32) as char else c
  }

  /** `s.toLowerCase()`, character by character. */
  function Lower(s: string): (r: string)
    ensures |r| == |s|
    ensures forall i :: 0 <= i < |s| ==> r[i] == LowerChar(s[i])
  {
    seq(|s|, i requires 0 <= i < |s| => LowerChar(s[i]))
  }

  predicate IsLowerCase(s: string) {
    forall i :: 0 <= i < |s| ==> !('A' <= s[i] <= 'Z')
  }

  /** The whitespace `trim` removes, restricted to ASCII. */
  predicate IsSpace(c: char) {
    c == ' ' || c == '\t' || c == '\n' || c == '\r' || c == '\U{000C}' || c == '\U{000B}'
  }

  function TrimStart(s: string): (r: string)
    ensures |r| <= |s| && r == s[|s| - |r|..]
    ensures r == [] || !IsSpace(r[0])
    ensures forall i :: 0 <= i < |s| - |r| ==> IsSpace(s[i])
  {
    if |s| > 0 && IsSpace(s[0]) then TrimStart(s[1..]) else s
  }

  function TrimEnd(s: string): (r: string)
    ensures |r| <= |s| && r == s[..|r|]
    ensures r == [] || !IsSpace(r[|r| - 1])
    ensures forall i :: |r| <= i < |s| ==> IsSpace(s[i])
  {
    if |s| > 0 && IsSpace(s[|s| - 1]) then TrimEnd(s[..|s| - 1]) else s
  }

  /** `s.trim()`: leading and trailing whitespace removed. */
  /** `r` is `s` with `lo` whitespace characters cut from the front and only whitespace from the back. */
  ghost predicate TrimmedAt(s: string, r: string, lo: int) {
    0 <= lo && lo + |r| <= |s| && r == s[lo..lo + |r|]
    && (forall i :: 0 <= i < lo ==> IsSpace(s[i]))
    && (forall i :: lo + |r| <= i < |s| ==> IsSpace(s[i]))
  }

  /** `s.trim()`: leading and trailing whitespace removed. */
  function Trim(s: string): (r: string)
    ensures |r| <= |s|
    ensures r == [] || (!IsSpace(r[0]) && !IsSpace(r[|r| - 1]))
    ensures exists lo :: TrimmedAt(s, r, lo)
  {
    var t := TrimStart(s);
    var u := TrimEnd(t);
    assert u == [] || u[0] == t[0];
    SliceOfSlice(s, t, u, |s| - |t|);
    u
  }

  /** Cutting a whitespace prefix and then a whitespace suffix leaves a `TrimmedAt` slice. */
  lemma SliceOfSlice(s: string, t: string, u: string, lo: int)
    requires 0 <= lo <= |s| && t == s[lo..] && (forall i :: 0 <= i < lo ==> IsSpace(s[i]))
    requires |u| <= |t| && u == t[..|u|] && (forall i :: |u| <= i < |t| ==> IsSpace(t[i]))
    ensures TrimmedAt(s, u, lo)
  {
    forall i | lo + |u| <= i < |s| ensures IsSpace(s[i]) {
      assert s[i] == t[i - lo];
    }
  }

  /** A string made of whitespace only trims to "" from the start already. */
  lemma {:induction false} AllSpaceTrimStart(s: string)
    requires forall i :: 0 <= i < |s| ==> IsSpace(s[i])
    ensures TrimStart(s) == []
  {
    if |s| > 0 {
      assert IsSpace(s[0]);
      AllSpaceTrimStart(s[1..]);
    }
  }

  /** A string trims to "" exactly when every character of it is whitespace. */
  lemma TrimEmptyIff(s: string)
    ensures Trim(s) == [] <==> forall i :: 0 <= i < |s| ==> IsSpace(s[i])
  {
    var t := TrimStart(s);
    if Trim(s) == [] {
      assert t == [];
    }
    if forall i :: 0 <= i < |s| ==> IsSpace(s[i]) {
      AllSpaceTrimStart(s);
    }
  }

  /** Lower-casing never turns whitespace into non-whitespace or back. */
  lemma LowerKeepsSpace(c: char)
    ensures IsSpace(LowerChar(c)) <==> IsSpace(c)
  {
  }

  /** So `ing.trim()` is blank exactly when `ing.toLowerCase().trim()` is. */
  lemma TrimLowerEmptyIff(s: string)
    ensures Trim(Lower(s)) == [] <==> Trim(s) == []
  {
    TrimEmptyIff(s);
    TrimEmptyIff(Lower(s));
    forall i | 0 <= i < |s| ensures IsSpace(Lower(s)[i]) <==> IsSpace(s[i]) {
      LowerKeepsSpace(s[i]);
    }
  }

  /** Lower-casing leaves no upper-case letter. */
  lemma LowerIsLowerCase(s: string)
    ensures IsLowerCase(Lower(s))
  {
  }

  /** Trimming keeps a lower-case string lower-case. */
  lemma TrimKeepsLowerCase(s: string)
    requires IsLowerCase(s)
    ensures IsLowerCase(Trim(s))
  {
    var t := TrimStart(s);
    SliceKeepsLowerCase(s, |s| - |t|, |s|);
    SliceKeepsLowerCase(t, 0, |TrimEnd(t)|);
  }

  lemma SliceKeepsLowerCase(s: string, lo: int, hi: int)
    requires IsLowerCase(s) && 0 <= lo <= hi <= |s|
    ensures IsLowerCase(s[lo..hi])
  {
    forall i | 0 <= i < hi - lo ensures !('A' <= s[lo..hi][i] <= 'Z') {
      assert s[lo..hi][i] == s[lo + i];
    }
  }

  /** `hay.includes(needle)`: some suffix of `hay` starts with `needle`. */
  function Includes(hay: string, needle: string): bool
    decreases |hay|
  {
    needle <= hay || (|hay| > 0 && Includes(hay[1..], needle))
  }

  /** The positional definition of a substring. */
  ghost predicate OccursAt(hay: string, needle: string, i: int) {
    0 <= i && i + |needle| <= |hay| && hay[i..i + |needle|] == needle
  }

  /** An occurrence at position `i` makes `Includes` true. */
  lemma {:induction false} OccursIncluded(hay: string, needle: string, i: int)
    requires OccursAt(hay, needle, i)
    ensures Includes(hay, needle)
    decreases i
  {
    if i > 0 {
      assert hay[1..][i - 1..i - 1 + |needle|] == hay[i..i + |needle|];
      OccursIncluded(hay[1..], needle, i - 1);
    }
  }

  /** `Includes` true yields the position of an occurrence. */
  lemma {:induction false} IncludedOccurs(hay: string, needle: string) returns (i: int)
    requires Includes(hay, needle)
    ensures OccursAt(hay, needle, i)
    decreases |hay|
  {
    if needle <= hay {
      i := 0;
    } else {
      var j := IncludedOccurs(hay[1..], needle);
      assert hay[1..][j..j + |needle|] == hay[j + 1..j + 1 + |needle|];
      i := j + 1;
    }
  }

  /** `Includes` agrees with "occurs at some position", in both directions. */
  lemma IncludesIff(hay: string, needle: string)
    ensures Includes(hay, needle) <==> exists i :: OccursAt(hay, needle, i)
  {
    if Includes(hay, needle) {
      var i := IncludedOccurs(hay, needle);
    }
    if exists i :: OccursAt(hay, needle, i) {
      var i :| OccursAt(hay, needle, i);
      OccursIncluded(hay, needle, i);
    }
  }

  /** The empty string is included in every string. */
  lemma IncludesEmpty(hay: string)
    ensures Includes(hay, "")
  {
  }

  /** A needle longer than the haystack is never included. */
  lemma {:induction false} LongerNotIncluded(hay: string, needle: string)
    requires |hay| < |needle|
    ensures !Includes(hay, needle)
    decreases |hay|
  {
    if |hay| > 0 { LongerNotIncluded(hay[1..], needle); }
  }

  /** A needle with a character the haystack lacks is never included. */
  lemma {:induction false} AbsentCharNotIncluded(hay: string, needle: string, k: nat)
    requires k < |needle| && needle[k] !in hay
    ensures !Includes(hay, needle)
    decreases |hay|
  {
    if |hay| > 0 {
      assert needle[k] !in hay[1..];
      AbsentCharNotIncluded(hay[1..], needle, k);
    }
  }

  /** A needle with two adjacent characters that never stand side by side in the haystack is never included. */
  lemma {:induction false} AbsentPairNotIncluded(hay: string, needle: string, k: nat)
    requires k + 1 < |needle|
    requires forall i :: 0 <= i < |hay| - 1 ==> !(hay[i] == needle[k] && hay[i + 1] == needle[k + 1])
    ensures !Includes(hay, needle)
    decreases |hay|
  {
    if |hay| > 0 {
      if |needle| <= |hay| {
        assert !(hay[k] == needle[k] && hay[k + 1] == needle[k + 1]);
      }
      AbsentPairNotIncluded(hay[1..], needle, k);
    }
  }
}
