/**
 * The string operations the chat core uses: `sep.join(parts)`,
 * `s.split('/')[0]` and ASCII `str.upper()`.
 */
module Text {

  /** `needle` occurs in `hay` starting at index `k`. */
  predicate OccursAt(needle: string, hay: string, k: nat) {
    k + |needle| <= |hay| && hay[k..k + |needle|] == needle
  }

  /** `needle` is a substring of `hay`. */
  ghost predicate Contains(hay: string, needle: string) {
    exists k: nat :: OccursAt(needle, hay, k)
  }

  /** An occurrence inside an occurrence is an occurrence in the outer string. */
  lemma OccursAtNested(x: string, mid: string, hay: string, i: nat, j: nat)
    requires OccursAt(x, mid, i) && OccursAt(mid, hay, j)
    ensures OccursAt(x, hay, j + i)
  {
    forall k | 0 <= k < |x|
      ensures hay[j + i + k] == x[k]
    {
      assert hay[j..j + |mid|][i + k] == mid[i + k];
      assert mid[i..i + |x|][k] == mid[i + k];
    }
  }

  /** Python's `sep.join(parts)`. */
  function Join(sep: string, parts: seq<string>): string
  {
    if |parts| == 0 then ""
    else if |parts| == 1 then parts[0]
    else parts[0] + sep + Join(sep, parts[1..])
  }

  /** Index in `Join(sep, parts)` at which `parts[i]` begins. */
  function JoinOffset(sep: string, parts: seq<string>, i: nat): nat
    requires i < |parts|
  {
    if i == 0 then 0 else |parts[0]| + |sep| + JoinOffset(sep, parts[1..], i - 1)
  }

  /** Every part appears verbatim in the joined string, at its offset. */
  lemma {:induction false} JoinPlacesPart(sep: string, parts: seq<string>, i: nat)
    requires i < |parts|
    ensures OccursAt(parts[i], Join(sep, parts), JoinOffset(sep, parts, i))
  {
    if i == 0 {
      if |parts| > 1 {
        assert Join(sep, parts) == parts[0] + (sep + Join(sep, parts[1..]));
      }
    } else {
      var rest := parts[1..];
      JoinPlacesPart(sep, rest, i - 1);
      var j := Join(sep, rest);
      var o := JoinOffset(sep, rest, i - 1);
      var pre := parts[0] + sep;
      assert Join(sep, parts) == pre + j;
      assert rest[i - 1] == parts[i];
      assert (pre + j)[|pre| + o..|pre| + o + |parts[i]|] == j[o..o + |parts[i]|];
    }
  }

  /** Between part `i` and part `i + 1` the join holds exactly one separator. */
  lemma {:induction false} JoinPlacesSeparator(sep: string, parts: seq<string>, i: nat)
    requires i + 1 < |parts|
    ensures OccursAt(sep, Join(sep, parts), JoinOffset(sep, parts, i) + |parts[i]|)
  {
    var rest := parts[1..];
    var pre := parts[0] + sep;
    assert Join(sep, parts) == pre + Join(sep, rest);
    if i == 0 {
      assert (pre + Join(sep, rest))[|parts[0]|..|parts[0]| + |sep|] == sep;
    } else {
      JoinPlacesSeparator(sep, rest, i - 1);
      var j := Join(sep, rest);
      var o := JoinOffset(sep, rest, i - 1) + |rest[i - 1]|;
      assert rest[i - 1] == parts[i];
      assert (pre + j)[|pre| + o..|pre| + o + |sep|] == j[o..o + |sep|];
    }
  }

  /** The join ends where its last part ends: nothing follows the last part. */
  lemma {:induction false} JoinLength(sep: string, parts: seq<string>)
    requires |parts| > 0
    ensures |Join(sep, parts)| == JoinOffset(sep, parts, |parts| - 1) + |parts[|parts| - 1]|
  {
    if |parts| > 1 {
      var rest := parts[1..];
      JoinLength(sep, rest);
      assert rest[|rest| - 1] == parts[|parts| - 1];
    }
  }

  /** Consequently every part is a substring of the join. */
  lemma JoinContainsEveryPart(sep: string, parts: seq<string>)
    ensures forall i :: 0 <= i < |parts| ==> Contains(Join(sep, parts), parts[i])
  {
    forall i | 0 <= i < |parts|
      ensures Contains(Join(sep, parts), parts[i])
    {
      JoinPlacesPart(sep, parts, i);
    }
  }

  /**
   * Python's `s.split('/')[0]`: the text before the first '/', or the
   * whole string when it has none.
   */
  function BeforeFirstSlash(s: string): (r: string)
    ensures |r| <= |s| && r == s[..|r|]
    ensures '/' !in r
    ensures |r| < |s| ==> s[|r|] == '/'
  {
    if s == [] then []
    else if s[0] == '/' then []
    else [s[0]] + BeforeFirstSlash(s[1..])
  }

  /**
   * Splitting `head + "/" + tail` on its first slash gives back `head`
   * when `head` itself has no slash.
   */
  lemma BeforeFirstSlashOfJoined(head: string, tail: string)
    requires '/' !in head
    ensures BeforeFirstSlash(head + "/" + tail) == head
  {
    var s := head + "/" + tail;
    assert forall i :: 0 <= i < |head| ==> s[i] == head[i];
    assert s[|head|] == '/';
  }

  /** Python's `c.upper()` restricted to ASCII. */
  function UpperChar(c: char): char {
    if 'a' <= c <= 'z' then (c as int - 32) as char else c
  }

  /** Python's `s.upper()` restricted to ASCII. */
  function Upper(s: string): string {
    if s == [] then [] else [UpperChar(s[0])] + Upper(s[1..])
  }

  predicate IsLowerAscii(c: char) { 'a' <= c <= 'z' }

  /**
   * Upper-casing keeps the length, moves each lower-case letter to its
   * capital (32 code points down), keeps every other character and leaves
   * no lower-case letter behind.
   */
  lemma {:induction false} UpperShape(s: string)
    ensures |Upper(s)| == |s|
    ensures forall i :: 0 <= i < |s| ==> !IsLowerAscii(Upper(s)[i])
    ensures forall i :: 0 <= i < |s| && !IsLowerAscii(s[i]) ==> Upper(s)[i] == s[i]
    ensures forall i :: 0 <= i < |s| && IsLowerAscii(s[i]) ==> Upper(s)[i] as int == s[i] as int - 32
  {
    if s != [] {
      UpperShape(s[1..]);
      assert forall i :: 1 <= i < |s| ==> Upper(s)[i] == Upper(s[1..])[i - 1];
    }
  }

  /** Upper-casing twice is upper-casing once. */
  lemma {:induction false} UpperIdempotent(s: string)
    ensures Upper(Upper(s)) == Upper(s)
  {
    if s != [] {
      UpperIdempotent(s[1..]);
      assert Upper(s)[1..] == Upper(s[1..]);
    }
  }
}
