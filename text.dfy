/** The JavaScript string built-ins the gallery relies on: `toLowerCase`
    (ASCII letters only), `startsWith`, `includes` and `Array.prototype.join`. */
module Text {

  /** `c.toLowerCase()` for one character; only 'A'..'Z' are folded. */
  function LowerChar(c: char): (r: char)
    ensures !('A' <= r <= 'Z')
    ensures 'A' <= c <= 'Z' ==> r as int - c as int == 'a' as int - 'A' as int
    ensures !('A' <= c <= 'Z') ==> r == c
  {
    if 'A' <= c <= 'Z' then (c as int - 'A' as int + 'a' as int) as char else c
  }

  /** `s.toLowerCase()`, character by character. */
  function Lower(s: string): (r: string)
    ensures |r| == |s|
    ensures forall i :: 0 <= i < |r| ==> !('A' <= r[i] <= 'Z')
    ensures forall i :: 0 <= i < |s| && 'A' <= s[i] <= 'Z' ==> r[i] as int - s[i] as int == 'a' as int - 'A' as int
    ensures forall i :: 0 <= i < |s| && !('A' <= s[i] <= 'Z') ==> r[i] == s[i]
  {
    seq(|s|, i requires 0 <= i < |s| => LowerChar(s[i]))
  }

  /** `s.startsWith(prefix)` */
  predicate StartsWith(s: string, prefix: string)
    ensures StartsWith(s, prefix) <==> OccursAt(s, prefix, 0)
  {
    |prefix| <= |s| && s[..|prefix|] == prefix
  }

  /** `s` starts with `prefix` exactly when it is `prefix` followed by something. */
  lemma StartsWithConcat(s: string, prefix: string)
    ensures StartsWith(s, prefix) <==> exists t :: s == prefix + t
  {
    if StartsWith(s, prefix) {
      assert s == prefix + s[|prefix|..];
    }
  }

  /** `s.includes(q)`: `q` starts at the current position or somewhere further on. */
  predicate Includes(s: string, q: string)
    ensures Includes(s, q) ==> |q| <= |s|
    ensures StartsWith(s, q) ==> Includes(s, q)
    decreases |s|
  {
    StartsWith(s, q) || (|s| > 0 && Includes(s[1..], q))
  }

  /** `q` occurs in `s` starting at index `i`. */
  predicate OccursAt(s: string, q: string, i: int)
  {
    0 <= i && i + |q| <= |s| && s[i..i + |q|] == q
  }

  /** `parts.join(sep)`: the empty array joins to "", one part to itself. */
  function Join(parts: seq<string>, sep: string): (r: string)
    ensures |parts| == 0 ==> r == ""
    ensures |parts| > 0 ==> OccursAt(r, parts[0], 0)
    decreases |parts|
  {
    if |parts| == 0 then ""
    else if |parts| == 1 then parts[0]
    else parts[0] + sep + Join(parts[1..], sep)
  }

  /** Total length of all parts. */
  function SumLengths(parts: seq<string>): nat
    decreases |parts|
  {
    if |parts| == 0 then 0 else |parts[0]| + SumLengths(parts[1..])
  }

  /** Lower-casing twice is lower-casing once. */
  lemma LowerIdempotent(s: string)
    ensures Lower(Lower(s)) == Lower(s)
  {
    assert forall i :: 0 <= i < |s| ==> LowerChar(LowerChar(s[i])) == LowerChar(s[i]);
  }

  /** Lower-casing commutes with slicing. */
  lemma LowerSlice(s: string, i: int, j: int)
    requires 0 <= i <= j <= |s|
    ensures Lower(s)[i..j] == Lower(s[i..j])
  {
  }

  /** Dropping the first character moves every occurrence one place left. */
  lemma OccursAtTail(s: string, q: string, i: int)
    requires |s| > 0 && i >= 0
    ensures OccursAt(s, q, i + 1) <==> OccursAt(s[1..], q, i)
  {
    if 0 <= i && i + 1 + |q| <= |s| {
      assert s[i + 1..i + 1 + |q|] == s[1..][i..i + |q|];
    }
  }

  /** `includes` agrees with the index-based reading: some position holds `q`. */
  lemma {:induction false} IncludesIff(s: string, q: string)
    ensures Includes(s, q) <==> exists i :: OccursAt(s, q, i)
    decreases |s|
  {
    if StartsWith(s, q) {
      assert OccursAt(s, q, 0);
    } else if |s| == 0 {
      assert forall i :: !OccursAt(s, q, i);
    } else {
      IncludesIff(s[1..], q);
      if Includes(s[1..], q) {
        var j :| OccursAt(s[1..], q, j);
        OccursAtTail(s, q, j);
      } else if i :| OccursAt(s, q, i) {
        assert i != 0;
        OccursAtTail(s, q, i - 1);
        assert false;
      }
    }
  }

  /** The empty string is included in every string. */
  lemma IncludesEmpty(s: string)
    ensures Includes(s, "")
  {
    assert OccursAt(s, "", 0);
    IncludesIff(s, "");
  }

  /** Case-insensitive search finds at least what case-sensitive search finds. */
  lemma LowerPreservesIncludes(s: string, q: string)
    requires Includes(s, q)
    ensures Includes(Lower(s), Lower(q))
  {
    IncludesIff(s, q);
    var i :| OccursAt(s, q, i);
    LowerSlice(s, i, i + |q|);
    assert OccursAt(Lower(s), Lower(q), i);
    IncludesIff(Lower(s), Lower(q));
  }

  /** A joined string is as long as its parts plus one separator between each pair. */
  lemma {:induction false} JoinLength(parts: seq<string>, sep: string)
    requires |parts| > 0
    ensures |Join(parts, sep)| == SumLengths(parts) + (|parts| - 1) * |sep|
    decreases |parts|
  {
    if |parts| > 1 {
      JoinLength(parts[1..], sep);
      assert (|parts| - 1) * |sep| == (|parts| - 2) * |sep| + |sep|;
    }
  }

  /** The length of the first `n` parts, peeled at the front. */
  lemma SumLengthsPrefix(parts: seq<string>, n: nat)
    requires 0 < n <= |parts|
    ensures SumLengths(parts[..n]) == |parts[0]| + SumLengths(parts[1..][..n - 1])
  {
    assert parts[..n][1..] == parts[1..][..n - 1];
  }

  /** One more of `k` things of size `i - 1` makes `i` of them. */
  lemma MulStep(i: int, k: int)
    ensures i * k == (i - 1) * k + k
  {
  }

  /** A join of two or more parts is the first part, a separator and the join of the rest. */
  lemma JoinCons(parts: seq<string>, sep: string)
    requires |parts| > 1
    ensures Join(parts, sep) == parts[0] + (sep + Join(parts[1..], sep))
  {
  }

  /** An occurrence in `tail` is an occurrence in `head + tail`, `|head|` further on. */
  lemma OccursAtShift(head: string, tail: string, q: string, k: int)
    requires OccursAt(tail, q, k)
    ensures OccursAt(head + tail, q, |head| + k)
  {
    assert (head + tail)[|head| + k..|head| + k + |q|] == tail[k..k + |q|];
  }

  /** Part `i` sits in the joined string after the `i` earlier parts and `i` separators. */
  lemma {:induction false} JoinPartAt(parts: seq<string>, sep: string, i: nat)
    requires i < |parts|
    ensures OccursAt(Join(parts, sep), parts[i], SumLengths(parts[..i]) + i * |sep|)
    decreases |parts|
  {
    if i == 0 {
      assert SumLengths(parts[..0]) == 0;
    } else {
      var rest := parts[1..];
      var tail := Join(rest, sep);
      JoinCons(parts, sep);
      JoinPartAt(rest, sep, i - 1);
      var k := SumLengths(rest[..i - 1]) + (i - 1) * |sep|;
      OccursAtShift(sep, tail, parts[i], k);
      OccursAtShift(parts[0], sep + tail, parts[i], |sep| + k);
      SumLengthsPrefix(parts, i);
      MulStep(i, |sep|);
    }
  }

  /** Between part `i` and part `i + 1` the joined string holds exactly the separator. */
  lemma {:induction false} JoinSeparatorAt(parts: seq<string>, sep: string, i: nat)
    requires i + 1 < |parts|
    ensures OccursAt(Join(parts, sep), sep, SumLengths(parts[..i + 1]) + i * |sep|)
    decreases |parts|
  {
    var rest := parts[1..];
    var tail := Join(rest, sep);
    JoinCons(parts, sep);
    SumLengthsPrefix(parts, i + 1);
    if i == 0 {
      assert OccursAt(sep + tail, sep, 0);
      OccursAtShift(parts[0], sep + tail, sep, 0);
    } else {
      JoinSeparatorAt(rest, sep, i - 1);
      var k := SumLengths(rest[..i]) + (i - 1) * |sep|;
      OccursAtShift(sep, tail, sep, k);
      OccursAtShift(parts[0], sep + tail, sep, |sep| + k);
      MulStep(i, |sep|);
    }
  }
}
