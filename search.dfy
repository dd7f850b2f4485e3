/** The search rule: a record is shown when its title, or one of its keywords,
    contains the query, all three lower-cased. */
module Search {
  import opened Text
  import opened Records
  import opened Subsequences

  /** One record against the query (`title.includes` or `keywords.some(...includes)`). */
  predicate Matches(img: ImageRecord, query: string)
    ensures query == "" ==> Matches(img, query)
  {
    var q := Lower(query);
    Includes(Lower(img.title), q) ||
    exists i :: 0 <= i < |img.keywords| && Includes(Lower(img.keywords[i]), q)
  }

  /** `images.filter(...)`: the matching records, in gallery order. */
  function Filter(images: seq<ImageRecord>, query: string): (r: seq<ImageRecord>)
    ensures IsSubsequence(r, images)
    ensures forall x :: x in r <==> x in images && Matches(x, query)
    decreases |images|
  {
    if images == [] then []
    else if Matches(images[0], query) then [images[0]] + Filter(images[1..], query)
    else Filter(images[1..], query)
  }

  /** Every matching record is kept as often as the gallery holds it, and no
      other record is kept. */
  lemma {:induction false} FilterCounts(images: seq<ImageRecord>, query: string, x: ImageRecord)
    ensures multiset(Filter(images, query))[x] ==
              if Matches(x, query) then multiset(images)[x] else 0
    decreases |images|
  {
    if images != [] {
      FilterCounts(images[1..], query, x);
      assert images == [images[0]] + images[1..];
    }
  }

  /** Searching a concatenation searches each part: records added later are
      found after the earlier ones, and a batch does not change which earlier
      records match. */
  lemma {:induction false} FilterAppend(a: seq<ImageRecord>, b: seq<ImageRecord>, query: string)
    ensures Filter(a + b, query) == Filter(a, query) + Filter(b, query)
    decreases |a|
  {
    if a == [] {
      assert a + b == b;
    } else {
      var ab := a + b;
      assert ab[0] == a[0] && ab[1..] == a[1..] + b;
      FilterAppend(a[1..], b, query);
      var rest := Filter(a[1..], query) + Filter(b, query);
      if Matches(a[0], query) {
        assert Filter(ab, query) == [a[0]] + rest;
        assert Filter(a, query) == [a[0]] + Filter(a[1..], query);
      } else {
        assert Filter(ab, query) == rest;
        assert Filter(a, query) == Filter(a[1..], query);
      }
    }
  }

  /** Searching for the empty query shows the whole gallery, as "show all" does. */
  lemma {:induction false} FilterEmptyQuery(images: seq<ImageRecord>)
    ensures Filter(images, "") == images
    decreases |images|
  {
    if images != [] {
      FilterEmptyQuery(images[1..]);
    }
  }

  /** Searching the result again with the same query changes nothing. */
  lemma {:induction false} FilterIdempotent(images: seq<ImageRecord>, query: string)
    ensures Filter(Filter(images, query), query) == Filter(images, query)
    decreases |images|
  {
    if images != [] {
      FilterIdempotent(images[1..], query);
    }
  }

  /** The case of the query does not matter. */
  lemma MatchesIgnoresQueryCase(img: ImageRecord, query: string)
    ensures Matches(img, query) <==> Matches(img, Lower(query))
  {
    LowerIdempotent(query);
  }

  /** A record whose title contains the query as typed is always found,
      whatever the case of either. */
  lemma MatchesTitle(img: ImageRecord, query: string)
    requires Includes(img.title, query)
    ensures Matches(img, query)
  {
    LowerPreservesIncludes(img.title, query);
  }
}
