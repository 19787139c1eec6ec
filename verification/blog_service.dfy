/** The query strings of the blog service (src/services/blog.service.ts):
    `getBlogs` and `getBlogComments` append a parameter only when its value
    is truthy, in a fixed order. A query is modelled as the list of its
    key/value pairs before URL encoding. */
module BlogService {
  import opened Js
  import opened Seqs
  import opened Text

  type Pairs = seq<(string, string)>

  /** The keys of a query, in order. */
  function Keys(q: Pairs): (ks: seq<string>)
    ensures |ks| == |q|
    ensures forall i :: 0 <= i < |q| ==> ks[i] == q[i].0
  {
    seq(|q|, i requires 0 <= i < |q| => q[i].0)
  }

  /** The value of the first pair with the key, as `URLSearchParams.get`
      reads it. */
  function Lookup(q: Pairs, key: string): (v: Option<string>)
    ensures v.None? <==> key !in Keys(q)
  {
    if |q| == 0 then None
    else if q[0].0 == key then Some(q[0].1)
    else
      assert Keys(q) == [q[0].0] + Keys(q[1..]);
      Lookup(q[1..], key)
  }

  // ---------------------------------------------------------------------
  // Appending the truthy parameters

  /** One `if (value) queryParams.append(key, text)` line: whether the
      value is truthy, the key, and the value's text. */
  datatype Candidate = Candidate(present: bool, key: string, text: string)

  /** The pairs the `if … append` lines produce, in line order. */
  function BuildQuery(cs: seq<Candidate>): (q: Pairs)
    ensures |q| <= |cs|
  {
    if |cs| == 0 then []
    else (if cs[0].present then [(cs[0].key, cs[0].text)] else []) + BuildQuery(cs[1..])
  }

  function CandidateKeys(cs: seq<Candidate>): (ks: seq<string>)
    ensures |ks| == |cs|
    ensures forall i :: 0 <= i < |cs| ==> ks[i] == cs[i].key
  {
    seq(|cs|, i requires 0 <= i < |cs| => cs[i].key)
  }

  predicate DistinctKeys(cs: seq<Candidate>) {
    forall a, b :: 0 <= a < b < |cs| ==> cs[a].key != cs[b].key
  }

  /** The query's keys come in line order, each from one line. */
  lemma {:induction false} BuildQueryKeysInOrder(cs: seq<Candidate>)
    ensures SubsequenceOf(Keys(BuildQuery(cs)), CandidateKeys(cs))
    decreases |cs|
  {
    if |cs| > 0 {
      BuildQueryKeysInOrder(cs[1..]);
      var rest := BuildQuery(cs[1..]);
      assert CandidateKeys(cs)[1..] == CandidateKeys(cs[1..]);
      if cs[0].present {
        assert Keys(BuildQuery(cs)) == [cs[0].key] + Keys(rest);
        assert Keys(BuildQuery(cs))[1..] == Keys(rest);
      } else {
        assert BuildQuery(cs) == rest;
      }
    }
  }

  /** Every key of the query comes from some line. */
  lemma {:induction false} BuildQueryKeySource(cs: seq<Candidate>, key: string)
    ensures key in Keys(BuildQuery(cs)) ==> key in CandidateKeys(cs)
    decreases |cs|
  {
    if |cs| > 0 {
      var rest := BuildQuery(cs[1..]);
      BuildQueryKeySource(cs[1..], key);
      assert CandidateKeys(cs) == [cs[0].key] + CandidateKeys(cs[1..]);
      if cs[0].present {
        assert Keys(BuildQuery(cs)) == [cs[0].key] + Keys(rest);
      } else {
        assert BuildQuery(cs) == rest;
      }
    }
  }

  /** With distinct keys, reading a line's key from the query gives that
      line's text when its value was truthy, and nothing otherwise. */
  lemma {:induction false} BuildQueryLookup(cs: seq<Candidate>, i: nat)
    requires DistinctKeys(cs) && i < |cs|
    ensures Lookup(BuildQuery(cs), cs[i].key) == if cs[i].present then Some(cs[i].text) else None
    decreases |cs|
  {
    var key := cs[i].key;
    var rest := BuildQuery(cs[1..]);
    if i == 0 {
      if !cs[0].present {
        assert BuildQuery(cs) == rest;
        BuildQueryKeySource(cs[1..], key);
        assert key !in CandidateKeys(cs[1..]) by {
          forall j | 0 <= j < |cs[1..]|
            ensures CandidateKeys(cs[1..])[j] != key
          {
            assert cs[1..][j] == cs[j + 1];
          }
        }
      }
    } else {
      BuildQueryLookup(cs[1..], i - 1);
      assert cs[1..][i - 1] == cs[i];
      if cs[0].present {
        assert cs[0].key != key;
        assert BuildQuery(cs) == [(cs[0].key, cs[0].text)] + rest;
        assert BuildQuery(cs)[1..] == rest;
      } else {
        assert BuildQuery(cs) == rest;
      }
    }
  }

  /** A line with a truthy value is in the query, one without is not. */
  lemma KeyPresence(cs: seq<Candidate>, i: nat)
    requires DistinctKeys(cs) && i < |cs|
    ensures cs[i].key in Keys(BuildQuery(cs)) <==> cs[i].present
  {
    BuildQueryLookup(cs, i);
  }

  // ---------------------------------------------------------------------
  // getBlogs

  datatype BlogParams = BlogParams(
    page: Option<int>,
    limit: Option<int>,
    sortByLatest: Option<bool>,
    search: Option<string>,
    userId: Option<string>,
    id: Option<string>)

  /** A number parameter is appended when it is set and not 0. */
  function NumberPresent(n: Option<int>): bool {
    n.Some? && NumTruthy(n.value)
  }

  /** `n.toString()` for an integer. */
  function NumberText(n: Option<int>): string {
    if n.Some? then IntToDecimal(n.value) else ""
  }

  /** The six lines of `getBlogs`, in source order. */
  function BlogCandidates(p: BlogParams): (cs: seq<Candidate>)
    ensures |cs| == 6 && DistinctKeys(cs)
  {
    [ Candidate(NumberPresent(p.page), "page", NumberText(p.page)),
      Candidate(NumberPresent(p.limit), "limit", NumberText(p.limit)),
      Candidate(p.sortByLatest == Some(true), "sortByLatest", "true"),
      Candidate(Truthy(p.search), "search", p.search.GetOr("")),
      Candidate(Truthy(p.userId), "userId", p.userId.GetOr("")),
      Candidate(Truthy(p.id), "_id", p.id.GetOr("")) ]
  }

  /** The query of `getBlogs`; no params at all give an empty query. */
  function BlogsQuery(params: Option<BlogParams>): (q: Pairs)
    ensures params.None? ==> q == []
  {
    if params.None? then [] else BuildQuery(BlogCandidates(params.value))
  }

  const BlogKeyOrder: seq<string> := ["page", "limit", "sortByLatest", "search", "userId", "_id"]

  /** The keys appear in the fixed order page, limit, sortByLatest, search,
      userId, _id, each at most once. */
  lemma BlogsQueryOrder(p: BlogParams)
    ensures SubsequenceOf(Keys(BlogsQuery(Some(p))), BlogKeyOrder)
  {
    var cs := BlogCandidates(p);
    assert CandidateKeys(cs) == BlogKeyOrder;
    BuildQueryKeysInOrder(cs);
  }

  /** Each key is present exactly when its value is truthy (so page 0 and
      an empty search are left out); sortByLatest, when present, is the
      text 'true'. */
  lemma BlogsQueryPresence(p: BlogParams)
    ensures var ks := Keys(BlogsQuery(Some(p)));
      && ("page" in ks <==> NumberPresent(p.page))
      && ("limit" in ks <==> NumberPresent(p.limit))
      && ("sortByLatest" in ks <==> p.sortByLatest == Some(true))
      && ("search" in ks <==> Truthy(p.search))
      && ("userId" in ks <==> Truthy(p.userId))
      && ("_id" in ks <==> Truthy(p.id))
    ensures p.sortByLatest == Some(true) ==> Lookup(BlogsQuery(Some(p)), "sortByLatest") == Some("true")
  {
    var cs := BlogCandidates(p);
    KeyPresence(cs, 0);
    KeyPresence(cs, 1);
    KeyPresence(cs, 2);
    KeyPresence(cs, 3);
    KeyPresence(cs, 4);
    KeyPresence(cs, 5);
    BuildQueryLookup(cs, 2);
  }

  /** What a reader of the query sees: parameters that were left out are
      absent, and `sortByLatest` is only ever `true`. */
  function Normalize(p: BlogParams): BlogParams {
    BlogParams(
      if NumberPresent(p.page) then p.page else None,
      if NumberPresent(p.limit) then p.limit else None,
      if p.sortByLatest == Some(true) then Some(true) else None,
      OrUndefined(p.search), OrUndefined(p.userId), OrUndefined(p.id))
  }

  function ParseNumber(v: Option<string>): Option<int> {
    if v.Some? then ParseInt(v.value) else None
  }

  /** Reading the parameters back from a query. */
  function DecodeBlogsQuery(q: Pairs): BlogParams {
    BlogParams(
      ParseNumber(Lookup(q, "page")),
      ParseNumber(Lookup(q, "limit")),
      if Lookup(q, "sortByLatest") == Some("true") then Some(true) else None,
      Lookup(q, "search"), Lookup(q, "userId"), Lookup(q, "_id"))
  }

  /** Decoding the query of `getBlogs` gives back every truthy parameter
      unchanged and loses exactly the falsy ones. */
  lemma BlogsQueryRoundTrip(p: BlogParams)
    ensures DecodeBlogsQuery(BlogsQuery(Some(p))) == Normalize(p)
  {
    var cs := BlogCandidates(p);
    BuildQueryLookup(cs, 0);
    BuildQueryLookup(cs, 1);
    BuildQueryLookup(cs, 2);
    BuildQueryLookup(cs, 3);
    BuildQueryLookup(cs, 4);
    BuildQueryLookup(cs, 5);
    if p.page.Some? {
      IntRoundTrip(p.page.value);
    }
    if p.limit.Some? {
      IntRoundTrip(p.limit.value);
    }
  }

  // ---------------------------------------------------------------------
  // getBlogComments

  datatype PageParams = PageParams(page: Option<int>, limit: Option<int>)

  function CommentCandidates(p: PageParams): (cs: seq<Candidate>)
    ensures |cs| == 2 && DistinctKeys(cs)
  {
    [ Candidate(NumberPresent(p.page), "page", NumberText(p.page)),
      Candidate(NumberPresent(p.limit), "limit", NumberText(p.limit)) ]
  }

  /** The query of `getBlogComments`. */
  function CommentsQuery(params: Option<PageParams>): (q: Pairs)
    ensures params.None? ==> q == []
  {
    if params.None? then [] else BuildQuery(CommentCandidates(params.value))
  }

  /** Only page then limit, each when truthy, and each reads back as the
      number it was. */
  lemma CommentsQueryShape(p: PageParams)
    ensures SubsequenceOf(Keys(CommentsQuery(Some(p))), ["page", "limit"])
    ensures ParseNumber(Lookup(CommentsQuery(Some(p)), "page")) == if NumberPresent(p.page) then p.page else None
    ensures ParseNumber(Lookup(CommentsQuery(Some(p)), "limit")) == if NumberPresent(p.limit) then p.limit else None
  {
    var cs := CommentCandidates(p);
    assert CandidateKeys(cs) == ["page", "limit"];
    BuildQueryKeysInOrder(cs);
    BuildQueryLookup(cs, 0);
    BuildQueryLookup(cs, 1);
    if p.page.Some? {
      IntRoundTrip(p.page.value);
    }
    if p.limit.Some? {
      IntRoundTrip(p.limit.value);
    }
  }
}
