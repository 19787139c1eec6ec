/** The comment list page (src/pages/CommentList.tsx): the content search
    applied to a blog's fetched comments, and the switching between text
    search and comment-id search. */
module CommentList {
  import opened Js
  import opened Seqs
  import opened Text

  datatype Comment = Comment(id: string, content: string)

  /** The lowercased content contains the lowercased query. `lower` stands
      for `toLowerCase`. */
  predicate ContentMatches(lower: string -> string, search: string, c: Comment) {
    Includes(lower(c.content), lower(search))
  }

  function ContentHas(lower: string -> string, search: string): Comment -> bool {
    (c: Comment) => ContentMatches(lower, search, c)
  }

  /** The list `fetchData` stores: the fetched comments (`|| []`), narrowed
      by the search text when there is one. */
  function CommentsShown(fetched: Option<seq<Comment>>, searchText: string,
                         lower: string -> string): (shown: seq<Comment>)
    ensures searchText == "" ==> shown == OrEmpty(fetched)
  {
    var list := OrEmpty(fetched);
    if searchText != "" then Filter(list, ContentHas(lower, searchText)) else list
  }

  /** The shown comments are an order-preserving subsequence of the fetched
      ones; with a search they are exactly those whose content matches, each
      as often as fetched. */
  lemma CommentsShownSpec(fetched: Option<seq<Comment>>, searchText: string, lower: string -> string)
    ensures SubsequenceOf(CommentsShown(fetched, searchText, lower), OrEmpty(fetched))
    ensures searchText != "" ==> forall c ::
      c in CommentsShown(fetched, searchText, lower) <==> c in OrEmpty(fetched) && ContentMatches(lower, searchText, c)
    ensures searchText != "" ==> forall c ::
      multiset(CommentsShown(fetched, searchText, lower))[c] ==
        if ContentMatches(lower, searchText, c) then multiset(OrEmpty(fetched))[c] else 0
  {
    var list := OrEmpty(fetched);
    if searchText != "" {
      FilterIsSubsequence(list, ContentHas(lower, searchText));
      forall c
        ensures c in CommentsShown(fetched, searchText, lower) <==> c in list && ContentMatches(lower, searchText, c)
        ensures multiset(CommentsShown(fetched, searchText, lower))[c] ==
                  if ContentMatches(lower, searchText, c) then multiset(list)[c] else 0
      {
        FilterMembership(list, ContentHas(lower, searchText), c);
        FilterMultiset(list, ContentHas(lower, searchText), c);
      }
    } else {
      SubsequenceOfSelf(list);
    }
  }

  // ---------------------------------------------------------------------
  // Page state

  datatype CommentPage = CommentPage(
    comments: seq<Comment>,
    selectedBlog: Option<string>,
    searchText: string,
    commentIdSearch: string)

  /** The data effect once its comment request settled: with a blog
      selected and an answer, the shown list replaces the comments;
      without a blog, or on failure, the comments stay. */
  function FetchData(s: CommentPage, outcome: Outcome<Option<seq<Comment>>>,
                     lower: string -> string): (r: CommentPage)
    ensures Truthy(s.selectedBlog) && outcome.Ok? ==>
      r == s.(comments := CommentsShown(outcome.value, s.searchText, lower))
    ensures !(Truthy(s.selectedBlog) && outcome.Ok?) ==> r == s
  {
    if Truthy(s.selectedBlog) && outcome.Ok? then s.(comments := CommentsShown(outcome.value, s.searchText, lower))
    else s
  }

  /** `handleSearch`: the text search is set and the id search cleared. */
  function HandleSearch(s: CommentPage, value: string): (r: CommentPage)
    ensures r.searchText == value && r.commentIdSearch == ""
    ensures r.comments == s.comments && r.selectedBlog == s.selectedBlog
  {
    s.(searchText := value, commentIdSearch := "")
  }

  /** `handleSearchByCommentId` once its request settled: the id search is
      set; with a blog selected the blog's comments are reloaded unfiltered
      (`|| []`), without one the list is emptied. A failed reload leaves
      the comments as they were. */
  function HandleSearchByCommentId(s: CommentPage, value: string,
                                   outcome: Outcome<Option<seq<Comment>>>): (r: CommentPage)
    ensures r.commentIdSearch == value && r.searchText == s.searchText && r.selectedBlog == s.selectedBlog
    ensures !Truthy(s.selectedBlog) ==> r.comments == []
    ensures Truthy(s.selectedBlog) && outcome.Ok? ==> r.comments == OrEmpty(outcome.value)
    ensures Truthy(s.selectedBlog) && outcome.Failed? ==> r.comments == s.comments
  {
    var s1 := s.(commentIdSearch := value);
    if !Truthy(s.selectedBlog) then s1.(comments := [])
    else match outcome
      case Ok(list) => s1.(comments := OrEmpty(list))
      case Failed => s1
  }

  /** A text search that changes a dependency of the data effect (the text,
      or an id search it clears) re-runs that effect. Once the effect
      settles with a blog selected, no id search is left, and the list
      holds exactly the fetched comments whose content matches, in fetched
      order, each as often as fetched. */
  lemma TextSearchShowsMatches(s: CommentPage, text: string, fetched: Option<seq<Comment>>,
                               lower: string -> string)
    requires Truthy(s.selectedBlog) && text != ""
    requires text != s.searchText || s.commentIdSearch != ""
    ensures var r := FetchData(HandleSearch(s, text), Ok(fetched), lower);
      && r.searchText == text && r.commentIdSearch == ""
      && SubsequenceOf(r.comments, OrEmpty(fetched))
      && (forall c :: c in r.comments <==> c in OrEmpty(fetched) && ContentMatches(lower, text, c))
      && (forall c :: multiset(r.comments)[c] ==
            if ContentMatches(lower, text, c) then multiset(OrEmpty(fetched))[c] else 0)
  {
    CommentsShownSpec(fetched, text, lower);
  }

  /** Repeating the current text search with no id search changes no
      dependency of the data effect: the state, comments included, stays as
      it was, and no new request is made. */
  lemma RepeatedSearchChangesNothing(s: CommentPage, text: string)
    requires text == s.searchText && s.commentIdSearch == ""
    ensures HandleSearch(s, text) == s
  {
  }

  /** An id search that changes the id sets off two requests: its own
      unfiltered reload, and the data effect that re-runs on the new id and
      applies the text search. The list shown is that of whichever settles
      last. */
  lemma IdSearchRace(s: CommentPage, id: string, reloaded: Option<seq<Comment>>,
                     refetched: Option<seq<Comment>>, lower: string -> string)
    requires Truthy(s.selectedBlog) && id != s.commentIdSearch
    ensures var effectFirst := FetchData(s.(commentIdSearch := id), Ok(refetched), lower);
      HandleSearchByCommentId(effectFirst, id, Ok(reloaded)).comments == OrEmpty(reloaded)
    ensures var handlerFirst := HandleSearchByCommentId(s, id, Ok(reloaded));
      FetchData(handlerFirst, Ok(refetched), lower).comments == CommentsShown(refetched, s.searchText, lower)
  {
  }
}
