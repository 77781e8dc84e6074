/** The saved-ideas page: a list of scraped ideas with a title search, pages of
    three ideas, Previous/Next buttons, a details popup with a delete action,
    and for every idea a text preview and at most seven hashtag buttons. */
module SavedIdeas {
  import opened Options
  import opened Text
  import opened Seqs

  datatype Idea = Idea(
    id: string,
    title: string,
    platform: string,
    author: string,
    createdAt: string,
    hashtags: string,
    selectedText: string,
    imageUrl: Option<string>)

  /** `ideasPerPage`: a state slot whose setter is never used. */
  const IdeasPerPage: nat := 3
  /** How many characters of an idea's text the card shows before "...". */
  const PreviewLength: nat := 150
  /** How many hashtag buttons a card shows at most. */
  const MaxHashtags: nat := 7

  // ---------------------------------------------------------------- search

  /** The search test: the lower-cased title includes the lower-cased query. */
  predicate TitleMatches(query: string, idea: Idea)
  {
    Contains(Lower(idea.title), Lower(query))
  }

  function MatchesQuery(query: string): Idea -> bool
  {
    (idea: Idea) => TitleMatches(query, idea)
  }

  /** `filteredIdeas`. */
  function FilteredIdeas(ideas: seq<Idea>, query: string): seq<Idea>
  {
    Filter(ideas, MatchesQuery(query))
  }

  /** The search keeps exactly the ideas whose title matches, each as often as
      it occurs, in their original order. */
  lemma FilteredIdeasSpec(ideas: seq<Idea>, query: string)
    ensures forall x :: x in FilteredIdeas(ideas, query) <==> x in ideas && TitleMatches(query, x)
    ensures forall x :: multiset(FilteredIdeas(ideas, query))[x]
                        == if TitleMatches(query, x) then multiset(ideas)[x] else 0
    ensures IsSubsequence(FilteredIdeas(ideas, query), ideas)
  {
    forall x
      ensures x in FilteredIdeas(ideas, query) <==> x in ideas && TitleMatches(query, x)
      ensures multiset(FilteredIdeas(ideas, query))[x] == if TitleMatches(query, x) then multiset(ideas)[x] else 0
    {
      FilterMembership(ideas, MatchesQuery(query), x);
      FilterCount(ideas, MatchesQuery(query), x);
    }
    FilterIsSubsequence(ideas, MatchesQuery(query));
  }

  /** The empty search box shows every idea. */
  lemma EmptyQueryKeepsAll(ideas: seq<Idea>)
    ensures FilteredIdeas(ideas, "") == ideas
  {
    forall k | 0 <= k < |ideas|
      ensures MatchesQuery("")(ideas[k])
    {
      ContainsEmpty(Lower(ideas[k].title));
    }
    FilterKeepsAll(ideas, MatchesQuery(""));
  }

  /** The search ignores the case of ASCII letters in the query. */
  lemma QueryCaseIgnored(ideas: seq<Idea>, query: string)
    ensures FilteredIdeas(ideas, Lower(query)) == FilteredIdeas(ideas, query)
  {
    LowerIdempotent(query);
    FilterSameTest(ideas, MatchesQuery(Lower(query)), MatchesQuery(query));
  }

  // ------------------------------------------------------------ pagination

  /** `indexOfLastIdea`. */
  function LastIndex(page: int): int
  {
    page * IdeasPerPage
  }

  /** `indexOfFirstIdea`. */
  function FirstIndex(page: int): int
  {
    LastIndex(page) - IdeasPerPage
  }

  /** `currentIdeas`: `filteredIdeas.slice(indexOfFirstIdea, indexOfLastIdea)`. */
  function CurrentIdeas(filtered: seq<Idea>, page: int): seq<Idea>
  {
    Slice(filtered, FirstIndex(page), LastIndex(page))
  }

  /** Page `page` shows the block of filtered ideas from `(page - 1) * 3` up to
      but excluding `min(page * 3, length)`: at most three ideas, and none once
      the block starts at or past the end. */
  lemma CurrentIdeasBlock(filtered: seq<Idea>, page: int)
    requires page >= 1
    ensures var first := (page - 1) * IdeasPerPage;
      CurrentIdeas(filtered, page)
        == if first >= |filtered| then [] else filtered[first..Min(page * IdeasPerPage, |filtered|)]
    ensures |CurrentIdeas(filtered, page)| <= IdeasPerPage
    ensures CurrentIdeas(filtered, page) == [] <==> (page - 1) * IdeasPerPage >= |filtered|
  {
    var first, last := FirstIndex(page), LastIndex(page);
    assert 0 <= first < last;
    SliceWithin(filtered, first, last);
  }

  /** The pages cover the filtered list: idea `i` is shown on page `i / 3 + 1`,
      at position `i % 3`. */
  lemma IdeaOnItsPage(filtered: seq<Idea>, i: int)
    requires 0 <= i < |filtered|
    ensures var page := i / IdeasPerPage + 1;
      i % IdeasPerPage < |CurrentIdeas(filtered, page)|
      && CurrentIdeas(filtered, page)[i % IdeasPerPage] == filtered[i]
  {
    var page := i / IdeasPerPage + 1;
    CurrentIdeasBlock(filtered, page);
    assert (page - 1) * IdeasPerPage == i - i % IdeasPerPage;
  }

  /** `disabled` of the Previous button. */
  predicate PreviousDisabled(page: int)
  {
    page == 1
  }

  /** `disabled` of the Next button. */
  predicate NextDisabled(page: int, filteredCount: nat)
  {
    page * IdeasPerPage >= filteredCount
  }

  /** When Next is enabled the current page is full and the next page is not empty. */
  lemma NextLeadsToNonEmptyPage(filtered: seq<Idea>, page: int)
    requires page >= 1
    requires !NextDisabled(page, |filtered|)
    ensures |CurrentIdeas(filtered, page)| == IdeasPerPage
    ensures CurrentIdeas(filtered, page + 1) != []
  {
    CurrentIdeasBlock(filtered, page);
    CurrentIdeasBlock(filtered, page + 1);
  }

  /** When Next is disabled no later page has anything to show. */
  lemma NoIdeasPastNext(filtered: seq<Idea>, page: int, later: int)
    requires page >= 1 && NextDisabled(page, |filtered|)
    requires later > page
    ensures CurrentIdeas(filtered, later) == []
  {
    CurrentIdeasBlock(filtered, later);
    assert (later - 1) * IdeasPerPage >= page * IdeasPerPage;
  }

  // ------------------------------------------------------------- the card

  /** The card's text: the whole text up to 150 characters, otherwise its
      first 150 characters followed by "...". */
  function Preview(text: string): (r: string)
    ensures |r| <= PreviewLength + 3
    ensures |text| <= PreviewLength ==> r == text
    ensures |text| > PreviewLength ==> |r| == PreviewLength + 3 && EndsWith(r, "...")
    ensures IsPrefix(text[..Min(|text|, PreviewLength)], r)
  {
    if |text| > PreviewLength then Slice(text, 0, PreviewLength) + "..." else text
  }

  /** `.map((hashtag) => hashtag.trim())`. */
  function TrimAll(pieces: seq<string>): (r: seq<string>)
    ensures |r| == |pieces|
    ensures forall k :: 0 <= k < |r| ==> r[k] == Trim(pieces[k])
  {
    if pieces == [] then [] else [Trim(pieces[0])] + TrimAll(pieces[1..])
  }

  /** The labels of the hashtag buttons: nothing for an empty `hashtags`
      string, otherwise its first seven comma-separated pieces, trimmed. */
  function HashtagLabels(hashtags: string): (r: seq<string>)
    ensures |r| <= MaxHashtags
    ensures hashtags == "" ==> r == []
  {
    if hashtags == "" then [] else TrimAll(Slice(Split(hashtags, ','), 0, MaxHashtags))
  }

  /** Label `k` is piece `k` of the comma split, trimmed; there are as many
      labels as pieces up to seven, and no label holds a comma or starts or
      ends with white space. */
  lemma HashtagLabelsSpec(hashtags: string)
    requires hashtags != ""
    ensures var pieces, labels := Split(hashtags, ','), HashtagLabels(hashtags);
      |labels| == Min(|pieces|, MaxHashtags)
      && forall k :: 0 <= k < |labels| ==>
           labels[k] == Trim(pieces[k]) && ',' !in labels[k] && IsTrimmed(labels[k])
  {
    var pieces, labels := Split(hashtags, ','), HashtagLabels(hashtags);
    forall k | 0 <= k < |labels|
      ensures labels[k] == Trim(pieces[k]) && ',' !in labels[k] && IsTrimmed(labels[k])
    {
      TrimSpec(pieces[k]);
    }
  }

  /** A hashtag string of at most seven pieces without surrounding white space
      comes back whole when its labels are joined with commas. */
  lemma HashtagLabelsRoundTrip(hashtags: string)
    requires hashtags != ""
    requires |Split(hashtags, ',')| <= MaxHashtags
    requires forall k :: 0 <= k < |Split(hashtags, ',')| ==> IsTrimmed(Split(hashtags, ',')[k])
    ensures HashtagLabels(hashtags) == Split(hashtags, ',')
    ensures Join(HashtagLabels(hashtags), ',') == hashtags
  {
    var pieces := Split(hashtags, ',');
    forall k | 0 <= k < |pieces|
      ensures Trim(pieces[k]) == pieces[k]
    {
      TrimOfTrimmed(pieces[k]);
    }
    JoinSplit(hashtags, ',');
  }

  lemma TrimOfTrimmed(s: string)
    requires IsTrimmed(s)
    ensures Trim(s) == s
  {
  }

  // -------------------------------------------------------------- delete

  function KeepsOtherIds(id: string): Idea -> bool
  {
    (idea: Idea) => idea.id != id
  }

  /** `prevIdees.filter((idee) => idee.id !== id)`. */
  function RemoveId(ideas: seq<Idea>, id: string): seq<Idea>
  {
    Filter(ideas, KeepsOtherIds(id))
  }

  /** Deleting removes every idea with that id and keeps each other idea as
      often as it occurred, in order. */
  lemma RemoveIdSpec(ideas: seq<Idea>, id: string)
    ensures forall x :: x in RemoveId(ideas, id) <==> x in ideas && x.id != id
    ensures forall x :: multiset(RemoveId(ideas, id))[x] == if x.id != id then multiset(ideas)[x] else 0
    ensures IsSubsequence(RemoveId(ideas, id), ideas)
  {
    forall x
      ensures x in RemoveId(ideas, id) <==> x in ideas && x.id != id
      ensures multiset(RemoveId(ideas, id))[x] == if x.id != id then multiset(ideas)[x] else 0
    {
      FilterMembership(ideas, KeepsOtherIds(id), x);
      FilterCount(ideas, KeepsOtherIds(id), x);
    }
    FilterIsSubsequence(ideas, KeepsOtherIds(id));
  }

  // ------------------------------------------------------------ the page

  /** The page's state slots: `scrapedData`, `selectedIdea`, `searchQuery`
      and `currentPage` (`ideasPerPage` is the constant `IdeasPerPage`). */
  class SavedIdeasPage {
    var scrapedData: seq<Idea>
    var selectedIdea: Option<Idea>
    var searchQuery: string
    var currentPage: int

    /** The page number stays at least 1 as long as only the enabled buttons move it. */
    ghost predicate Valid()
      reads this
    {
      currentPage >= 1
    }

    constructor ()
      ensures Valid()
      ensures scrapedData == [] && selectedIdea == None && searchQuery == "" && currentPage == 1
    {
      scrapedData := [];
      selectedIdea := None;
      searchQuery := "";
      currentPage := 1;
    }

    function Filtered(): seq<Idea>
      reads this
    {
      FilteredIdeas(scrapedData, searchQuery)
    }

    function Visible(): seq<Idea>
      reads this
    {
      CurrentIdeas(Filtered(), currentPage)
    }

    predicate CanGoPrevious()
      reads this
    {
      !PreviousDisabled(currentPage)
    }

    predicate CanGoNext()
      reads this
    {
      !NextDisabled(currentPage, |Filtered()|)
    }

    /** `fetchData` on mount: a response body replaces the list; a failed
        request or body leaves it as it was. */
    method Load(body: Option<seq<Idea>>)
      modifies this
      ensures scrapedData == if body.Some? then body.value else old(scrapedData)
      ensures selectedIdea == old(selectedIdea) && searchQuery == old(searchQuery)
      ensures currentPage == old(currentPage)
    {
      if body.Some? {
        scrapedData := body.value;
      }
    }

    /** `handleSeeMoreDetails`: opens the popup on `idea`. */
    method SeeMoreDetails(idea: Idea)
      modifies this`selectedIdea
      ensures selectedIdea == Some(idea)
    {
      selectedIdea := Some(idea);
    }

    /** `handleClosePopup`. */
    method ClosePopup()
      modifies this`selectedIdea
      ensures selectedIdea == None
    {
      selectedIdea := None;
    }

    /** Typing in the search box; the page number is not reset. */
    method SetSearchQuery(query: string)
      modifies this`searchQuery
      ensures searchQuery == query
    {
      searchQuery := query;
    }

    /** `handleDeleteIdea`: `deleted` is whether the DELETE request succeeded.
        Only then are the ideas with that id removed and the popup closed. */
    method DeleteIdea(id: string, deleted: bool)
      modifies this`scrapedData, this`selectedIdea
      ensures deleted ==> scrapedData == RemoveId(old(scrapedData), id) && selectedIdea == None
      ensures !deleted ==> scrapedData == old(scrapedData) && selectedIdea == old(selectedIdea)
    {
      if deleted {
        scrapedData := RemoveId(scrapedData, id);
        ClosePopup();
      }
    }

    /** `paginate`. */
    method Paginate(pageNumber: int)
      modifies this`currentPage
      ensures currentPage == pageNumber
    {
      currentPage := pageNumber;
    }

    /** A click on Previous, which can only happen while it is enabled. */
    method PreviousPage()
      requires Valid() && CanGoPrevious()
      modifies this`currentPage
      ensures Valid() && currentPage == old(currentPage) - 1
    {
      Paginate(currentPage - 1);
    }

    /** A click on Next, which can only happen while it is enabled: the page it
        leads to is never empty. */
    method NextPage()
      requires Valid() && CanGoNext()
      modifies this`currentPage
      ensures Valid() && currentPage == old(currentPage) + 1
      ensures Visible() != []
    {
      NextLeadsToNonEmptyPage(Filtered(), currentPage);
      Paginate(currentPage + 1);
    }
  }

  /** Changing the query keeps the page number, so a page that showed ideas
      can show none afterwards while the new query still matches some:
      four ideas on page 2 show the fourth; the query "b" matches one idea,
      which lives on page 1. */
  lemma QueryChangeCanEmptyPage()
    ensures var a, b := Idea("1", "a", "", "", "", "", "", None), Idea("2", "b", "", "", "", "", "", None);
      var ideas := [a, a, a, b];
      CurrentIdeas(FilteredIdeas(ideas, ""), 2) == [b]
      && FilteredIdeas(ideas, "b") == [b]
      && CurrentIdeas(FilteredIdeas(ideas, "b"), 2) == []
  {
    var a, b := Idea("1", "a", "", "", "", "", "", None), Idea("2", "b", "", "", "", "", "", None);
    var ideas := [a, a, a, b];
    EmptyQueryKeepsAll(ideas);
    assert !TitleMatches("b", a) by {
      assert Lower("a") == "a" && Lower("b") == "b";
      assert "a"[..1] == "a" && "a"[0] != "b"[0];
      assert !IsPrefix("b", "a");
      assert !Contains("a"[1..], "b");
    }
    assert TitleMatches("b", b) by {
      assert Lower("b") == "b";
      ContainsSelf("b");
    }
    var m := MatchesQuery("b");
    assert Filter([b], m) == [b];
    assert [a, b][1..] == [b];
    assert Filter([a, b], m) == [b];
    assert [a, a, b][1..] == [a, b];
    assert Filter([a, a, b], m) == [b];
    assert ideas[1..] == [a, a, b];
    assert FilteredIdeas(ideas, "b") == [b];
    CurrentIdeasBlock(FilteredIdeas(ideas, "b"), 2);
  }
}
