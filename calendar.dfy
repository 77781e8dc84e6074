/** The content calendar page: a fixed list of scheduled posts, a platform
    selector that filters it ('all' or one lower-case platform name), and the
    draft marking of each post's card. The selected calendar day does not
    take part in the filtering. */
module Calendar {
  import opened Text
  import opened Seqs

  /** A scheduled post. `monthIndex` is JavaScript's zero-based month. */
  datatype CalendarPost = CalendarPost(
    id: int,
    title: string,
    platform: string,
    year: int,
    monthIndex: int,
    day: int,
    time: string,
    status: string)

  /** `scheduledPosts`, the page's constant list. */
  const ScheduledPosts: seq<CalendarPost> := [
    CalendarPost(1, "Social Media Strategy 2025", "LinkedIn", 2025, 3, 15, "10:00 AM", "scheduled"),
    CalendarPost(2, "Tech Trends Analysis", "Twitter", 2025, 3, 16, "2:30 PM", "draft"),
    CalendarPost(3, "Industry Insights Report", "LinkedIn", 2025, 3, 17, "11:00 AM", "scheduled")
  ]

  /** The initial value of `selectedPlatform`. */
  const InitialPlatform: string := "all"

  /** The filter test of `filteredPosts`. */
  predicate Shown(selected: string, post: CalendarPost)
  {
    selected == "all" || Lower(post.platform) == selected
  }

  function ShownFor(selected: string): CalendarPost -> bool
  {
    (post: CalendarPost) => Shown(selected, post)
  }

  /** `filteredPosts`. */
  function FilteredPosts(posts: seq<CalendarPost>, selected: string): seq<CalendarPost>
  {
    Filter(posts, ShownFor(selected))
  }

  /** A post is listed exactly when the selection is 'all' or equals its
      lower-cased platform; the list keeps the original order. */
  lemma FilteredPostsSpec(posts: seq<CalendarPost>, selected: string)
    ensures forall p :: (p in FilteredPosts(posts, selected)
                         <==> p in posts && (selected == "all" || Lower(p.platform) == selected))
    ensures forall p :: multiset(FilteredPosts(posts, selected))[p]
                        == if Shown(selected, p) then multiset(posts)[p] else 0
    ensures IsSubsequence(FilteredPosts(posts, selected), posts)
  {
    forall p
      ensures p in FilteredPosts(posts, selected) <==> p in posts && (selected == "all" || Lower(p.platform) == selected)
      ensures multiset(FilteredPosts(posts, selected))[p] == if Shown(selected, p) then multiset(posts)[p] else 0
    {
      FilterMembership(posts, ShownFor(selected), p);
      FilterCount(posts, ShownFor(selected), p);
    }
    FilterIsSubsequence(posts, ShownFor(selected));
  }

  /** The selection 'all' lists every post. */
  lemma AllShowsEveryPost(posts: seq<CalendarPost>)
    ensures FilteredPosts(posts, "all") == posts
  {
    FilterKeepsAll(posts, ShownFor("all"));
  }

  /** Before the selector is touched, the page lists all its posts. */
  lemma InitiallyAllShown()
    ensures FilteredPosts(ScheduledPosts, InitialPlatform) == ScheduledPosts
  {
    AllShowsEveryPost(ScheduledPosts);
  }

  /** Only the post's platform is lower-cased, so a selection other than
      'all' that holds an upper-case letter lists nothing. */
  lemma UpperCaseSelectionShowsNothing(posts: seq<CalendarPost>, selected: string, i: int)
    requires selected != "all"
    requires 0 <= i < |selected| && IsUpper(selected[i])
    ensures FilteredPosts(posts, selected) == []
  {
    forall k | 0 <= k < |posts|
      ensures !ShownFor(selected)(posts[k])
    {
      LowerHasNoUpper(posts[k].platform);
      assert |Lower(posts[k].platform)| == |selected| ==> !IsUpper(Lower(posts[k].platform)[i]);
    }
    FilterKeepsNone(posts, ShownFor(selected));
  }

  lemma LowerLinkedIn()
    ensures Lower("LinkedIn") == "linkedin"
  {
    var r := Lower("LinkedIn");
    assert r[0] == 'l' && r[5] == 'd' && r[6] == 'i';
    assert forall i :: 0 <= i < |r| ==> r[i] == "linkedin"[i];
  }

  lemma LowerTwitter()
    ensures Lower("Twitter") == "twitter"
  {
    var r := Lower("Twitter");
    assert r[0] == 't';
    assert forall i :: 0 <= i < |r| ==> r[i] == "twitter"[i];
  }

  lemma FilterOfThree(a: CalendarPost, b: CalendarPost, c: CalendarPost, keep: CalendarPost -> bool)
    ensures Filter([a, b, c], keep)
      == (if keep(a) then [a] else []) + (if keep(b) then [b] else []) + (if keep(c) then [c] else [])
  {
    assert [a, b, c][1..] == [b, c] && [b, c][1..] == [c] && [c][1..] == [];
    assert Filter([c], keep) == (if keep(c) then [c] else []);
    assert Filter([b, c], keep) == (if keep(b) then [b] else []) + Filter([c], keep);
  }

  /** Selecting LinkedIn lists the first and third posts. */
  lemma LinkedInChoice()
    ensures FilteredPosts(ScheduledPosts, "linkedin") == [ScheduledPosts[0], ScheduledPosts[2]]
  {
    LowerLinkedIn();
    LowerTwitter();
    var p0, p1, p2 := ScheduledPosts[0], ScheduledPosts[1], ScheduledPosts[2];
    var keep := ShownFor("linkedin");
    assert keep(p0) && !keep(p1) && keep(p2);
    FilterOfThree(p0, p1, p2, keep);
  }

  /** Selecting Twitter lists the second post, the draft. */
  lemma TwitterChoice()
    ensures FilteredPosts(ScheduledPosts, "twitter") == [ScheduledPosts[1]]
    ensures CardLookOf(ScheduledPosts[1]).draftBadge
  {
    LowerLinkedIn();
    LowerTwitter();
    var p0, p1, p2 := ScheduledPosts[0], ScheduledPosts[1], ScheduledPosts[2];
    var keep := ShownFor("twitter");
    assert !keep(p0) && keep(p1) && !keep(p2);
    FilterOfThree(p0, p1, p2, keep);
  }

  /** How a post's card is drawn. */
  datatype CardLook = CardLook(dashedBorder: bool, draftBadge: bool)

  /** The card gets a dashed border and a "Draft" badge for a draft post, and
      neither otherwise: the two marks always agree. */
  function CardLookOf(post: CalendarPost): CardLook
  {
    CardLook(post.status == "draft", post.status == "draft")
  }

  function Badged(): CalendarPost -> bool
  {
    (post: CalendarPost) => CardLookOf(post).draftBadge
  }

  function Dashed(): CalendarPost -> bool
  {
    (post: CalendarPost) => CardLookOf(post).dashedBorder
  }

  function ListedDraft(selected: string): CalendarPost -> bool
  {
    (post: CalendarPost) => Shown(selected, post) && post.status == "draft"
  }

  /** Among the cards rendered for `filteredPosts`, those with the "Draft"
      badge, and equally those with the dashed border, are exactly the drafts
      that the selection lets through, in the page's order. */
  lemma BadgedCardsAreListedDrafts(posts: seq<CalendarPost>, selected: string)
    ensures Filter(FilteredPosts(posts, selected), Badged()) == Filter(posts, ListedDraft(selected))
    ensures Filter(FilteredPosts(posts, selected), Dashed()) == Filter(posts, ListedDraft(selected))
  {
    FilterFilter(posts, ShownFor(selected), Badged(), ListedDraft(selected));
    FilterFilter(posts, ShownFor(selected), Dashed(), ListedDraft(selected));
  }

  /** On the page as first shown, only the second post's card carries the badge. */
  lemma InitiallyOneBadgedCard()
    ensures Filter(FilteredPosts(ScheduledPosts, InitialPlatform), Badged()) == [ScheduledPosts[1]]
  {
    InitiallyAllShown();
    var p0, p1, p2 := ScheduledPosts[0], ScheduledPosts[1], ScheduledPosts[2];
    assert !Badged()(p0) && Badged()(p1) && !Badged()(p2);
    FilterOfThree(p0, p1, p2, Badged());
  }
}
