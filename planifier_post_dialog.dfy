/** The scheduling dialog: the post text with its toolbar edits, an ordered
    list of uploaded media URLs, a date and a time, and the submit handler that
    stores the scheduled post through the backend. */
module PlanifierPost {
  import opened Options
  import opened Text
  import opened Seqs
  import opened Http
  import opened PostEditing

  /** Outcome of `GET /auth/current-user`: the user's id, or a failure (a
      non-OK status, a transport error or an unreadable body all throw). */
  datatype UserLookup = CurrentUser(id: string) | LookupFailed

  /** The body of `POST /posts/add`. `date` and `time` are the raw input
      values; their conversion to ISO-8601 timestamps is not modelled. */
  datatype ScheduleRequest = ScheduleRequest(
    content: string,
    urls: seq<string>,
    date: string,
    time: string,
    userId: string,
    jointsUrls: seq<string>)

  /** How a click on "Planifier sur LinkedIn" ends. */
  datatype ScheduleResult =
    | DateTimeMissing  // alert asking for a date and a time; nothing is sent
    | ScheduleFailed   // alert 'Erreur lors de la planification'
    | NotCreated       // a 2xx status other than 201: nothing visible happens
    | Scheduled        // 201: the dialog closes and the form is cleared

  /** The status that counts as a stored post. */
  const Created: int := 201

  /** How the submit handler ends, from the form's date and time and the two
      request outcomes. */
  function ScheduleOutcome(date: string, time: string, user: UserLookup, response: AxiosOutcome): ScheduleResult
  {
    if date == "" || time == "" then DateTimeMissing
    else if user.LookupFailed? || Rejected(response) then ScheduleFailed
    else if response.status == Created then Scheduled
    else NotCreated
  }

  /** The form is cleared exactly when both inputs are filled, the user is
      known and the backend answers 201; a missing date or time always stops
      the handler before any request. */
  lemma ScheduleOutcomeSpec(date: string, time: string, user: UserLookup, response: AxiosOutcome)
    ensures ScheduleOutcome(date, time, user, response) == DateTimeMissing <==> date == "" || time == ""
    ensures ScheduleOutcome(date, time, user, response) == Scheduled
      <==> date != "" && time != "" && user.CurrentUser? && response == Received(Created)
  {
  }

  function KeepsOtherUrls(url: string): string -> bool
  {
    (u: string) => u != url
  }

  /** `prev.filter((mediaUrl) => mediaUrl !== url)`. */
  function RemoveUrl(urls: seq<string>, url: string): seq<string>
  {
    Filter(urls, KeepsOtherUrls(url))
  }

  /** Deleting a media URL removes every occurrence of it and keeps each other
      URL as often as it occurred, in order. */
  lemma RemoveUrlSpec(urls: seq<string>, url: string)
    ensures url !in RemoveUrl(urls, url)
    ensures forall u :: u != url ==> (u in RemoveUrl(urls, url) <==> u in urls)
    ensures forall u :: multiset(RemoveUrl(urls, url))[u] == if u == url then 0 else multiset(urls)[u]
    ensures |RemoveUrl(urls, url)| == |urls| - multiset(urls)[url]
    ensures IsSubsequence(RemoveUrl(urls, url), urls)
  {
    FilterMembership(urls, KeepsOtherUrls(url), url);
    forall u
      ensures u != url ==> (u in RemoveUrl(urls, url) <==> u in urls)
      ensures multiset(RemoveUrl(urls, url))[u] == if u == url then 0 else multiset(urls)[u]
    {
      FilterMembership(urls, KeepsOtherUrls(url), u);
      FilterCount(urls, KeepsOtherUrls(url), u);
    }
    RemoveUrlLength(urls, url);
    FilterIsSubsequence(urls, KeepsOtherUrls(url));
  }

  /** Each deleted occurrence shortens the list by one. */
  lemma {:induction false} RemoveUrlLength(urls: seq<string>, url: string)
    ensures |RemoveUrl(urls, url)| == |urls| - multiset(urls)[url]
  {
    if urls != [] {
      RemoveUrlLength(urls[1..], url);
      assert urls == [urls[0]] + urls[1..];
      assert multiset(urls) == multiset([urls[0]]) + multiset(urls[1..]);
    }
  }

  /** Deleting a URL that is not in the list changes nothing. */
  lemma RemoveAbsentUrl(urls: seq<string>, url: string)
    requires url !in urls
    ensures RemoveUrl(urls, url) == urls
  {
    FilterKeepsAll(urls, KeepsOtherUrls(url));
  }

  /** `url.match(/\.(mp4|webm|ogg)$/i)`: the URL ends with one of the three
      video extensions, in any case. (For these letters the regular
      expression's case folding is exactly ASCII case folding.) */
  predicate IsVideo(url: string)
  {
    var lower := Lower(url);
    EndsWith(lower, ".mp4") || EndsWith(lower, ".webm") || EndsWith(lower, ".ogg")
  }

  datatype MediaKind = Video | Picture

  /** A media URL is shown in a `<video>` element or else in an `<img>`. */
  function KindOf(url: string): MediaKind
  {
    if IsVideo(url) then Video else Picture
  }

  /** The classification ignores the case of the URL. */
  lemma KindIgnoresCase(url: string)
    ensures KindOf(Lower(url)) == KindOf(url)
  {
    LowerIdempotent(url);
  }

  /** Any path ending in a video extension, written in any case, is a video. */
  lemma VideoExtensionIsVideo(path: string, ext: string)
    requires IsVideoExtension(Lower(ext))
    ensures KindOf(path + "." + ext) == Video
  {
    LowerEndsWithLowerExtension(path, ext);
    var e := "." + Lower(ext);
    assert EndsWith(Lower(path + "." + ext), e);
    assert e == ".mp4" || e == ".webm" || e == ".ogg";
  }

  /** The three extensions the regular expression accepts, lower-cased. */
  predicate IsVideoExtension(ext: string)
  {
    ext == "mp4" || ext == "webm" || ext == "ogg"
  }

  /** The URL has a dot at index `n` and, after it, a video extension in any case. */
  predicate VideoExtensionAt(url: string, n: int)
  {
    0 <= n < |url| && url[n] == '.' && IsVideoExtension(Lower(url[n + 1..]))
  }

  /** A URL is shown as a video exactly when it ends in a dot followed by one
      of the three video extensions, written in any case. */
  lemma VideoIffExtension(url: string)
    ensures KindOf(url) == Video <==> exists n :: VideoExtensionAt(url, n)
  {
    if KindOf(url) == Video {
      VideoHasExtension(url);
    }
    if exists n :: VideoExtensionAt(url, n) {
      var n :| VideoExtensionAt(url, n);
      ExtensionAtIsVideo(url, n);
    }
  }

  lemma VideoHasExtension(url: string)
    requires IsVideo(url)
    ensures VideoExtensionAt(url, |url| - 4) || VideoExtensionAt(url, |url| - 5)
  {
    var lower := Lower(url);
    if EndsWith(lower, ".mp4") {
      DotBeforeSuffix(url, ".mp4");
      assert ".mp4"[1..] == "mp4";
    } else if EndsWith(lower, ".webm") {
      DotBeforeSuffix(url, ".webm");
      assert ".webm"[1..] == "webm";
    } else {
      DotBeforeSuffix(url, ".ogg");
      assert ".ogg"[1..] == "ogg";
    }
  }

  lemma ExtensionAtIsVideo(url: string, n: int)
    requires VideoExtensionAt(url, n)
    ensures IsVideo(url)
  {
    assert url == url[..n] + "." + url[n + 1..];
    VideoExtensionIsVideo(url[..n], url[n + 1..]);
  }

  /** A lower-cased URL ending in a dot and some letters: the URL itself has
      the dot there, and what follows it lower-cases to those letters. */
  lemma DotBeforeSuffix(url: string, e: string)
    requires |e| >= 1 && e[0] == '.' && EndsWith(Lower(url), e)
    ensures var n := |url| - |e|; url[n] == '.' && Lower(url[n + 1..]) == e[1..]
  {
    var n := |url| - |e|;
    assert Lower(url)[n] == e[0];
    assert Lower(url[n + 1..]) == Lower(url)[n + 1..];
  }

  lemma LowerEndsWithLowerExtension(path: string, ext: string)
    ensures EndsWith(Lower(path + "." + ext), "." + Lower(ext))
  {
    LowerAppend(path + ".", ext);
    LowerAppend(path, ".");
    assert Lower(path + "." + ext) == Lower(path) + ("." + Lower(ext));
    EndsWithAppended(Lower(path), "." + Lower(ext));
  }

  lemma EndsWithAppended(s: string, x: string)
    ensures EndsWith(s + x, x)
  {
    assert (s + x)[|s|..] == x;
  }

  /** A path ending in ".png" is shown as a picture. */
  lemma PngIsPicture(path: string)
    ensures KindOf(path + ".png") == Picture
  {
    LowerAppend(path, ".png");
    var lower := Lower(path + ".png");
    assert lower[|lower| - 1] == 'g';
    assert lower[|lower| - 2] == 'n';
  }

  /** The dialog's state slots. (`data`, the emoji picker's catalogue, and the
      file input reference are not modelled.) */
  class PlanifierPostDialog {
    var postContent: string
    var mediaUrls: seq<string>
    var accessToken: Option<string>
    var linkUrl: string
    var showLinkInput: bool
    var isSuccessModalOpen: bool
    var isPlanifierDialogOpen: bool
    var scheduledDate: string
    var scheduledTime: string

    constructor (initialContent: string)
      ensures postContent == initialContent && mediaUrls == [] && accessToken == None
      ensures linkUrl == "" && !showLinkInput && !isSuccessModalOpen && !isPlanifierDialogOpen
      ensures scheduledDate == "" && scheduledTime == ""
    {
      postContent := initialContent;
      mediaUrls := [];
      accessToken := None;
      linkUrl := "";
      showLinkInput := false;
      isSuccessModalOpen := false;
      isPlanifierDialogOpen := false;
      scheduledDate := "";
      scheduledTime := "";
    }

    /** The mount effect: a non-empty stored 'linkedin_token' becomes the access token. */
    method Mount(storedToken: Option<string>)
      modifies this`accessToken
      ensures accessToken == if Truthy(storedToken) then storedToken else old(accessToken)
    {
      if Truthy(storedToken) {
        accessToken := storedToken;
      }
    }

    /** The dialog trigger and the dialog's own close control. */
    method SetDialogOpen(open: bool)
      modifies this`isPlanifierDialogOpen
      ensures isPlanifierDialogOpen == open
    {
      isPlanifierDialogOpen := open;
    }

    method SetScheduledDate(date: string)
      modifies this`scheduledDate
      ensures scheduledDate == date
    {
      scheduledDate := date;
    }

    method SetScheduledTime(time: string)
      modifies this`scheduledTime
      ensures scheduledTime == time
    {
      scheduledTime := time;
    }

    /** Typing in the text area. */
    method SetPostContent(value: string)
      modifies this`postContent
      ensures postContent == value
    {
      postContent := value;
    }

    /** `handlePostToLinkedIn`: `user` and `response` are the outcomes of the
        current-user lookup and of `POST /posts/add`. Returns the request body
        sent, if any, and how the handler ended. */
    method PostToLinkedIn(user: UserLookup, response: AxiosOutcome)
      returns (request: Option<ScheduleRequest>, result: ScheduleResult)
      modifies this`postContent, this`mediaUrls, this`scheduledDate, this`scheduledTime, this`isPlanifierDialogOpen
      ensures result == ScheduleOutcome(old(scheduledDate), old(scheduledTime), user, response)
      ensures request.Some? <==> old(scheduledDate) != "" && old(scheduledTime) != "" && user.CurrentUser?
      ensures request.Some? ==> request.value == ScheduleRequest(
        old(postContent), old(mediaUrls), old(scheduledDate), old(scheduledTime), user.id, old(mediaUrls))
      ensures result == Scheduled ==>
        !isPlanifierDialogOpen && postContent == "" && mediaUrls == [] && scheduledDate == "" && scheduledTime == ""
      ensures result != Scheduled ==>
        isPlanifierDialogOpen == old(isPlanifierDialogOpen) && postContent == old(postContent)
        && mediaUrls == old(mediaUrls) && scheduledDate == old(scheduledDate) && scheduledTime == old(scheduledTime)
    {
      if scheduledDate == "" || scheduledTime == "" {
        return None, DateTimeMissing;
      }
      if user.LookupFailed? {
        return None, ScheduleFailed;
      }
      request := Some(ScheduleRequest(postContent, mediaUrls, scheduledDate, scheduledTime, user.id, mediaUrls));
      if Rejected(response) {
        return request, ScheduleFailed;
      }
      if response.status == Created {
        isPlanifierDialogOpen := false;
        postContent := "";
        mediaUrls := [];
        scheduledDate := "";
        scheduledTime := "";
        result := Scheduled;
      } else {
        result := NotCreated;
      }
    }

    /** `handleMediaUpload`: `fileCount` files were chosen and `uploaded` is
        the `urls` of the upload response, or `None` when the upload failed.
        Returns whether the upload request was sent. */
    method MediaUpload(fileCount: nat, uploaded: Option<seq<string>>) returns (sent: bool)
      modifies this`mediaUrls
      ensures sent <==> fileCount > 0
      ensures mediaUrls == if sent && uploaded.Some? then old(mediaUrls) + uploaded.value else old(mediaUrls)
    {
      sent := fileCount > 0;
      if sent && uploaded.Some? {
        mediaUrls := mediaUrls + uploaded.value;
      }
    }

    /** `handleDeleteMedia`. */
    method DeleteMedia(url: string)
      modifies this`mediaUrls
      ensures mediaUrls == RemoveUrl(old(mediaUrls), url)
    {
      mediaUrls := RemoveUrl(mediaUrls, url);
    }

    /** `handleEmojiSelect`. */
    method EmojiSelect(native: string)
      modifies this`postContent
      ensures postContent == Apply(old(postContent), Emoji(native))
    {
      postContent := postContent + native;
    }

    /** `handleMentionUser`. */
    method MentionUser()
      modifies this`postContent
      ensures postContent == Apply(old(postContent), Mention)
    {
      postContent := postContent + " @user";
    }

    /** `handleAddLink`: nothing happens while the link is empty. (No control
        of this dialog sets `linkUrl`, so from the page it stays empty.) */
    method AddLink()
      modifies this`postContent, this`linkUrl, this`showLinkInput
      ensures postContent == Apply(old(postContent), Link(old(linkUrl)))
      ensures old(linkUrl) == "" ==> linkUrl == old(linkUrl) && showLinkInput == old(showLinkInput)
      ensures old(linkUrl) != "" ==> linkUrl == "" && !showLinkInput
    {
      if linkUrl != "" {
        postContent := postContent + " " + linkUrl;
        linkUrl := "";
        showLinkInput := false;
      }
    }
  }
}
