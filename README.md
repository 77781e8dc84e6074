# Social-media content dashboard: the client-side rules, in Dafny

The dashboard is a React client for curating scraped social-media ideas,
writing posts and scheduling or publishing them on LinkedIn. Almost all of its
state lives behind a REST backend; what the client itself decides is a handful
of small, sequential rules. This project models those rules and proves what
they promise:

- **Saved ideas** (`SavedIdeas`): the case-insensitive title search, pages of
  three ideas cut with JavaScript's `slice`, the Previous/Next enablement
  rules, delete-by-id, the 150-character text preview and the seven hashtag
  buttons. The page's state slots (`scrapedData`, `selectedIdea`,
  `searchQuery`, `currentPage`) are the fields of the class `SavedIdeasPage`.
- **Scheduling dialog** (`PlanifierPost`): the text edits, the ordered list of
  uploaded media URLs, the "date and time required" guard, the reset after a
  201 answer and the video/picture classification of media URLs.
- **Create-post dialog** (`CreatePost`): the LinkedIn token read at mount, the
  "no token, so redirect instead of posting" guard, and the text edits,
  including the image marker.
- **Post editing** (`PostEditing`): the toolbar edits both dialogs share, each
  of which appends a piece to the text.
- **Calendar** (`Calendar`): the `'all'`-or-exact-platform filter over the
  page's fixed list of posts and the draft marking of a card.
- **Idea generator** (`IdeaGenerator`): the three-step wizard, its badges and
  its one card per step.
- **Sign-up** (`SignUp`): the password-match guard in front of the
  `error`/`loading` state machine.

Two helper modules carry the JavaScript library behaviour the rules stand on:
`Text` (`toLowerCase`, `includes`, `slice`, `split`, `trim`, string
truthiness, and the suffix test that stands for the `$` anchor of the video
regular expression) and `Seqs` (`Array.prototype.filter`, with the proofs that
it keeps exactly the passing elements, each as often as it occurs, in their
original order). `Text` also defines `join`, which no component calls: it is
there to state that `split` loses nothing. `Http` holds the outcome of an
`axios` request, and `Options` the optional value used for absent bodies,
tokens and selections.

Every HTTP request is an abstract outcome passed into the handler: a response
status, a response body or a failure. A handler returns the request it would
send, so "no request is sent" is a statement about its result. React's
`useState` slots are class fields and each event handler is a method. An
`async` handler that awaits between two state updates is split at the
`await` where that matters (sign-up).

The scheduling dialog has no control that calls `handleMentionUser` or
`handleAddLink`, and none that sets `linkUrl`. Those handlers are modelled as
written, but from the page the link stays empty, so add-link does nothing.

## Model

| member | source | states |
|---|---|---|
| `Text.ContainsIff` | src/pages/SavedIdeas.tsx:58-60 | `includes` holds exactly when the query occurs in the string at some position |
| `Text.SliceWithin` | src/pages/SavedIdeas.tsx:63-65 | for indices that are not negative, `slice` (`Text.Slice`) cuts between them, each capped at the length |
| `Text.SliceFromEnd` | src/pages/SavedIdeas.tsx:63-65 | a negative start −k with k ≤ length slices from length − k |
| `Text.SliceAdjacent` | src/pages/SavedIdeas.tsx:63-65 | two adjacent slices put together give the slice spanning both, so consecutive pages tile the list |
| `Text.Split` | src/pages/SavedIdeas.tsx:126 | `split(',')` gives at least one piece, and no piece contains the separator |
| `Text.JoinSplit` | src/pages/SavedIdeas.tsx:126 | joining the pieces of a split with the separator gives back the original string |
| `Text.SplitJoin` | src/pages/SavedIdeas.tsx:126 | splitting a join of separator-free pieces gives back the pieces |
| `Text.TrimSpec` | src/pages/SavedIdeas.tsx:131-133 | `trim` returns the infix left after cutting only white space and line terminators from both ends, and that infix starts and ends with neither |
| `Seqs.Filter` | src/pages/SavedIdeas.tsx:58-60 | `filter` returns no more elements than its input, and each one passes the test |
| `Seqs.FilterAppend` | src/pages/SavedIdeas.tsx:58-60 | filtering a concatenation is the concatenation of the filtered parts, which fixes the order of the result |
| `Seqs.FilterCount` | src/pages/SavedIdeas.tsx:51 | every element that passes occurs in the result as often as in the input, and every other element not at all |
| `Seqs.FilterFilter` | src/pages/Calendar.tsx:62-65 | filtering twice is filtering once with both tests |
| `Seqs.FilterMembership` | src/pages/SavedIdeas.tsx:58-60 | an element is in the result exactly when it is in the input and passes the test |
| `Seqs.FilterIsSubsequence` | src/pages/Calendar.tsx:62-65 | the result is a subsequence of the input, so the original order is kept |
| `Seqs.FilterKeepsAll` | src/pages/Calendar.tsx:62-63 | when every element passes, nothing is removed |
| `Seqs.FilterKeepsNone` | src/pages/Calendar.tsx:64 | when no element passes, the result is empty |
| `Seqs.FilterSameTest` | src/pages/SavedIdeas.tsx:58-60 | two tests that agree on every element give the same result |
| `SavedIdeas.FilteredIdeasSpec` | src/pages/SavedIdeas.tsx:58-60 | the search (`FilteredIdeas`) keeps exactly the ideas whose lower-cased title includes the lower-cased query, each as often as it occurs, in their original order |
| `SavedIdeas.EmptyQueryKeepsAll` | src/pages/SavedIdeas.tsx:58-60 | with the empty query (the initial one) every idea is listed |
| `SavedIdeas.QueryCaseIgnored` | src/pages/SavedIdeas.tsx:59 | lower-casing the query does not change the filtered list |
| `SavedIdeas.CurrentIdeasBlock` | src/pages/SavedIdeas.tsx:63-65 | page p ≥ 1 (`CurrentIdeas`) shows the filtered ideas from index (p−1)·3 up to but excluding min(p·3, length); it never has more than 3, and it is empty exactly when (p−1)·3 ≥ length |
| `SavedIdeas.IdeaOnItsPage` | src/pages/SavedIdeas.tsx:63-65 | every filtered idea i is shown, on page i/3+1 at position i mod 3 |
| `SavedIdeas.NextLeadsToNonEmptyPage` | src/pages/SavedIdeas.tsx:154-161 | while Next is enabled (`NextDisabled`, line 158: page·3 ≥ filtered length) the current page is full and the page Next leads to is not empty |
| `SavedIdeas.NoIdeasPastNext` | src/pages/SavedIdeas.tsx:154-161 | once Next is disabled no later page has anything to show |
| `SavedIdeas.Preview` | src/pages/SavedIdeas.tsx:120 | a text of at most 150 characters is shown whole; a longer one becomes its first 150 characters followed by "...", so the preview never exceeds 153 characters and starts with the text |
| `SavedIdeas.TrimAll` | src/pages/SavedIdeas.tsx:133 | each label is the trimmed piece at the same position |
| `SavedIdeas.HashtagLabels` | src/pages/SavedIdeas.tsx:126 | at most 7 hashtag buttons, and none for an empty `hashtags` string |
| `SavedIdeas.HashtagLabelsSpec` | src/pages/SavedIdeas.tsx:126-135 | the buttons are the first min(pieces, 7) comma-separated pieces, each trimmed, with no comma inside and no white space at either end |
| `SavedIdeas.HashtagLabelsRoundTrip` | src/pages/SavedIdeas.tsx:126-133 | a non-empty hashtag string of at most 7 comma-separated pieces, none with white space at either end, is shown piece by piece, and joining the labels with commas gives it back |
| `SavedIdeas.RemoveIdSpec` | src/pages/SavedIdeas.tsx:51 | a delete (`RemoveId`) removes every idea with that id and keeps each other idea as often as it occurred, in order |
| `SavedIdeas.QueryChangeCanEmptyPage` | src/pages/SavedIdeas.tsx:89-94 | a query change keeps the page number, so page 2 can become empty while the new query still matches an idea |
| `SavedIdeas.SavedIdeasPage.constructor` | src/pages/SavedIdeas.tsx:20-24 | the page starts with no ideas, no selection, the empty query and page 1 |
| `SavedIdeas.SavedIdeasPage.Load` | src/pages/SavedIdeas.tsx:26-38 | a response body replaces the list; a failed request leaves it and all other slots unchanged |
| `SavedIdeas.SavedIdeasPage.SeeMoreDetails` | src/pages/SavedIdeas.tsx:40-42 | the popup shows the chosen idea |
| `SavedIdeas.SavedIdeasPage.ClosePopup` | src/pages/SavedIdeas.tsx:44-46 | the selection is cleared |
| `SavedIdeas.SavedIdeasPage.SetSearchQuery` | src/pages/SavedIdeas.tsx:93 | typing sets the query and nothing else, so the page number is not reset |
| `SavedIdeas.SavedIdeasPage.DeleteIdea` | src/pages/SavedIdeas.tsx:48-56 | after a successful request every idea with the id is removed and the selection cleared; after a failed one list and selection are unchanged |
| `SavedIdeas.SavedIdeasPage.Paginate` | src/pages/SavedIdeas.tsx:68 | the page number becomes the requested one |
| `SavedIdeas.SavedIdeasPage.PreviousPage` | src/pages/SavedIdeas.tsx:146-153 | Previous, clickable only when the page is not 1 (`PreviousDisabled`, line 150), goes back one page and keeps the page number at least 1 |
| `SavedIdeas.SavedIdeasPage.NextPage` | src/pages/SavedIdeas.tsx:154-161 | Next, clickable only when page·3 < filtered length, goes one page on, and the new page is not empty |
| `PostEditing.ApplyAllAppendsPieces` | src/components/CreatePostDialog.tsx:65-86 | any series (`ApplyAll`, each step `Apply` appending `Piece`) of emoji, mention, link and image edits keeps the original text at the front and appends each edit's piece in order, an empty link appending nothing |
| `PlanifierPost.ScheduleOutcomeSpec` | src/components/PlanifierPostDialog.tsx:40-89 | the handler (`ScheduleOutcome`) stops with the date-and-time alert exactly when the date or the time is empty, and clears the form exactly when both are set, the user is known and the answer is 201 |
| `PlanifierPost.RemoveUrlSpec` | src/components/PlanifierPostDialog.tsx:108 | deleting a media URL (`RemoveUrl`) removes every occurrence of it, keeps each other URL as often as it occurred, in order, and shortens the list by the number of occurrences |
| `PlanifierPost.RemoveUrlLength` | src/components/PlanifierPostDialog.tsx:108 | the list gets shorter by exactly the number of occurrences of the URL |
| `PlanifierPost.RemoveAbsentUrl` | src/components/PlanifierPostDialog.tsx:108 | deleting a URL that is not in the list changes nothing |
| `PlanifierPost.VideoIffExtension` | src/components/PlanifierPostDialog.tsx:144-148 | a media URL is shown as a video (`KindOf`, `IsVideo`) exactly when it has a dot at some index followed by mp4, webm or ogg in any case; otherwise as an image |
| `PlanifierPost.VideoHasExtension` | src/components/PlanifierPostDialog.tsx:144 | a URL the video test accepts has a dot 4 or 5 characters from its end followed by a video extension |
| `PlanifierPost.ExtensionAtIsVideo` | src/components/PlanifierPostDialog.tsx:144 | a URL ending in a dot and a video extension passes the video test |
| `PlanifierPost.KindIgnoresCase` | src/components/PlanifierPostDialog.tsx:144 | lower-casing a URL does not change how it is shown |
| `PlanifierPost.VideoExtensionIsVideo` | src/components/PlanifierPostDialog.tsx:144-145 | any path ending in one of the three extensions, in any case, is shown as a video |
| `PlanifierPost.PngIsPicture` | src/components/PlanifierPostDialog.tsx:146-147 | a path ending in .png is shown as an image |
| `PlanifierPost.PlanifierPostDialog.constructor` | src/components/PlanifierPostDialog.tsx:16-29 | the dialog starts with the initial text, no media, no token, empty link, date and time, and both dialogs closed |
| `PlanifierPost.PlanifierPostDialog.Mount` | src/components/PlanifierPostDialog.tsx:31-38 | a non-empty stored 'linkedin_token' becomes the access token; otherwise the token is untouched |
| `PlanifierPost.PlanifierPostDialog.SetDialogOpen` | src/components/PlanifierPostDialog.tsx:122 | the dialog's open state follows its trigger |
| `PlanifierPost.PlanifierPostDialog.SetScheduledDate` | src/components/PlanifierPostDialog.tsx:163 | the date input sets the date |
| `PlanifierPost.PlanifierPostDialog.SetScheduledTime` | src/components/PlanifierPostDialog.tsx:164 | the time input sets the time |
| `PlanifierPost.PlanifierPostDialog.SetPostContent` | src/components/PlanifierPostDialog.tsx:139 | typing sets the text |
| `PlanifierPost.PlanifierPostDialog.PostToLinkedIn` | src/components/PlanifierPostDialog.tsx:40-89 | an empty date or time sends nothing and changes nothing; otherwise, once the user is known, the body carries the text, the media URLs (twice), the date, the time and the user id; only a 201 answer closes the dialog and clears text, media, date and time |
| `PlanifierPost.PlanifierPostDialog.MediaUpload` | src/components/PlanifierPostDialog.tsx:91-106 | an upload is requested only when files were chosen; a successful one appends the returned URLs after the existing ones, a failed one leaves the list unchanged |
| `PlanifierPost.PlanifierPostDialog.DeleteMedia` | src/components/PlanifierPostDialog.tsx:108 | the media list loses every occurrence of the URL |
| `PlanifierPost.PlanifierPostDialog.EmojiSelect` | src/components/PlanifierPostDialog.tsx:109 | the emoji's native string is appended to the text, and nothing else changes |
| `PlanifierPost.PlanifierPostDialog.MentionUser` | src/components/PlanifierPostDialog.tsx:110 | " @user" is appended to the text, and nothing else changes |
| `PlanifierPost.PlanifierPostDialog.AddLink` | src/components/PlanifierPostDialog.tsx:111-117 | an empty link changes nothing; otherwise " " and the link are appended, the link is cleared and the link input hidden |
| `CreatePost.PublishOutcomeSpec` | src/components/CreatePostDialog.tsx:40-61 | (`PublishOutcome`) without a non-empty token the handler redirects, whatever the backend would answer; with one it never redirects, and it reports success exactly for a 2xx status |
| `CreatePost.CreatePostDialog.constructor` | src/components/CreatePostDialog.tsx:18-23 | the dialog starts with the initial text, the popover closed, an empty link and no token |
| `CreatePost.CreatePostDialog.Mount` | src/components/CreatePostDialog.tsx:25-34 | after mount the access token equals the stored 'linkedin_token' entry, or none if nothing is stored, in both branches, and the storage is unchanged |
| `CreatePost.CreatePostDialog.PostToLinkedIn` | src/components/CreatePostDialog.tsx:40-61 | with no usable token the handler redirects and sends no request; with one it stores the token and sends the text with it as bearer, and it alerts success exactly on a 2xx answer |
| `CreatePost.CreatePostDialog.ImageUpload` | src/components/CreatePostDialog.tsx:65-70 | "\n[Image: name]" is appended only when a file was chosen; with no file the text is unchanged |
| `CreatePost.CreatePostDialog.EmojiSelect` | src/components/CreatePostDialog.tsx:72-74 | the emoji's native string is appended to the text |
| `CreatePost.CreatePostDialog.MentionUser` | src/components/CreatePostDialog.tsx:76-78 | " @user" is appended to the text |
| `CreatePost.CreatePostDialog.SetPostContent` | src/components/CreatePostDialog.tsx:108 | typing sets the text |
| `CreatePost.CreatePostDialog.SetShowLinkInput` | src/components/CreatePostDialog.tsx:152 | the link popover's open state follows its trigger |
| `CreatePost.CreatePostDialog.SetLinkUrl` | src/components/CreatePostDialog.tsx:163 | the link input sets the link |
| `CreatePost.CreatePostDialog.AddLink` | src/components/CreatePostDialog.tsx:80-86 | an empty link changes nothing; otherwise " " and the link are appended, the link is cleared and the popover closed |
| `Calendar.FilteredPostsSpec` | src/pages/Calendar.tsx:62-65 | a post is listed (`FilteredPosts`) exactly when the selection is 'all' or equals its lower-cased platform, each as often as it occurs, and the list is a subsequence of the page's posts in their order |
| `Calendar.AllShowsEveryPost` | src/pages/Calendar.tsx:62-63 | the selection 'all' lists every post |
| `Calendar.InitiallyAllShown` | src/pages/Calendar.tsx:60 | the initial selection is 'all', so at first every post is listed |
| `Calendar.UpperCaseSelectionShowsNothing` | src/pages/Calendar.tsx:64 | only the post's platform is lower-cased, so a selection other than 'all' holding an upper-case letter lists nothing |
| `Calendar.LinkedInChoice` | src/pages/Calendar.tsx:22-47 | selecting "linkedin" lists the first and third of the page's posts |
| `Calendar.TwitterChoice` | src/pages/Calendar.tsx:22-47 | selecting "twitter" lists only the second post, which is the draft |
| `Calendar.BadgedCardsAreListedDrafts` | src/pages/Calendar.tsx:114-127 | among the cards rendered for the filtered posts, those with the "Draft" badge (`CardLookOf`), and equally those with the dashed border (line 116), are exactly the drafts the selection lets through, in the page's order |
| `Calendar.InitiallyOneBadgedCard` | src/pages/Calendar.tsx:22-47 | on the page as first shown, only the second post's card carries the badge |
| `IdeaGenerator.BadgesArePrefix` | src/pages/IdeaGenerator.tsx:37-39 | badge k (`BadgeOf`, in the row `Badges`) is 'default' exactly when step ≥ k, so the highlighted badges are a prefix whose length is the step |
| `IdeaGenerator.OneCardPerStep` | src/pages/IdeaGenerator.tsx:43-87 | each step renders (`Cards`, lines 43, 67 and 87) exactly one card, the card of that step |
| `IdeaGenerator.GenerateCardListsFirstTwo` | src/pages/IdeaGenerator.tsx:96 | the Generate card (`GenerateCardIdeas`) lists the first two ideas only |
| `IdeaGenerator.PressMovesToNeighbour` | src/pages/IdeaGenerator.tsx:60-114 | the only transitions (`Press`, setting the button's `Target`, lines 60, 78, 81 and 114) are 1→2, 2→1, 2→3 and 3→2 |
| `IdeaGenerator.RunStaysInSteps` | src/pages/IdeaGenerator.tsx:60-114 | any series of clicks on the buttons shown keeps the step in {1, 2, 3} |
| `IdeaGenerator.EveryStepReachable` | src/pages/IdeaGenerator.tsx:60-81 | every step can be reached from step 1 by clicks on buttons shown |
| `IdeaGenerator.Wizard.constructor` | src/pages/IdeaGenerator.tsx:30 | the wizard starts at step 1 |
| `IdeaGenerator.Wizard.Click` | src/pages/IdeaGenerator.tsx:60-114 | a click on a button of the current card sets its target step, and the step stays in {1, 2, 3} |
| `SignUp.ErrorAfter` | src/pages/SignUp.tsx:39-46 | a finished request leaves no error exactly on an OK response; a non-OK response always leaves a non-empty message |
| `SignUp.ErrorOrNavigation` | src/pages/SignUp.tsx:39-46 | a finished request (`ErrorAfter`, `NavigationAfter` at lines 43-44) either shows an error or navigates to /signin, never both |
| `SignUp.ServerMessageShown` | src/pages/SignUp.tsx:39-41 | a non-OK response shows the server's message, or 'Sign-up failed' when it is empty |
| `SignUp.SignUpForm.constructor` | src/pages/SignUp.tsx:9-13 | the form starts empty, not loading and without an error |
| `SignUp.SignUpForm.SetEmail` | src/pages/SignUp.tsx:67 | the email input sets the email |
| `SignUp.SignUpForm.SetPassword` | src/pages/SignUp.tsx:77 | the password input sets the password |
| `SignUp.SignUpForm.SetConfirmPassword` | src/pages/SignUp.tsx:87 | the confirmation input sets the confirmation |
| `SignUp.SignUpForm.Submit` | src/pages/SignUp.tsx:16-26 | the error is cleared first; mismatched passwords set "Passwords do not match", send nothing and leave loading false; otherwise loading becomes true and email and password are sent |
| `SignUp.SignUpForm.Complete` | src/pages/SignUp.tsx:28-49 | once the response is in, the error follows the outcome, an OK response navigates to /signin, and loading is false whatever happened |
| `SignUp.SubmitAndComplete` | src/pages/SignUp.tsx:16-50 | a whole submit with matching passwords sends the email and password as typed, changes only error, loading and the route, ends not loading with the outcome's error or none, navigates to /signin on an OK response and otherwise keeps the previous route |

## Left out

- HTTP traffic, the browser's storage and navigation are not modelled as I/O. Each request is an outcome parameter, the stored 'linkedin_token' is a field or a parameter, and a redirect or navigation is a returned value or a recorded route.
- None of the modelled components publishes a scheduled post when its time comes: the scheduling dialog only stores it through the backend, and what the backend does with it is not modelled.
- SavedIdeas.SavedIdeasPage.Load: `fetch` resolves on any HTTP status, so a non-2xx answer whose body is JSON other than a list is stored as the ideas, and the page's `filter` then throws while rendering. The model's body is a list of ideas or nothing; a non-list body and the failed render are not modelled.
- PlanifierPost.PlanifierPostDialog.PostToLinkedIn: the date and time go into the request as the raw input strings. Their conversion to ISO-8601 timestamps depends on the host time zone and `Date` parsing, so it is not modelled, and neither is the `RangeError` an invalid date would raise there.
- PlanifierPost.PlanifierPostDialog.PostToLinkedIn: the success modal opens 300 ms later in a `setTimeout`. Timers are not modelled, so `isSuccessModalOpen` is never set.
- The emoji picker's catalogue loading, the file-input reference and all rendering other than the rules above are not modelled.
- `Text.Lower` lower-cases ASCII letters only; JavaScript's `toLowerCase` also maps other Unicode letters.
- Strings are sequences of Unicode scalar values. JavaScript counts UTF-16 code units, so for text holding characters outside the Basic Multilingual Plane (most emoji) the 150-character preview cut falls at a different place.
- Browser form validation is not modelled: the sign-up inputs are marked `required` (and the email `type="email"`), so a browser refuses to submit them empty. `SignUp.SignUpForm.Submit` accepts any values.
- SignUp.SignUpResponse: a response body's `message` is taken as a string, with "" for a missing one. A non-string value there is not modelled.
- The sign-in page, the top bar's user polling, routing, the static pages and the build configuration are not part of this model: they hold no client-side rule beyond network calls and markup.
