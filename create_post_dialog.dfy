/** The "Share an Idea" dialog: the post text with its toolbar edits, the
    LinkedIn access token read from the browser's storage, and the handler that
    publishes the text or, without a token, sends the browser to the LinkedIn
    sign-in page instead. */
module CreatePost {
  import opened Options
  import opened Text
  import opened Http
  import opened PostEditing

  /** The request `POST /linkedin/post`: the body `{ content }` and the bearer token. */
  datatype LinkedInPost = LinkedInPost(content: string, bearer: string)

  /** How a click on "Post to LinkedIn" ends. */
  datatype PublishResult =
    | AuthRedirect   // `window.location.href` is set to the LinkedIn sign-in endpoint
    | PublishedAlert // alert 'Post publié avec succès !'
    | ErrorAlert     // alert 'Erreur lors de la publication'

  /** How the publish handler ends, from the access token and the request outcome. */
  function PublishOutcome(accessToken: Option<string>, response: AxiosOutcome): PublishResult
  {
    if !Truthy(accessToken) then AuthRedirect
    else if Rejected(response) then ErrorAlert
    else PublishedAlert
  }

  /** Without a usable token the handler always redirects, whatever the
      backend would have said; with one it never does, and it reports success
      exactly for a 2xx status. */
  lemma PublishOutcomeSpec(accessToken: Option<string>, response: AxiosOutcome)
    ensures PublishOutcome(accessToken, response) == AuthRedirect <==> !Truthy(accessToken)
    ensures PublishOutcome(accessToken, response) == PublishedAlert
      <==> Truthy(accessToken) && response.Received? && 200 <= response.status < 300
  {
  }

  /** The dialog's state slots, and the 'linkedin_token' entry of the
      browser's storage (`None` when no entry exists). */
  class CreatePostDialog {
    var postContent: string
    var showLinkInput: bool
    var linkUrl: string
    var accessToken: Option<string>
    var storedToken: Option<string>

    constructor (initialContent: string, stored: Option<string>)
      ensures postContent == initialContent && !showLinkInput && linkUrl == ""
      ensures accessToken == None && storedToken == stored
    {
      postContent := initialContent;
      showLinkInput := false;
      linkUrl := "";
      accessToken := None;
      storedToken := stored;
    }

    /** The mount effect. A non-empty stored token is written back and taken;
        otherwise the entry is read again and taken as it is. Both branches
        leave the access token equal to the stored entry. */
    method Mount()
      modifies this`accessToken, this`storedToken
      ensures accessToken == old(storedToken) && storedToken == old(storedToken)
    {
      var token := storedToken;
      if Truthy(token) {
        storedToken := token;
        accessToken := token;
      } else {
        accessToken := storedToken;
      }
    }

    /** `handlePostToLinkedIn`: `response` is the outcome of `POST /linkedin/post`.
        Returns the request sent, if any, and how the handler ended. */
    method PostToLinkedIn(response: AxiosOutcome) returns (request: Option<LinkedInPost>, result: PublishResult)
      modifies this`storedToken
      ensures result == PublishOutcome(accessToken, response)
      ensures request.Some? <==> Truthy(accessToken)
      ensures request.Some? ==> request.value == LinkedInPost(postContent, accessToken.value)
      ensures storedToken == if Truthy(accessToken) then accessToken else old(storedToken)
    {
      if Truthy(accessToken) {
        storedToken := accessToken;
      }
      if !Truthy(accessToken) {
        return None, AuthRedirect;
      }
      request := Some(LinkedInPost(postContent, accessToken.value));
      result := if Rejected(response) then ErrorAlert else PublishedAlert;
    }

    /** `handleImageUpload`: `file` is the name of the first chosen file, if any. */
    method ImageUpload(file: Option<string>)
      modifies this`postContent
      ensures postContent == if file.Some? then Apply(old(postContent), ImageMarker(file.value)) else old(postContent)
    {
      if file.Some? {
        postContent := postContent + "\n[Image: " + file.value + "]";
      }
    }

    /** `handleEmojiSelect`. */
    method EmojiSelect(native: string)
      modifies this`postContent
      ensures postContent == Apply(old(postContent), Emoji(native))
    {
      postContent := postContent + native;
    }

    /** `handleMentionUser`. */
    method MentionUser()
      modifies this`postContent
      ensures postContent == Apply(old(postContent), Mention)
    {
      postContent := postContent + " @user";
    }

    /** Typing in the text area. */
    method SetPostContent(value: string)
      modifies this`postContent
      ensures postContent == value
    {
      postContent := value;
    }

    /** The link popover's `onOpenChange`. */
    method SetShowLinkInput(open: bool)
      modifies this`showLinkInput
      ensures showLinkInput == open
    {
      showLinkInput := open;
    }

    method SetLinkUrl(url: string)
      modifies this`linkUrl
      ensures linkUrl == url
    {
      linkUrl := url;
    }

    /** `handleAddLink` (the Add button, or Enter in the link input): nothing
        happens while the link is empty; otherwise the link is appended and the
        popover closes. */
    method AddLink()
      modifies this`postContent, this`linkUrl, this`showLinkInput
      ensures postContent == Apply(old(postContent), Link(old(linkUrl)))
      ensures old(linkUrl) == "" ==> linkUrl == old(linkUrl) && showLinkInput == old(showLinkInput)
      ensures old(linkUrl) != "" ==> linkUrl == "" && !showLinkInput
    {
      if linkUrl != "" {
        postContent := postContent + " " + linkUrl;
        linkUrl := "";
        showLinkInput := false;
      }
    }
  }
}
