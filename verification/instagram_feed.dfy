/** The InstagramFeed class: its options live in fields that the
    constructor and the setters assign, and its two rendering operations
    read them. The network fetch is not part of the class here; its outcome
    is passed to GenerateHtmlFeed as an Option<Feed>. */
module Instagram {
  import opened HtmlText
  import opened FeedModel
  import opened RenderSpec

  class InstagramFeed {
    var username: string
    var mediaLimit: int
    var showProfileInfo: bool
    var wrapHtml: Wrap
    var wrapHtmlItems: Wrap
    var showLikes: bool
    var likesLabel: string
    var showError: bool

    /** The current options, gathered into one configuration value. */
    function Settings(): Config
      reads this
    {
      Config(mediaLimit, showProfileInfo, wrapHtml, wrapHtmlItems, showLikes, likesLabel, showError)
    }

    /** Stores the account name, then the options array merged over the
        defaults (or the defaults alone when `config` is not an array). */
    constructor (username: string, config: Option<Overrides>)
      ensures this.username == username
      ensures Settings() == Configure(config)
    {
      new;
      SetUsername(username);
      var c := Configure(config);
      SetMediaLimit(c.mediaLimit);
      SetShowProfileInfo(c.showProfileInfo);
      SetWrapHtml(c.wrapHtml);
      SetWrapHtmlItems(c.wrapHtmlItems);
      SetShowLikes(c.showLikes);
      SetLikesLabel(c.likesLabel);
      SetShowError(c.showError);
    }

    /** The page for a fetched feed, or, when the fetch produced nothing,
        the error paragraph naming the account if showError is set and the
        empty string otherwise. */
    method GenerateHtmlFeed(fetched: Option<Feed>) returns (html: string)
      ensures fetched.None? && showError ==> html == ErrorParagraph(username)
      ensures fetched.None? && !showError ==> html == ""
      ensures fetched.Some? ==> html == RenderHtml(Settings(), fetched.value)
    {
      if fetched.None? {
        return if showError then ErrorParagraph(username) else "";
      }
      html := ConvertToHtml(fetched.value);
    }

    /** Renders a fetched feed: the profile block when enabled, then the
        private notice or the media items the limit lets through, each
        wrapped by wrapHtmlItems, and all of it wrapped by wrapHtml. */
    method ConvertToHtml(feed: Feed) returns (html: string)
      ensures html == RenderHtml(Settings(), feed)
    {
      hide ProfileBlock, MediaFragment, PrivateFragment;
      var u := feed.user;
      var items: seq<string> := [];

      if showProfileInfo {
        var profile := ProfileItem(u);
        items := items + [profile];
      }
      assert items == ProfilePart(Settings(), u);

      if u.isPrivate {
        var notice := PrivateItem();
        items := items + [notice];
        assert items == Fragments(Settings(), u);
        return wrapHtml.start + Implode(items) + wrapHtml.end;
      }

      var mediaItemsCount := 0;
      for i := 0 to |u.nodes|
        invariant mediaItemsCount == Shown(mediaLimit, i)
        invariant items == ProfilePart(Settings(), u) + MediaFragments(Settings(), u.nodes[..i])
      {
        MediaFragmentsStep(Settings(), u.nodes, i);
        if mediaItemsCount < mediaLimit {
          var media := MediaItem(u.nodes[i]);
          items := items + [media];
          mediaItemsCount := mediaItemsCount + 1;
        }
      }
      assert u.nodes[..|u.nodes|] == u.nodes;
      assert items == Fragments(Settings(), u);
      html := wrapHtml.start + Implode(items) + wrapHtml.end;
    }

    /** The wrapped profile block, its pieces appended one by one. */
    method ProfileItem(u: User) returns (item: string)
      ensures item == ProfileBlock(wrapHtmlItems, u)
    {
      var parts: seq<string> := [];
      parts := parts + [ProfilePicture(u)];
      parts := parts + [ProfileUsername(u)];
      parts := parts + [ProfileCounts(u)];
      parts := parts + [ProfileName(u)];
      parts := parts + [ProfileBiography(u)];
      assert parts == ProfileParts(u);
      item := wrapHtmlItems.start + (ProfileOpen + Implode(parts) + ItemClose) + wrapHtmlItems.end;
    }

    /** The wrapped private-account notice. */
    method PrivateItem() returns (item: string)
      ensures item == PrivateFragment(wrapHtmlItems)
    {
      item := wrapHtmlItems.start + PrivateNotice + wrapHtmlItems.end;
    }

    /** One wrapped media item, its pieces appended one by one; the likes
        paragraph only when showLikes is set. */
    method MediaItem(node: MediaNode) returns (item: string)
      ensures item == MediaFragment(Settings(), node)
    {
      var parts: seq<string> := [];
      parts := parts + [MediaLink(node)];
      parts := parts + [MediaImage(node)];
      if showLikes {
        parts := parts + [LikesParagraph(node.likes, likesLabel)];
      }
      assert parts == MediaParts(Settings(), node);
      item := wrapHtmlItems.start + (MediaOpen + Implode(parts) + ItemClose) + wrapHtmlItems.end;
    }

    // -------------------------------------------------------------------
    // Setters and getters: each setter replaces one option and leaves the
    // others alone, and its getter then returns the new value.

    method SetUsername(username: string)
      modifies this`username
      ensures GetUsername() == username
      ensures Settings() == old(Settings())
    {
      this.username := username;
    }

    function GetUsername(): (r: string)
      reads this
      ensures r == username
    {
      username
    }

    method SetMediaLimit(mediaLimit: int)
      modifies this`mediaLimit
      ensures GetMediaLimit() == mediaLimit
      ensures Settings() == old(Settings()).(mediaLimit := mediaLimit)
    {
      this.mediaLimit := mediaLimit;
    }

    function GetMediaLimit(): (r: int)
      reads this
      ensures r == Settings().mediaLimit
    {
      mediaLimit
    }

    method SetShowProfileInfo(showProfileInfo: bool)
      modifies this`showProfileInfo
      ensures GetShowProfileInfo() == showProfileInfo
      ensures Settings() == old(Settings()).(showProfileInfo := showProfileInfo)
    {
      this.showProfileInfo := showProfileInfo;
    }

    function GetShowProfileInfo(): (r: bool)
      reads this
      ensures r == Settings().showProfileInfo
    {
      showProfileInfo
    }

    method SetWrapHtml(wrapHtml: Wrap)
      modifies this`wrapHtml
      ensures GetWrapHtml() == wrapHtml
      ensures Settings() == old(Settings()).(wrapHtml := wrapHtml)
    {
      this.wrapHtml := wrapHtml;
    }

    function GetWrapHtml(): (r: Wrap)
      reads this
      ensures r == Settings().wrapHtml
    {
      wrapHtml
    }

    method SetWrapHtmlItems(wrapHtmlItems: Wrap)
      modifies this`wrapHtmlItems
      ensures GetWrapHtmlItems() == wrapHtmlItems
      ensures Settings() == old(Settings()).(wrapHtmlItems := wrapHtmlItems)
    {
      this.wrapHtmlItems := wrapHtmlItems;
    }

    function GetWrapHtmlItems(): (r: Wrap)
      reads this
      ensures r == Settings().wrapHtmlItems
    {
      wrapHtmlItems
    }

    method SetShowLikes(showLikes: bool)
      modifies this`showLikes
      ensures GetShowLikes() == showLikes
      ensures Settings() == old(Settings()).(showLikes := showLikes)
    {
      this.showLikes := showLikes;
    }

    function GetShowLikes(): (r: bool)
      reads this
      ensures r == Settings().showLikes
    {
      showLikes
    }

    method SetLikesLabel(likesLabel: string)
      modifies this`likesLabel
      ensures GetLikesLabel() == likesLabel
      ensures Settings() == old(Settings()).(likesLabel := likesLabel)
    {
      this.likesLabel := likesLabel;
    }

    function GetLikesLabel(): (r: string)
      reads this
      ensures r == Settings().likesLabel
    {
      likesLabel
    }

    method SetShowError(showError: bool)
      modifies this`showError
      ensures GetShowError() == showError
      ensures Settings() == old(Settings()).(showError := showError)
    {
      this.showError := showError;
    }

    function GetShowError(): (r: bool)
      reads this
      ensures r == Settings().showError
    {
      showError
    }
  }
}
