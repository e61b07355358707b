/** The values the renderer works on: the parsed feed record returned by
    the fetch, and the renderer's configuration with its defaults and the
    constructor's merge of user options over them. */
module FeedModel {
  import opened HtmlText

  datatype Option<T> = None | Some(value: T) {
    /** The carried value, or `default` when there is none. */
    function GetOr(default: T): T {
      match this
      case Some(v) => v
      case None => default
    }
  }

  /** One entry of user.media.nodes: its short code (for the permalink),
      thumbnail_src and likes.count. */
  datatype MediaNode = MediaNode(code: string, thumbnailSrc: string, likes: int)

  /** The 'user' object of the parsed feed, restricted to the keys the
      renderer reads. */
  datatype User = User(
    profilePicUrlHd: string,
    username: string,
    fullName: string,
    biography: string,
    mediaCount: int,        // user.media.count
    followedByCount: int,   // user.followed_by.count
    followsCount: int,      // user.follows.count
    isPrivate: bool,
    nodes: seq<MediaNode>)  // user.media.nodes, in feed order

  /** A successfully fetched and decoded feed. */
  datatype Feed = Feed(user: User)

  /** Every rendering option of an InstagramFeed object. */
  datatype Config = Config(
    mediaLimit: int,
    showProfileInfo: bool,
    wrapHtml: Wrap,
    wrapHtmlItems: Wrap,
    showLikes: bool,
    likesLabel: string,
    showError: bool)

  /** The class's default configuration. */
  const Defaults: Config := Config(
    3, true, Wrap("<div>", "</div>"), Wrap("<div>", "</div>"), true, "likes", true)

  /** An options array given to the constructor: each key either supplied
      (Some) or absent (None). */
  datatype Overrides = Overrides(
    mediaLimit: Option<int>,
    showProfileInfo: Option<bool>,
    wrapHtml: Option<Wrap>,
    wrapHtmlItems: Option<Wrap>,
    showLikes: Option<bool>,
    likesLabel: Option<string>,
    showError: Option<bool>)

  /** The empty options array. */
  const NoOverrides: Overrides := Overrides(None, None, None, None, None, None, None)

  /** The configuration the constructor settles on: `config` is None when
      the constructor's second argument is not an array, and then every
      option takes its default; otherwise each supplied key overrides its
      default and each absent key falls back to it. */
  function Configure(config: Option<Overrides>): (c: Config)
    ensures config.None? ==>
      c.mediaLimit == 3 && c.showProfileInfo && c.wrapHtml == Wrap("<div>", "</div>") &&
      c.wrapHtmlItems == Wrap("<div>", "</div>") && c.showLikes && c.likesLabel == "likes" &&
      c.showError
    ensures config.Some? ==>
      var o := config.value;
      (o.mediaLimit.Some? ==> c.mediaLimit == o.mediaLimit.value) &&
      (o.mediaLimit.None? ==> c.mediaLimit == 3) &&
      (o.showProfileInfo.Some? ==> c.showProfileInfo == o.showProfileInfo.value) &&
      (o.showProfileInfo.None? ==> c.showProfileInfo) &&
      (o.wrapHtml.Some? ==> c.wrapHtml == o.wrapHtml.value) &&
      (o.wrapHtml.None? ==> c.wrapHtml == Wrap("<div>", "</div>")) &&
      (o.wrapHtmlItems.Some? ==> c.wrapHtmlItems == o.wrapHtmlItems.value) &&
      (o.wrapHtmlItems.None? ==> c.wrapHtmlItems == Wrap("<div>", "</div>")) &&
      (o.showLikes.Some? ==> c.showLikes == o.showLikes.value) &&
      (o.showLikes.None? ==> c.showLikes) &&
      (o.likesLabel.Some? ==> c.likesLabel == o.likesLabel.value) &&
      (o.likesLabel.None? ==> c.likesLabel == "likes") &&
      (o.showError.Some? ==> c.showError == o.showError.value) &&
      (o.showError.None? ==> c.showError)
  {
    var merged := match config
      case None => Defaults
      case Some(o) => Merge(Defaults, o);
    merged
  }

  /** PHP's array_merge(base, o) read back field by field: a key of `o`
      wins over the same key of `base`. */
  function Merge(base: Config, o: Overrides): Config {
    Config(
      o.mediaLimit.GetOr(base.mediaLimit),
      o.showProfileInfo.GetOr(base.showProfileInfo),
      o.wrapHtml.GetOr(base.wrapHtml),
      o.wrapHtmlItems.GetOr(base.wrapHtmlItems),
      o.showLikes.GetOr(base.showLikes),
      o.likesLabel.GetOr(base.likesLabel),
      o.showError.GetOr(base.showError))
  }

  /** Merging an empty options array gives the same configuration as passing
      no array at all, and an options array that supplies every key ignores
      the defaults altogether. */
  lemma ConfigureExtremes(c: Config)
    ensures Configure(Some(NoOverrides)) == Configure(None) == Defaults
    ensures Configure(Some(Overrides(Some(c.mediaLimit), Some(c.showProfileInfo),
      Some(c.wrapHtml), Some(c.wrapHtmlItems), Some(c.showLikes), Some(c.likesLabel),
      Some(c.showError)))) == c
  {
  }
}
