# InstagramFeed, modelled in Dafny

`InstagramFeed` is a PHP class. It fetches an Instagram account's public
feed and renders it as an HTML fragment. Its options are:

- a media limit;
- whether to show the profile block;
- two start/end wrappers, one around the whole output and one around each item;
- whether to show like counts, and the label that follows them;
- whether to print an error paragraph when the feed cannot be fetched.

This project models the class apart from its network fetch:

- `FeedModel` (`feed_model.dfy`) holds the decoded feed record (`User`, `MediaNode`, `Feed`), the options (`Config`) and their defaults. It also defines `Configure`, the constructor's merge of an options array over the defaults.
- `RenderSpec` (`render_spec.dfy`) gives the output as functions of the configuration and the feed:
  - the sequence of item fragments, `Fragments`;
  - the final string, `RenderHtml`;
  - the error paragraph.

  It also proves the properties of that output.
- `Instagram` (`instagram_feed.dfy`) holds the class `InstagramFeed`:
  - fields that the constructor and the setters assign;
  - getters;
  - `ConvertToHtml`, which walks the media nodes with a counter as the PHP `foreach` does. It is proved equal to `RenderHtml`;
  - `GenerateHtmlFeed`, which receives the outcome of the fetch as an `Option<Feed>`.
- `HtmlText` (`html_text.dfy`) holds shared text helpers:
  - start/end wrappers;
  - `Implode`, which is `implode('', ...)`;
  - PHP's decimal rendering of integers;
  - prefix lemmas.

Fragments are classified by the tag that follows the item wrapper:

- `<div class="profile-item">` marks the profile block;
- `<div class="media-item">` marks a media item;
- `<p class="profile-private">` marks the private notice.

The lemmas count fragments by these kinds, so a claim such as "no media item
is rendered" is a statement about the strings themselves. It does not depend
on how `Fragments` is built.

Two points of the code that the model keeps:

- The five profile pieces are joined unwrapped. The assembled block is wrapped once by `wrapHtmlItems` (InstagramFeed.php:138-139).
- `mediaLimit` may be any integer. A limit of 0 or less renders no media item (InstagramFeed.php:156-159).

## Model

| member | source | states |
|---|---|---|
| `FeedModel.Configure` | InstagramFeed.php:32-73 | Without an options array, every option is its default: 3, true, `<div>`/`</div>` twice, true, "likes", true. With an array, each supplied key overrides its default and each absent key falls back to it. |
| `FeedModel.ConfigureExtremes` | InstagramFeed.php:57-64 | An empty options array gives the same configuration as no array, namely the defaults. An array that supplies every key ignores the defaults. |
| `Instagram.InstagramFeed.constructor` | InstagramFeed.php:52-75 | After construction the username is the given one and the options are `Configure(config)`. The constructor reaches this state by calling each setter once, as the PHP does. |
| `Instagram.InstagramFeed.GenerateHtmlFeed` | InstagramFeed.php:83-94 | No feed and `showError` set: the output is the error paragraph for the account. No feed and `showError` unset: the output is empty. A fetched feed: the output is the rendered feed for the current options. |
| `RenderSpec.ErrorParagraph` | InstagramFeed.php:90 | The error paragraph is the fixed opening text, then the username verbatim, then " </p>". |
| `Instagram.InstagramFeed.ConvertToHtml` | InstagramFeed.php:102-185 | The output equals `RenderHtml(Settings(), feed)`. The loop invariant says that after i nodes the counter is min(max(limit,0), i). It also says the fragments so far are the profile part followed by the fragments of the first nodes. |
| `Instagram.InstagramFeed.ProfileItem` | InstagramFeed.php:109-139 | Appending picture, username link, counts, name and biography, then wrapping, gives the specified profile block. |
| `Instagram.InstagramFeed.PrivateItem` | InstagramFeed.php:147-148 | The wrapped private notice. |
| `Instagram.InstagramFeed.MediaItem` | InstagramFeed.php:161-177 | Appending link, image and, when `showLikes` is set, the likes paragraph, then wrapping, gives the specified media fragment. |
| `RenderSpec.MediaFragmentsStep` | InstagramFeed.php:157-180 | Visiting one more node while the counter is below the limit appends that node's fragment and advances the count. Past the limit, nothing changes. |
| `RenderSpec.ProfileBlockKind` | InstagramFeed.php:108-140 | The profile block is wrapped by `wrapHtmlItems` and is a profile block. It is neither a media item nor a private notice. |
| `RenderSpec.MediaFragmentKind` | InstagramFeed.php:176-177 | A media fragment is wrapped by `wrapHtmlItems` and is a media item. It is neither a profile block nor a private notice. |
| `RenderSpec.PrivateFragmentKind` | InstagramFeed.php:147-148 | The private notice fragment is wrapped by `wrapHtmlItems` and is a private notice. It is neither a profile block nor a media item. |
| `RenderSpec.NoProfileAfterProfile` | InstagramFeed.php:145-181 | Nothing rendered after the profile part is a profile block. |
| `RenderSpec.ProfileBlockFirst` | InstagramFeed.php:108-141 | A profile block appears exactly when `showProfileInfo` is set. When it appears it is the first fragment, and no later fragment is one. |
| `RenderSpec.PublicAccountMedia` | InstagramFeed.php:156-181 | For a public account there are exactly min(max(mediaLimit,0), \|nodes\|) media fragments and no private notice. They follow the optional profile block, and the k-th is the fragment of the k-th node. |
| `RenderSpec.PrivateAccountNoMedia` | InstagramFeed.php:145-153 | For a private account the fragments are the optional profile block, then exactly one private notice, and no media item. This does not change when the media nodes or the media limit change. |
| `RenderSpec.MediaLikes` | InstagramFeed.php:170-174 | A media item has one likes paragraph among its pieces when `showLikes` is set, and none otherwise. Any likes paragraph shows the node's like count and then `likesLabel`. |
| `RenderSpec.MediaLinkFirst` | InstagramFeed.php:162-164 | A media fragment starts, after the item wrapper and the media-item tag, with a link whose href is `https://www.instagram.com/p/` followed by the node's code. |
| `RenderSpec.MediaPermalinks` | InstagramFeed.php:157-178 | In the rendered output, the k-th media fragment links to the permalink of the k-th node. |
| `RenderSpec.ProfileIgnoresMedia` | InstagramFeed.php:109-138 | The profile block does not depend on the media nodes. |
| `RenderSpec.OutputShape` | InstagramFeed.php:138-183 | The output is `wrapHtml.start`, then every fragment in order, then `wrapHtml.end`. Every fragment begins with `wrapHtmlItems.start` and ends with `wrapHtmlItems.end`. |
| `RenderSpec.DefaultsExample` | InstagramFeed.php:32-40 | With default options, a public account with five nodes renders a profile block and three media items, each with a likes paragraph. |
| `RenderSpec.OverridesExample` | InstagramFeed.php:57-73 | With mediaLimit 10 and the profile hidden, a public account with two nodes renders exactly two media items and no profile block. |
| `HtmlText.IntToStr` | InstagramFeed.php:171-172 | An integer is rendered as a leading '-' exactly when it is negative, then decimal digits whose decimal value is the magnitude of the integer. Zero is exactly "0"; any other value has no leading zero. |
| `Instagram.InstagramFeed.SetUsername` | InstagramFeed.php:218-220 | `GetUsername` then returns the new name. No option changes. |
| `Instagram.InstagramFeed.GetUsername` | InstagramFeed.php:222-224 | Returns the stored username. |
| `Instagram.InstagramFeed.SetMediaLimit` | InstagramFeed.php:226-228 | `GetMediaLimit` then returns the new limit. No other field changes. |
| `Instagram.InstagramFeed.GetMediaLimit` | InstagramFeed.php:230-232 | Returns the media limit in use. |
| `Instagram.InstagramFeed.SetShowProfileInfo` | InstagramFeed.php:234-236 | `GetShowProfileInfo` then returns the new flag. No other field changes. |
| `Instagram.InstagramFeed.GetShowProfileInfo` | InstagramFeed.php:238-240 | Returns the profile flag in use. |
| `Instagram.InstagramFeed.SetWrapHtml` | InstagramFeed.php:242-244 | `GetWrapHtml` then returns the new wrapper. No other field changes. |
| `Instagram.InstagramFeed.GetWrapHtml` | InstagramFeed.php:246-248 | Returns the outer wrapper in use. |
| `Instagram.InstagramFeed.SetWrapHtmlItems` | InstagramFeed.php:250-252 | `GetWrapHtmlItems` then returns the new wrapper. No other field changes. |
| `Instagram.InstagramFeed.GetWrapHtmlItems` | InstagramFeed.php:254-256 | Returns the item wrapper in use. |
| `Instagram.InstagramFeed.SetShowLikes` | InstagramFeed.php:258-260 | `GetShowLikes` then returns the new flag. No other field changes. |
| `Instagram.InstagramFeed.GetShowLikes` | InstagramFeed.php:262-264 | Returns the likes flag in use. |
| `Instagram.InstagramFeed.SetLikesLabel` | InstagramFeed.php:266-268 | `GetLikesLabel` then returns the new label. No other field changes. |
| `Instagram.InstagramFeed.GetLikesLabel` | InstagramFeed.php:270-272 | Returns the likes label in use. |
| `Instagram.InstagramFeed.SetShowError` | InstagramFeed.php:274-276 | `GetShowError` then returns the new flag. No other field changes. |
| `Instagram.InstagramFeed.GetShowError` | InstagramFeed.php:278-280 | Returns the error flag in use. |

## Left out

- The fetch, `_getJsonFeed` (InstagramFeed.php lines 193-209), is left out:
  - it builds the URL from `FEED_URL` and `QUERY_STRING`;
  - it calls `file_get_contents`;
  - it tests the status line in `$http_response_header`;
  - it calls `json_decode`.

  All of this is network I/O and foreign library code. Its outcome enters `GenerateHtmlFeed` as the parameter `fetched: Option<Feed>`, where `None` is the PHP `null`.
- The model assumes a well-formed, typed feed record. It does not model missing JSON keys or values of unexpected types, or the PHP notices and empty interpolations they cause.
- Options are typed (`int`, `bool`, `Wrap`, `string`). PHP's loose comparison and truthiness for values of other types are not modelled.
- Keys of the options array that the class does not read are not modelled. An options array is the record `Overrides`, with one optional field per option.
- PHP integers overflow to floats, whose rendering differs. `IntToStr` renders unbounded integers in decimal.
- The markup is built by concatenation with no HTML escaping, as in the source. No claim about escaping is made.
- `MediaLikes`: the claim is about the pieces of each media item, not about substrings of the final string. Codes, thumbnail URLs and labels are inserted verbatim, so they may themselves contain text that looks like a likes paragraph.
- `MediaLinkFirst`: same caveat. The permalink claim fixes the text that follows the media-item tag; it says nothing about look-alike text inside user data.
- Repeated calls with the same options and feed give the same output. No separate member states this: the outputs are functions of the fields and the argument.
