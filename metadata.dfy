/**
 * The two metadata lookups of bot.py and their combination: `fetch_og_metadata`
 * (bot.py:63-80) reads the page's Open Graph tags and downloads its image;
 * `try_fetch_chat_meta` (bot.py:83-97) asks Telegram about the chat; and
 * `fetch_og_metadata(link) or await try_fetch_chat_meta(ctx, link)` (bot.py:169, 217, 241)
 * combines them. The network is a parameter: what each request would yield.
 */
module Metadata {
  import opened Wrappers
  import Text
  import Http
  import Links
  import opened Logos

  /** The `content` attributes of the page's `og:title` and `og:image` tags; `None` when the tag or its attribute is missing. */
  datatype OgTags = OgTags(title: Option<string>, image: Option<string>)

  /** The chat photo: none (or no small file id), a download that raised, or the file path and bytes. */
  datatype PhotoReply = NoPhoto | PhotoFailed | PhotoOk(filePath: string, content: seq<Base64.byte>)

  /** The reply to `get_chat`: the call raised, or the chat's title, first name, user name and photo. */
  datatype ChatReply = ChatFailed | Chat(title: Option<string>, firstName: Option<string>, username: Option<string>, photo: PhotoReply)

  /** What the outside world answers, by requested URL or chat name. */
  datatype Network = Network(
    page: string -> Http.Reply<OgTags>,
    image: string -> Http.Reply<seq<Base64.byte>>,
    chat: string -> ChatReply)

  /** The tuple `(title, logo_bytes, logo_name)`; bytes and name are set together, so they are one `Option<Logo>`. */
  datatype Meta = Meta(title: Option<string>, logo: Option<Logo>)

  /** `if logo_bytes:` / `meta[1]` is truthy: a logo with at least one byte. */
  predicate HasLogo(m: Meta)
  {
    m.logo.Some? && m.logo.value.bytes != []
  }

  /**
   * `fetch_og_metadata(url)`. It yields `None` exactly when a request raised: the page
   * request, or the image request when the page names a non-empty image. The title is
   * kept only when non-empty; a page without an image yields a result with no logo.
   */
  function FetchOg(url: string, net: Network): (r: Option<Meta>)
    ensures r.None? <==>
      Http.Raises(net.page(url)) ||
      (Truthy(net.page(url).body.image) && Http.Raises(net.image(net.page(url).body.image.value)))
    ensures r.Some? ==> r.value.title == (if Truthy(net.page(url).body.title) then net.page(url).body.title else None)
    ensures r.Some? ==> (r.value.logo.Some? <==> Truthy(net.page(url).body.image))
    ensures r.Some? && r.value.logo.Some? ==>
      var img := net.page(url).body.image.value;
      r.value.logo.value == Logo(net.image(img).body, ImageFileName(img))
  {
    var page := net.page(url);
    if Http.Raises(page) then None
    else
      var title := if Truthy(page.body.title) then page.body.title else None;
      var img := page.body.image;
      if Truthy(img) then
        var reply := net.image(img.value);
        if Http.Raises(reply) then None
        else Some(Meta(title, Some(Logo(reply.body, ImageFileName(img.value)))))
      else Some(Meta(title, None))
  }

  /**
   * `chat.title or chat.first_name or chat.username or username` (bot.py:87): the first
   * non-empty of the chat's names, falling back to the handle from the link.
   */
  function DisplayTitle(title: Option<string>, firstName: Option<string>, username: Option<string>, handle: string): (r: string)
    ensures Truthy(title) ==> r == title.value
    ensures !Truthy(title) && Truthy(firstName) ==> r == firstName.value
    ensures !Truthy(title) && !Truthy(firstName) && Truthy(username) ==> r == username.value
    ensures !Truthy(title) && !Truthy(firstName) && !Truthy(username) ==> r == handle
    ensures handle != "" ==> r != ""
  {
    if Truthy(title) then title.value
    else if Truthy(firstName) then firstName.value
    else if Truthy(username) then username.value
    else handle
  }

  /** The chat name queried for a link (bot.py:84, 86): `@` and the text after the last `/`. */
  function ChatQuery(url: string): (q: string)
    ensures |q| >= 1 && q[0] == '@' && '/' !in q[1..]
  {
    "@" + Text.AfterLast(url, '/')
  }

  /**
   * `try_fetch_chat_meta(ctx, url)`. It yields `None` exactly when `get_chat` raised or the
   * photo download raised; otherwise the title is always present and the logo is the
   * downloaded photo, named after its file path.
   */
  function ChatMeta(url: string, net: Network): (r: Option<Meta>)
    ensures r.None? <==> net.chat(ChatQuery(url)).ChatFailed? || net.chat(ChatQuery(url)).photo.PhotoFailed?
    ensures r.Some? ==> r.value.title.Some?
    ensures r.Some? ==>
      var c := net.chat(ChatQuery(url));
      r.value.title.value == DisplayTitle(c.title, c.firstName, c.username, Text.AfterLast(url, '/')) &&
      (r.value.logo.Some? <==> c.photo.PhotoOk?) &&
      (c.photo.PhotoOk? ==> r.value.logo.value == Logo(c.photo.content, LogoFileName(c.photo.filePath)))
  {
    var handle := Text.AfterLast(url, '/');
    match net.chat(ChatQuery(url))
    case ChatFailed => None
    case Chat(t, f, u, photo) =>
      var title := DisplayTitle(t, f, u, handle);
      match photo
      case NoPhoto => Some(Meta(Some(title), None))
      case PhotoFailed => None
      case PhotoOk(path, content) => Some(Meta(Some(title), Some(Logo(content, LogoFileName(path)))))
  }

  /**
   * `fetch_og_metadata(url) or await try_fetch_chat_meta(ctx, url)`: a tuple is always
   * truthy, so the chat is asked only when the page lookup yielded `None`.
   */
  function Resolve(url: string, net: Network): (r: Option<Meta>)
    ensures FetchOg(url, net).Some? ==> r == FetchOg(url, net)
    ensures FetchOg(url, net).None? ==> r == ChatMeta(url, net)
  {
    var og := FetchOg(url, net);
    if og.Some? then og else ChatMeta(url, net)
  }

  /** Neither lookup ever raises: `Resolve` has no error case, and yields `None` only when both lookups did. */
  lemma ResolveNoneIffBothFail(url: string, net: Network)
    ensures Resolve(url, net).None? <==> FetchOg(url, net).None? && ChatMeta(url, net).None?
  {
  }

  /** When the page lookup succeeds, whatever Telegram would answer is irrelevant. */
  lemma ChatUnusedWhenPageAnswers(url: string, net: Network, chat: string -> ChatReply)
    requires FetchOg(url, net).Some?
    ensures Resolve(url, net.(chat := chat)) == Resolve(url, net)
  {
    assert FetchOg(url, net.(chat := chat)) == FetchOg(url, net);
  }

  /**
   * A page that answers without an image wins over the chat: the result has no logo, even
   * when the chat has a profile photo, and even when the page has no title either.
   */
  lemma PageWithoutImageWins(url: string, net: Network)
    requires !Http.Raises(net.page(url)) && !Truthy(net.page(url).body.image)
    ensures Resolve(url, net).Some? && Resolve(url, net).value.logo.None?
    ensures !Truthy(net.page(url).body.title) ==> Resolve(url, net) == Some(Meta(None, None))
  {
  }

  /** For a canonical link the chat asked about is `@` followed by the link's handle. */
  lemma ChatQueryOfCanonical(h: string)
    requires Links.IsFoldedHandle(h)
    ensures ChatQuery(Links.Canonical(h)) == "@" + h
  {
    Links.AfterLastSlashIsHandle(h);
  }

  /** For a canonical link, a title found by the chat lookup is never empty. */
  lemma ChatTitleNonEmpty(h: string, net: Network)
    requires Links.IsFoldedHandle(h) && ChatMeta(Links.Canonical(h), net).Some?
    ensures Truthy(ChatMeta(Links.Canonical(h), net).value.title)
  {
    Links.AfterLastSlashIsHandle(h);
  }
}
