/**
 * `deploy_to_vercel` (bot.py:100-150): the project name, the file manifest built by an
 * append loop, the request, and how the reply decides the outcome. The POST itself is a
 * parameter: the reply it would get.
 */
module Deployment {
  import opened Wrappers
  import Base64
  import Utf8
  import Http
  import opened Logos

  /** One `{"file": …, "data": …, "encoding": …}` object of the manifest. */
  datatype FileEntry = FileEntry(file: string, data: string, encoding: string)

  /** The parts of the payload that vary; `projectSettings` is all nulls and is left out. */
  datatype Request = Request(name: string, files: seq<FileEntry>, target: string)

  /** Why `deploy_to_vercel` raised: an error status from Vercel, or no reply. */
  datatype DeployError = Rejected(status: int) | Unreachable

  function TextEntry(file: string, text: string): FileEntry
  {
    FileEntry(file, Base64.Encode(Utf8.Encode(text)), "base64")
  }

  function LogoEntry(logo: Logo): FileEntry
  {
    FileEntry(logo.name, Base64.Encode(logo.bytes), "base64")
  }

  /** One entry per logo, in order. */
  function LogoEntries(logos: seq<Logo>): (entries: seq<FileEntry>)
    ensures |entries| == |logos|
    ensures forall i :: 0 <= i < |logos| ==> entries[i] == LogoEntry(logos[i])
    decreases |logos|
  {
    if logos == [] then [] else LogoEntries(logos[..|logos| - 1]) + [LogoEntry(logos[|logos| - 1])]
  }

  /**
   * The `files` list: `index.html`, then `style.css`, then one entry per logo under the
   * logo's own name, every one base64-encoded.
   */
  function Manifest(html: string, css: string, logos: seq<Logo>): (files: seq<FileEntry>)
    ensures |files| == 2 + |logos|
    ensures files[0] == TextEntry("index.html", html) && files[1] == TextEntry("style.css", css)
    ensures forall i :: 0 <= i < |logos| ==> files[2 + i] == LogoEntry(logos[i])
    ensures forall i :: 0 <= i < |logos| ==> files[2 + i].file == logos[i].name
    ensures forall i :: 0 <= i < |files| ==> files[i].encoding == "base64"
  {
    var head := [TextEntry("index.html", html), TextEntry("style.css", css)];
    var tail := LogoEntries(logos);
    assert forall i :: 0 <= i < |logos| ==> (head + tail)[2 + i] == tail[i];
    head + tail
  }

  /** Decoding the manifest gives back the page and stylesheet text as UTF-8, and every logo's bytes. */
  lemma ManifestDecodes(html: string, css: string, logos: seq<Logo>)
    ensures Base64.Decode(Manifest(html, css, logos)[0].data) == Some(Utf8.Encode(html))
    ensures Base64.Decode(Manifest(html, css, logos)[1].data) == Some(Utf8.Encode(css))
    ensures forall i :: 0 <= i < |logos| ==> Base64.Decode(Manifest(html, css, logos)[2 + i].data) == Some(logos[i].bytes)
  {
    var files := Manifest(html, css, logos);
    assert files[0].data == Base64.Encode(Utf8.Encode(html));
    Base64.DecodeEncode(Utf8.Encode(html));
    assert files[1].data == Base64.Encode(Utf8.Encode(css));
    Base64.DecodeEncode(Utf8.Encode(css));
    forall i | 0 <= i < |logos|
      ensures Base64.Decode(files[2 + i].data) == Some(logos[i].bytes)
    {
      assert files[2 + i].data == Base64.Encode(logos[i].bytes);
      Base64.DecodeEncode(logos[i].bytes);
    }
  }

  /** The list construction of bot.py:109-127: two fixed entries, then one append per logo. */
  method BuildFiles(html: string, css: string, logos: seq<Logo>) returns (files: seq<FileEntry>)
    ensures files == Manifest(html, css, logos)
  {
    files := [TextEntry("index.html", html), TextEntry("style.css", css)];
    for i := 0 to |logos|
      invariant files == [TextEntry("index.html", html), TextEntry("style.css", css)] + LogoEntries(logos[..i])
    {
      assert logos[..i + 1][..i] == logos[..i];
      files := files + [LogoEntry(logos[i])];
    }
    assert logos[..|logos|] == logos;
  }

  predicate IsLowerHex(s: string)
  {
    forall i :: 0 <= i < |s| ==> '0' <= s[i] <= '9' || 'a' <= s[i] <= 'f'
  }

  /** `uuid.uuid4().hex[:6]`. */
  predicate IsSlug(s: string)
  {
    |s| == 6 && IsLowerHex(s)
  }

  const DefaultPrefix: string := "multilink-"

  /** The project deployed to: the one given, or `multilink-` and a fresh six-digit hex slug. */
  function ProjectName(project: Option<string>, slug: string): (name: string)
    requires project.None? ==> IsSlug(slug)
    ensures project.Some? ==> name == project.value
    ensures project.None? ==> |name| == 16 && name[..10] == DefaultPrefix && IsLowerHex(name[10..]) && name[10..] == slug
  {
    if project.Some? then project.value else DefaultPrefix + slug
  }

  const UrlScheme: string := "https://"
  const UrlHost: string := ".vercel.app"

  /** The URL returned for a project (bot.py:150). */
  function ProjectUrl(project: string): (url: string)
    ensures |url| == |project| + 19
    ensures url[..8] == UrlScheme && url[|url| - 11..] == UrlHost && url[8..|url| - 11] == project
  {
    UrlScheme + project + UrlHost
  }

  /** The project name can be read back from the URL, so different projects get different URLs. */
  lemma ProjectUrlInjective(a: string, b: string)
    requires ProjectUrl(a) == ProjectUrl(b)
    ensures a == b
  {
    var u := ProjectUrl(a);
    assert a == u[8..|u| - 11];
  }

  /**
   * `deploy_to_vercel(html, css, logos, project)` up to and including the POST, whose
   * reply is `reply`. The request names the project and carries the manifest; the call
   * raises when there is no reply or `raise_for_status()` raises, and otherwise returns
   * the URL and the project name.
   */
  method Deploy(html: string, css: string, logos: seq<Logo>, project: Option<string>, slug: string, reply: Http.Reply<string>)
    returns (request: Request, result: Result<(string, string), DeployError>)
    requires project.None? ==> IsSlug(slug)
    ensures request == Request(ProjectName(project, slug), Manifest(html, css, logos), "production")
    ensures reply.NoReply? ==> result == Failure(Unreachable)
    ensures reply.Reply? && Http.IsErrorStatus(reply.status) ==> result == Failure(Rejected(reply.status))
    ensures !Http.Raises(reply) ==> result == Success((ProjectUrl(request.name), request.name))
  {
    var name := if project.Some? then project.value else DefaultPrefix + slug;
    var files := BuildFiles(html, css, logos);
    request := Request(name, files, "production");
    if reply.NoReply? {
      result := Failure(Unreachable);
    } else if Http.IsErrorStatus(reply.status) {
      result := Failure(Rejected(reply.status));
    } else {
      result := Success((UrlScheme + name + UrlHost, name));
    }
  }
}
