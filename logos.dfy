/** A logo as the bot carries it between steps, and the file name it is published under. */
module Logos {
  import Text
  import Base64

  /** The downloaded bytes and the file name, `logo.<ext>` (the `logoN_bytes`/`logoN_name` pairs). */
  datatype Logo = Logo(bytes: seq<Base64.byte>, name: string)

  const Stem: string := "logo."

  /**
   * `f"logo.{path.rsplit('.', 1)[-1]}"` (bot.py:75-76, 93-94, 199-201). The extension is
   * the text after the last `.` of `path`, or all of `path` when it has no `.`.
   */
  function LogoFileName(path: string): (name: string)
    ensures |name| >= |Stem| && name[..|Stem|] == Stem
    ensures var ext := name[|Stem|..];
      '.' !in ext && |ext| <= |path| && path[|path| - |ext|..] == ext &&
      (|ext| < |path| ==> path[|path| - |ext| - 1] == '.')
  {
    Stem + Text.AfterLast(path, '.')
  }

  /** A path ending in `.ext`, where `ext` has no dot, is published as `logo.ext`. */
  lemma LogoFileNameOfExtension(stem: string, ext: string)
    requires '.' !in ext
    ensures LogoFileName(stem + "." + ext) == Stem + ext
  {
    Text.AfterLastUnique(stem, '.', ext);
  }

  /** A path without any dot becomes the whole extension. */
  lemma LogoFileNameWithoutDot(path: string)
    requires '.' !in path
    ensures LogoFileName(path) == Stem + path
  {
  }

  /**
   * The name of a logo fetched from an `og:image` URL (bot.py:75-76): the query string is
   * cut at the first `?` before the extension is taken.
   */
  function ImageFileName(url: string): (name: string)
    ensures '?' !in name
  {
    var path := Text.BeforeFirst(url, '?');
    var name := LogoFileName(path);
    AbsentFromSuffix(path, name[|Stem|..], '?');
    assert name == Stem + name[|Stem|..];
    name
  }

  lemma AbsentFromSuffix(s: string, suffix: string, c: char)
    requires c !in s && |suffix| <= |s| && s[|s| - |suffix|..] == suffix
    ensures c !in suffix
  {
    forall i | 0 <= i < |suffix| ensures suffix[i] != c {
      assert suffix[i] == s[|s| - |suffix| + i];
    }
  }

  /** The query string of an image URL does not change its file name. */
  lemma ImageFileNameIgnoresQuery(path: string, query: string)
    requires '?' !in path
    ensures ImageFileName(path + "?" + query) == LogoFileName(path)
  {
    var url := path + "?" + query;
    assert url[|path|] == '?';
    assert url[..|path|] == path;
  }
}
