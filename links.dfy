/**
 * `normalize_tg_link` (bot.py:52-60): accepts a Telegram handle, bare or as a t.me link,
 * and rewrites it to the canonical `https://t.me/<handle>`.
 *
 * The two regular expressions are written out as predicates. The first,
 * `^@?([A-Za-z0-9_]{5,32})$`, is matched case-sensitively. The second,
 * `^(https?://)?t\.me/([A-Za-z0-9_]{5,32})$`, is matched with `re.IGNORECASE`. Under that
 * flag Python compares characters by their simple lower-case form and adds the
 * equivalents it knows for `i` and `s`. So the class `[A-Za-z0-9_]` then also admits
 * U+0130 and U+212A (whose lower case is `i` and `k`) and U+0131 and U+017F (dotless i,
 * long s), and the literal `s` of `https` also matches U+017F.
 */
module Links {
  import opened Wrappers
  import Text

  /** The only error `normalize_tg_link` raises (`ValueError`). */
  datatype LinkError = InvalidLink

  const Prefix: string := "https://t.me/"

  /** `[A-Za-z0-9_]`, matched case-sensitively. */
  predicate IsHandleChar(c: char)
  {
    'A' <= c <= 'Z' || 'a' <= c <= 'z' || '0' <= c <= '9' || c == '_'
  }

  /** `[A-Za-z0-9_]` under `re.IGNORECASE`. */
  predicate IsFoldedHandleChar(c: char)
  {
    IsHandleChar(c) || c == '\U{130}' || c == '\U{131}' || c == '\U{17F}' || c == '\U{212A}'
  }

  /** `[A-Za-z0-9_]{5,32}` matched case-sensitively. */
  predicate IsHandle(h: string)
  {
    5 <= |h| <= 32 && forall i :: 0 <= i < |h| ==> IsHandleChar(h[i])
  }

  /** `[A-Za-z0-9_]{5,32}` under `re.IGNORECASE`. */
  predicate IsFoldedHandle(h: string)
  {
    5 <= |h| <= 32 && forall i :: 0 <= i < |h| ==> IsFoldedHandleChar(h[i])
  }

  /** Input character `c` matches the pattern character `d` under `re.IGNORECASE`. */
  predicate FoldedCharMatch(c: char, d: char)
  {
    || c == d
    || ('a' <= d <= 'z' && c as int == d as int - 32)
    || (d == 's' && c == '\U{17F}')
    || (d == 'k' && c == '\U{212A}')
    || (d == 'i' && (c == '\U{130}' || c == '\U{131}'))
  }

  /** `s` matches the literal text `lit` under `re.IGNORECASE`. */
  predicate FoldedMatch(s: string, lit: string)
  {
    |s| == |lit| && forall i :: 0 <= i < |s| ==> FoldedCharMatch(s[i], lit[i])
  }

  /** The canonical link for a handle: the text the function returns. */
  function Canonical(h: string): (link: string)
    ensures |link| == |Prefix| + |h| && link[..|Prefix|] == Prefix && link[|Prefix|..] == h
  {
    Prefix + h
  }

  /** The results `normalize_tg_link` can produce: the prefix and a handle with its case preserved. */
  predicate IsCanonical(link: string)
  {
    |link| >= |Prefix| && link[..|Prefix|] == Prefix && IsFoldedHandle(link[|Prefix|..])
  }

  /** The handle of a canonical link. */
  function HandleOf(link: string): (h: string)
    requires IsCanonical(link)
    ensures Canonical(h) == link
  {
    link[|Prefix|..]
  }

  /**
   * The reference description of what the two patterns accept: the stripped text `t`
   * ends in the handle `h`, and what comes before `h` is nothing or `@` (first pattern,
   * ASCII handle), or `t.me/`, `http://t.me/` or `https://t.me/` in any case (second pattern).
   */
  predicate Accepts(t: string, h: string)
  {
    |h| <= |t| && t[|t| - |h|..] == h &&
    var p := t[..|t| - |h|];
    || ((p == "" || p == "@") && IsHandle(h))
    || ((FoldedMatch(p, "t.me/") || FoldedMatch(p, "http://t.me/") || FoldedMatch(p, "https://t.me/"))
        && IsFoldedHandle(h))
  }

  lemma FoldedMatchConcat(a: string, x: string, b: string, y: string)
    requires FoldedMatch(a, x) && FoldedMatch(b, y)
    ensures FoldedMatch(a + b, x + y)
  {
    forall i | 0 <= i < |a + b| ensures FoldedCharMatch((a + b)[i], (x + y)[i]) {
      if i < |a| {
        assert (a + b)[i] == a[i] && (x + y)[i] == x[i];
      } else {
        assert (a + b)[i] == b[i - |a|] && (x + y)[i] == y[i - |a|];
      }
    }
  }

  /** `(https?://)?` under `re.IGNORECASE`: the length of the leading scheme, if there is one. */
  function SchemeLength(t: string): (n: nat)
    ensures n <= |t|
  {
    if |t| >= 8 && FoldedMatch(t[..8], "https://") then 8
    else if |t| >= 7 && FoldedMatch(t[..7], "http://") then 7
    else 0
  }

  /** The two patterns tried in turn on the stripped text; the result is the captured handle. */
  function Match(t: string): (r: Result<string, LinkError>)
  {
    if IsHandle(t) then Success(t)
    else if |t| > 0 && t[0] == '@' && IsHandle(t[1..]) then Success(t[1..])
    else
      var rest := t[SchemeLength(t)..];
      if |rest| >= 5 && FoldedMatch(rest[..5], "t.me/") && IsFoldedHandle(rest[5..]) then Success(rest[5..])
      else Failure(InvalidLink)
  }

  /** A handle `Match` captures is one that `Accepts` describes. */
  lemma MatchSound(t: string)
    requires Match(t).Success?
    ensures Accepts(t, Match(t).value) && IsFoldedHandle(Match(t).value)
  {
    var h := Match(t).value;
    if IsHandle(t) {
      assert t[..0] == "";
    } else if |t| > 0 && t[0] == '@' && IsHandle(t[1..]) {
      assert t[..1] == "@";
    } else {
      var n := SchemeLength(t);
      var rest := t[n..];
      assert h == t[n + 5..];
      assert t[|t| - |h|..] == h;
      var p := t[..n + 5];
      assert t[..|t| - |h|] == p;
      assert p == t[..n] + rest[..5];
      if n == 8 {
        FoldedMatchConcat(t[..8], "https://", rest[..5], "t.me/");
        assert "https://" + "t.me/" == "https://t.me/";
      } else if n == 7 {
        FoldedMatchConcat(t[..7], "http://", rest[..5], "t.me/");
        assert "http://" + "t.me/" == "http://t.me/";
      } else {
        assert p == rest[..5];
      }
    }
  }

  /** A handle that `Accepts` describes is the one `Match` captures. */
  lemma MatchComplete(t: string, h: string)
    requires Accepts(t, h)
    ensures Match(t) == Success(h)
  {
    var p := t[..|t| - |h|];
    assert t == p + h;
    if p == "" {
      assert t == h;
    } else if p == "@" {
      assert !IsHandleChar(t[0]);
      assert t[1..] == h;
    } else {
      assert IsFoldedHandle(h);
      assert t[0] == p[0];
      assert t[0] != '@';
      if FoldedMatch(p, "t.me/") {
        assert t[1] == p[1] && !IsHandleChar(t[1]);
        assert FoldedCharMatch(t[0], 't');
        assert !FoldedCharMatch(t[0], 'h');
        assert SchemeLength(t) == 0;
        assert t[..5] == p;
        assert t[5..] == h;
      } else if FoldedMatch(p, "http://t.me/") {
        assert t[4] == p[4] && !IsHandleChar(t[4]);
        assert t[..7] == p[..7];
        assert FoldedCharMatch(t[4], ':');
        assert !FoldedCharMatch(t[4], 's');
        assert FoldedMatch(t[..7], "http://");
        assert SchemeLength(t) == 7;
        assert t[7..][..5] == p[7..];
        assert t[7..][5..] == h;
      } else {
        assert FoldedMatch(p, "https://t.me/");
        assert t[5] == p[5] && !IsHandleChar(t[5]);
        assert t[..8] == p[..8];
        assert FoldedMatch(t[..8], "https://");
        assert SchemeLength(t) == 8;
        assert t[8..][..5] == p[8..];
        assert t[8..][5..] == h;
      }
    }
  }

  /**
   * `normalize_tg_link(text)`. The text is stripped first. A result is always canonical,
   * and its handle is exactly the end of the stripped text that `Accepts` describes.
   */
  function Normalize(text: string): Result<string, LinkError>
  {
    var t := Text.Strip(text);
    match Match(t)
    case Success(h) => Success(Canonical(h))
    case Failure(e) => Failure(e)
  }

  /** A result of `Normalize` is canonical, and its handle is the end of the stripped text that `Accepts` describes. */
  lemma NormalizeSound(text: string)
    requires Normalize(text).Success?
    ensures IsCanonical(Normalize(text).value)
    ensures Accepts(Text.Strip(text), HandleOf(Normalize(text).value))
  {
    MatchSound(Text.Strip(text));
  }

  /** A text that `Accepts` describes is normalised to the canonical link of its handle. */
  lemma NormalizeAccepts(text: string, h: string)
    requires Accepts(Text.Strip(text), h)
    ensures Normalize(text) == Success(Canonical(h))
  {
    MatchComplete(Text.Strip(text), h);
  }

  /** `normalize_tg_link` succeeds exactly on the texts `Accepts` describes. */
  lemma NormalizeExactlyAccepts(text: string)
    ensures Normalize(text).Success? <==> exists h :: Accepts(Text.Strip(text), h)
  {
    if exists h :: Accepts(Text.Strip(text), h) {
      var h :| Accepts(Text.Strip(text), h);
      NormalizeAccepts(text, h);
    }
    if Normalize(text).Success? {
      NormalizeSound(text);
    }
  }

  /** Stripping the text first, as `edit_new` does (bot.py:339-341), does not change the outcome. */
  lemma NormalizeStripped(text: string)
    ensures Normalize(Text.Strip(text)) == Normalize(text)
  {
    Text.StripIdempotent(text);
    NormalizeOfSameStrip(Text.Strip(text), text);
  }

  /** `normalize_tg_link` looks only at the stripped text. */
  lemma NormalizeOfSameStrip(a: string, b: string)
    requires Text.Strip(a) == Text.Strip(b)
    ensures Normalize(a) == Normalize(b)
  {
  }

  /** A canonical link carries no whitespace at either end. */
  lemma CanonicalTrimmed(link: string)
    requires IsCanonical(link)
    ensures Text.Trimmed(link)
  {
    var h := link[|Prefix|..];
    assert link[0] == Prefix[0];
    assert link[|link| - 1] == h[|h| - 1];
  }

  lemma FoldedMatchSelf(s: string)
    ensures FoldedMatch(s, s)
  {
  }

  /** A canonical link is accepted as the `https://t.me/` form of its own handle. */
  lemma CanonicalNormalizes(h: string)
    requires IsFoldedHandle(h)
    ensures Normalize(Canonical(h)) == Success(Canonical(h))
  {
    var link := Canonical(h);
    CanonicalTrimmed(link);
    Text.StripTrimmed(link);
    assert link[|link| - |h|..] == h;
    assert link[..|link| - |h|] == Prefix;
    FoldedMatchSelf(Prefix);
    assert Accepts(link, h);
    NormalizeAccepts(link, h);
  }

  /** The output of `normalize_tg_link` normalises to itself. */
  lemma NormalizeIdempotent(text: string)
    requires Normalize(text).Success?
    ensures Normalize(Normalize(text).value) == Normalize(text)
  {
    NormalizeSound(text);
    CanonicalNormalizes(HandleOf(Normalize(text).value));
  }

  /** The text after the last `/` of a canonical link is its handle (the name queried at bot.py:84-86). */
  lemma AfterLastSlashIsHandle(h: string)
    requires IsFoldedHandle(h)
    ensures Text.AfterLast(Canonical(h), '/') == h
  {
    assert '/' !in h by {
      forall i | 0 <= i < |h| ensures h[i] != '/' {
        assert IsFoldedHandleChar(h[i]);
      }
    }
    assert Canonical(h) == "https://t.me" + ['/'] + h;
    Text.AfterLastUnique("https://t.me", '/', h);
  }

  /** An `@` followed by a handle is normalised to the canonical link of that handle. */
  lemma NormalizeAtForm(t: string)
    requires |t| > 0 && t[0] == '@' && IsHandle(t[1..])
    ensures Normalize(t) == Success(Canonical(t[1..]))
  {
    var h := t[1..];
    assert t[|t| - 1] == h[|h| - 1];
    assert IsHandleChar(h[|h| - 1]);
    Text.StripTrimmed(t);
    assert t[..1] == "@";
    AcceptsAt(t);
    NormalizeAccepts(t, h);
  }

  lemma AcceptsAt(t: string)
    requires |t| > 0 && t[0] == '@' && IsHandle(t[1..])
    ensures Accepts(t, t[1..])
  {
    assert t[..1] == "@";
  }

  /** Nothing is accepted from text that strips to less than five characters. */
  lemma NormalizeRejectsShort(text: string)
    requires |Text.Strip(text)| < 5
    ensures Normalize(text).Failure?
  {
    if Normalize(text).Success? {
      NormalizeSound(text);
    }
  }

  /** The scheme a link to a four-character host starts with is the one `SchemeLength` skips. */
  lemma SchemeLengthOfHostLink(t: string, scheme: string, host: string, path: string)
    requires scheme == "" || FoldedMatch(scheme, "http://") || FoldedMatch(scheme, "https://")
    requires |host| == 4 && t == scheme + host + "/" + path
    ensures SchemeLength(t) == |scheme|
  {
    var n := |scheme|;
    assert t[n + 4] == '/';
    if n == 0 {
      assert |t| >= 8 ==> !FoldedCharMatch(t[..8][4], "https://"[4]);
      assert |t| >= 7 ==> !FoldedCharMatch(t[..7][4], "http://"[4]);
    } else if n == 7 {
      assert t[..n] == scheme;
      assert scheme[4] == ':' && t[4] == ':';
      assert !FoldedCharMatch(t[..8][4], "https://"[4]);
      assert t[..7] == scheme;
    } else {
      assert t[..8] == scheme;
    }
  }

  /** `Match` rejects a link to a four-character host other than t.me. */
  lemma MatchRejectsOtherHost(t: string, scheme: string, host: string, path: string)
    requires scheme == "" || FoldedMatch(scheme, "http://") || FoldedMatch(scheme, "https://")
    requires |host| == 4 && !FoldedMatch(host, "t.me")
    requires t == scheme + host + "/" + path
    ensures Match(t).Failure?
  {
    var n := |scheme|;
    assert t[n + 4] == '/' && !IsHandleChar(t[n + 4]);
    assert !IsHandle(t);
    assert |t| > 0 ==> t[1..][n + 3] == '/' && !IsHandle(t[1..]);
    SchemeLengthOfHostLink(t, scheme, host, path);
    var rest := t[n..];
    var i :| 0 <= i < 4 && !FoldedCharMatch(host[i], "t.me"[i]);
    assert |rest| >= 5 && t[n + i] == host[i];
    assert rest[..5][i] == t[n + i] && "t.me/"[i] == "t.me"[i];
  }

  /**
   * A link to any four-character host other than t.me (in any letter case) is rejected,
   * whichever of the accepted schemes it starts with and whatever path follows the host.
   */
  lemma NormalizeRejectsOtherHost(text: string, scheme: string, host: string, path: string)
    requires scheme == "" || FoldedMatch(scheme, "http://") || FoldedMatch(scheme, "https://")
    requires |host| == 4 && !FoldedMatch(host, "t.me")
    requires Text.Strip(text) == scheme + host + "/" + path
    ensures Normalize(text).Failure?
  {
    MatchRejectsOtherHost(Text.Strip(text), scheme, host, path);
  }
}
