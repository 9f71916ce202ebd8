/**
 * The page templates are filled by chains of `str.replace` calls, one placeholder at a
 * time (bot.py:259-269, 278, 357-367; update_design.py:36-44). Each step sees the text the
 * previous steps produced, values they substituted included.
 */
module Render {
  import Text

  datatype Placeholder = Title | Logo | Link1 | Logo1 | Link2 | Logo2 | Link3 | Logo3

  /** The text of a placeholder in the template. */
  function Token(p: Placeholder): (t: string)
    ensures |t| >= 8 && t[..2] == "%%" && t[|t| - 2..] == "%%"
  {
    match p
    case Title => "%%TITLE%%"
    case Logo => "%%LOGO%%"
    case Link1 => "%%LINK1%%"
    case Logo1 => "%%LOGO1%%"
    case Link2 => "%%LINK2%%"
    case Logo2 => "%%LOGO2%%"
    case Link3 => "%%LINK3%%"
    case Logo3 => "%%LOGO3%%"
  }

  /** `s.replace(Token(p0), v0).replace(Token(p1), v1)...` for the substitutions in order. */
  function ReplaceChain(s: string, subs: seq<(Placeholder, string)>): string
    decreases |subs|
  {
    if subs == [] then s
    else ReplaceChain(Text.ReplaceAll(s, Token(subs[0].0), subs[0].1), subs[1..])
  }

  /** The values a page is filled with. */
  datatype Fields = Fields(title: string, link1: string, logo1: string, link2: string, logo2: string, link3: string, logo3: string)

  /** The order of bot.py:259-269 and 357-367: `%%LOGO%%` carries logo 1's name. */
  function BotOrder(f: Fields): (subs: seq<(Placeholder, string)>)
    ensures |subs| == 8
    ensures forall i, j :: 0 <= i < j < |subs| ==> subs[i].0 != subs[j].0
    ensures subs[1] == (Logo, f.logo1) && subs[3] == (Logo1, f.logo1)
  {
    [(Title, f.title), (Logo, f.logo1), (Link1, f.link1), (Logo1, f.logo1),
     (Link2, f.link2), (Logo2, f.logo2), (Link3, f.link3), (Logo3, f.logo3)]
  }

  /** The order of update_design.py:36-44, which has no `%%LOGO%%` step and puts each logo before its link. */
  function DesignOrder(f: Fields): (subs: seq<(Placeholder, string)>)
    ensures |subs| == 7
    ensures forall i :: 0 <= i < |subs| ==> subs[i].0 != Logo
  {
    [(Title, f.title), (Logo1, f.logo1), (Link1, f.link1), (Logo2, f.logo2),
     (Link2, f.link2), (Logo3, f.logo3), (Link3, f.link3)]
  }

  function RenderPage(template: string, f: Fields): string
  {
    ReplaceChain(template, BotOrder(f))
  }

  /** What creation actually deploys (bot.py:278): only the title is substituted. */
  function RenderTitleOnly(template: string, title: string): string
  {
    Text.ReplaceAll(template, Token(Title), title)
  }

  function RenderDesign(template: string, f: Fields): string
  {
    ReplaceChain(template, DesignOrder(f))
  }

  /** Every placeholder begins with `%`, so text without `%` passes through any chain unchanged. */
  lemma {:induction false} ChainWithoutPercent(s: string, subs: seq<(Placeholder, string)>)
    requires '%' !in s
    ensures ReplaceChain(s, subs) == s
    decreases |subs|
  {
    if subs != [] {
      Text.AbsentFirstChar(s, Token(subs[0].0));
      Text.ReplaceAllAbsent(s, Token(subs[0].0), subs[0].1);
      ChainWithoutPercent(s, subs[1..]);
    }
  }

  /** A text that is exactly the pattern is replaced by the replacement. */
  lemma ReplaceWhole(p: string, r: string)
    requires p != []
    ensures Text.ReplaceAll(p, p, r) == r
  {
    assert p[..|p|] == p;
    assert p[|p|..] == [];
  }

  /** A placeholder never occurs in a different placeholder. */
  lemma TokensDistinct(p: Placeholder, q: Placeholder)
    requires p != q
    ensures !Text.Occurs(Token(q), Token(p))
  {
    var t, u := Token(q), Token(p);
    if |u| <= |t| {
      assert |t[1..][1..]| < |u|;
      assert !Text.Occurs(t[1..][1..], u);
      if |u| <= |t[1..]| {
        assert t[1..][..|u|][1] != u[1];
      }
      assert !Text.Occurs(t[1..], u);
      assert t[..|u|] != u by {
        if |t| == |u| {
          assert t[2] != u[2] || t[3] != u[3] || t[|u| - 3] != u[|u| - 3];
        } else {
          assert t[..|u|][|u| - 2] != u[|u| - 2];
        }
      }
    }
  }

  /** A placeholder other than the one replaced survives one replace step. */
  lemma OtherTokenSurvives(p: Placeholder, q: Placeholder, v: string)
    requires p != q
    ensures Text.ReplaceAll(Token(q), Token(p), v) == Token(q)
  {
    TokensDistinct(p, q);
    Text.ReplaceAllAbsent(Token(q), Token(p), v);
  }

  /** A chain that never names `q` leaves the text `Token(q)` as it is. */
  lemma {:induction false} ChainKeepsToken(q: Placeholder, subs: seq<(Placeholder, string)>)
    requires forall i :: 0 <= i < |subs| ==> subs[i].0 != q
    ensures ReplaceChain(Token(q), subs) == Token(q)
    decreases |subs|
  {
    if subs != [] {
      OtherTokenSurvives(subs[0].0, q, subs[0].1);
      ChainKeepsToken(q, subs[1..]);
    }
  }

  /**
   * The chain is sequential, not simultaneous: a title that reads `%%LINK1%%` is itself
   * rewritten by the later `%%LINK1%%` step and ends up as the first link.
   */
  lemma TitleIsRescanned(f: Fields)
    requires f.title == Token(Link1) && '%' !in f.link1
    ensures RenderPage(Token(Title), f) == f.link1
  {
    var subs := BotOrder(f);
    ReplaceWhole(Token(Title), f.title);
    assert RenderPage(Token(Title), f) == ReplaceChain(Token(Link1), subs[1..]);
    OtherTokenSurvives(Logo, Link1, f.logo1);
    assert subs[1..][1..] == subs[2..];
    assert ReplaceChain(Token(Link1), subs[1..]) == ReplaceChain(Token(Link1), subs[2..]);
    ReplaceWhole(Token(Link1), f.link1);
    assert subs[2..][1..] == subs[3..];
    assert ReplaceChain(Token(Link1), subs[2..]) == ReplaceChain(f.link1, subs[3..]);
    ChainWithoutPercent(f.link1, subs[3..]);
  }

  /** update_design.py has no `%%LOGO%%` step: that placeholder is left in the page. */
  lemma DesignKeepsLogoToken(f: Fields)
    ensures RenderDesign(Token(Logo), f) == Token(Logo)
  {
    ChainKeepsToken(Logo, DesignOrder(f));
  }

  /** bot.py fills `%%LOGO%%` with logo 1's name. */
  lemma PageFillsLogoToken(f: Fields)
    requires '%' !in f.logo1
    ensures RenderPage(Token(Logo), f) == f.logo1
  {
    var subs := BotOrder(f);
    OtherTokenSurvives(Title, Logo, f.title);
    assert RenderPage(Token(Logo), f) == ReplaceChain(Token(Logo), subs[1..]);
    ReplaceWhole(Token(Logo), f.logo1);
    assert subs[1..][1..] == subs[2..];
    assert ReplaceChain(Token(Logo), subs[1..]) == ReplaceChain(f.logo1, subs[2..]);
    ChainWithoutPercent(f.logo1, subs[2..]);
  }

  /** The page creation deploys keeps every placeholder but the title. */
  lemma TitleOnlyKeepsOtherTokens(p: Placeholder, title: string)
    requires p != Title
    ensures RenderTitleOnly(Token(p), title) == Token(p)
  {
    OtherTokenSurvives(Title, p, title);
  }
}
