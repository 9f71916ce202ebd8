/**
 * The conversation handlers of bot.py (bot.py:153-382) as methods of one object holding
 * the state they change: `user_state` (the creation sessions), `ctx.user_data` (the edit
 * key and choice), the registry `projects.json`, and the deployments sent to Vercel.
 * Network replies, the downloaded photo and the two random hex strings are parameters.
 */
module Conversation {
  import opened Wrappers
  import Text
  import Http
  import Links
  import opened Logos
  import Metadata
  import Render
  import Deployment
  import Registry

  /** The states of bot.py:35, and the end of the conversation. */
  datatype State = Link1 | Link2 | Link3 | AskTitle | AskLogo | EditKey | EditChoice | EditNew | End

  /** A creation session: which of the dictionary's keys are set, and to what. */
  datatype Session = Session(
    link1: Option<string>, title: Option<string>, logo1: Option<Logo>,
    link2: Option<string>, logo2: Option<Logo>,
    link3: Option<string>, logo3: Option<Logo>)

  const EmptySession := Session(None, None, None, None, None, None, None)

  /** `ctx.user_data`: the key and the choice the edit flow remembers between messages. */
  datatype EditData = EditData(editKey: Option<string>, editChoice: Option<string>)

  /** The exceptions a handler lets escape (each a `KeyError`, a download error or a deploy error). */
  datatype Failure =
    | SessionMissing | FieldMissing | EditDataMissing | UnknownChoice | RecordMissing
    | CorruptLogoData | DownloadFailed | DeployFailed(error: Deployment.DeployError)

  /** A handler returns the next state or raises. */
  datatype Outcome = Next(state: State) | Raised(failure: Failure)

  /** `photo.get_file()` and `download_as_bytearray()` for the photo sent at `ASK_LOGO`. */
  datatype PhotoDownload = Downloaded(filePath: string, content: seq<Base64.byte>) | DownloadError

  /** `uuid.uuid4().hex[:16]`. */
  predicate IsKey(key: string)
  {
    |key| == 16 && Deployment.IsLowerHex(key)
  }

  /** What the session holds when the conversation waits in each creation state. */
  predicate Fits(st: State, s: Session)
  {
    var laterUnset := s.link2.None? && s.logo2.None? && s.link3.None? && s.logo3.None?;
    match st
    case Link1 => s == EmptySession
    case AskTitle => s.link1.Some? && s.title.None? && laterUnset
    case AskLogo => s.link1.Some? && s.title.Some? && laterUnset
    case Link2 => s.link1.Some? && s.title.Some? && s.logo1.Some? && laterUnset
    case Link3 => s.link1.Some? && s.title.Some? && s.logo1.Some? && s.link2.Some? && s.logo2.Some? && s.link3.None? && s.logo3.None?
    case _ => true
  }

  /** Every field `_finalize_creation` reads is set. */
  predicate Complete(s: Session)
  {
    s.link1.Some? && s.title.Some? && s.logo1.Some? && s.link2.Some? && s.logo2.Some? && s.link3.Some? && s.logo3.Some?
  }

  /** `meta and meta[1]`: the lookup found a logo with at least one byte. */
  predicate FoundLogo(meta: Option<Metadata.Meta>)
  {
    meta.Some? && Metadata.HasLogo(meta.value)
  }

  /**
   * The logo slot 2 or 3 receives (bot.py:218-225, 242-248): the one found, or else
   * logo 1's; `None` when that is needed and missing, where bot.py raises `KeyError`.
   */
  function SlotLogo(meta: Option<Metadata.Meta>, logo1: Option<Logo>): (r: Option<Logo>)
    ensures FoundLogo(meta) ==> r.Some? && r.value.bytes != [] && r == meta.value.logo
    ensures !FoundLogo(meta) ==> r == logo1
  {
    if FoundLogo(meta) then meta.value.logo else logo1
  }

  /** The three logos in slot order. */
  function SessionLogos(s: Session): (logos: seq<Logo>)
    requires Complete(s)
    ensures |logos| == 3
  {
    [s.logo1.value, s.logo2.value, s.logo3.value]
  }

  /** The record stored for a finished session (bot.py:282-294). */
  function CreatedRecord(s: Session, project: string): (r: Registry.Record)
    requires Complete(s)
    ensures Registry.StoredLogos(r) == Some(SessionLogos(s))
    ensures r.project == project && r.title == s.title.value
    ensures r.link1 == s.link1.value && r.link2 == s.link2.value && r.link3 == s.link3.value
  {
    Registry.StoredLogosOfNewRecord(project, s.title.value, s.link1.value, s.link2.value, s.link3.value,
      s.logo1.value, s.logo2.value, s.logo3.value);
    Registry.NewRecord(project, s.title.value, s.link1.value, s.link2.value, s.link3.value,
      s.logo1.value, s.logo2.value, s.logo3.value)
  }

  /** The values a record fills the page with at bot.py:357-367. */
  function RecordFields(r: Registry.Record): Render.Fields
  {
    Render.Fields(r.title, r.link1, r.logo1Name, r.link2, r.logo2Name, r.link3, r.logo3Name)
  }

  /**
   * The session after `create_link1` stored a valid link and what the lookup found
   * (bot.py:166-176): the link is stored; a title replaces the old one only if it is
   * non-empty, a logo only if it has bytes; nothing else changes.
   */
  function AfterLink1(s: Session, link: string, meta: Option<Metadata.Meta>): (r: Session)
    ensures r.link1 == Some(link)
    ensures meta.Some? && Truthy(meta.value.title) ==> r.title == meta.value.title
    ensures r.title != s.title ==> meta.Some? && Truthy(meta.value.title) && r.title == meta.value.title
    ensures FoundLogo(meta) ==> r.logo1 == meta.value.logo
    ensures r.logo1 != s.logo1 ==> FoundLogo(meta) && r.logo1 == meta.value.logo
    ensures r.(link1 := s.link1, title := s.title, logo1 := s.logo1) == s
  {
    var withTitle := if meta.Some? && Truthy(meta.value.title) then meta.value.title else s.title;
    var withLogo := if FoundLogo(meta) then meta.value.logo else s.logo1;
    s.(link1 := Some(link), title := withTitle, logo1 := withLogo)
  }

  /** Where `create_link1` goes next (bot.py:178-186): the first of title and logo that is still missing is asked for. */
  function Link1Next(s: Session): (st: State)
    ensures st == AskTitle <==> s.title.None?
    ensures st == AskLogo <==> s.title.Some? && s.logo1.None?
    ensures st == Link2 <==> s.title.Some? && s.logo1.Some?
  {
    if s.title.None? then AskTitle else if s.logo1.None? then AskLogo else Link2
  }

  /** From an empty session, `create_link1` always reaches a state whose expectations the new session meets. */
  lemma Link1KeepsFit(s: Session, link: string, meta: Option<Metadata.Meta>)
    requires Fits(Link1, s)
    ensures Fits(Link1Next(AfterLink1(s, link, meta)), AfterLink1(s, link, meta))
  {
  }

  /**
   * The session after `create_link2` stored a valid link (bot.py:213-225): slot 2 gets
   * the logo found for the link or else logo 1's; when neither exists it stays as it was,
   * since bot.py raises `KeyError` after storing the link.
   */
  function AfterLink2(s: Session, link: string, meta: Option<Metadata.Meta>): (r: Session)
    ensures r.link2 == Some(link)
    ensures SlotLogo(meta, s.logo1).Some? ==> r.logo2 == SlotLogo(meta, s.logo1)
    ensures SlotLogo(meta, s.logo1).None? ==> r.logo2 == s.logo2
    ensures r.(link2 := s.link2, logo2 := s.logo2) == s
  {
    var slot := SlotLogo(meta, s.logo1);
    s.(link2 := Some(link), logo2 := if slot.Some? then slot else s.logo2)
  }

  /** The session after `create_link3` stored a valid link (bot.py:238-248), as `AfterLink2` for slot 3. */
  function AfterLink3(s: Session, link: string, meta: Option<Metadata.Meta>): (r: Session)
    ensures r.link3 == Some(link)
    ensures SlotLogo(meta, s.logo1).Some? ==> r.logo3 == SlotLogo(meta, s.logo1)
    ensures SlotLogo(meta, s.logo1).None? ==> r.logo3 == s.logo3
    ensures r.(link3 := s.link3, logo3 := s.logo3) == s
  {
    var slot := SlotLogo(meta, s.logo1);
    s.(link3 := Some(link), logo3 := if slot.Some? then slot else s.logo3)
  }

  /**
   * In the state `LINK2` logo 1 is set, so `create_link2` never raises: it reaches `LINK3`
   * with every field that state expects, and a link without a logo of its own reuses logo 1.
   */
  lemma Link2KeepsFit(s: Session, link: string, meta: Option<Metadata.Meta>)
    requires Fits(Link2, s)
    ensures SlotLogo(meta, s.logo1).Some?
    ensures Fits(Link3, AfterLink2(s, link, meta))
    ensures !FoundLogo(meta) ==> AfterLink2(s, link, meta).logo2 == s.logo1
  {
  }

  /** In the state `LINK3`, `create_link3` completes the session, so `_finalize_creation` finds every field. */
  lemma Link3Completes(s: Session, link: string, meta: Option<Metadata.Meta>)
    requires Fits(Link3, s)
    ensures SlotLogo(meta, s.logo1).Some?
    ensures Complete(AfterLink3(s, link, meta))
    ensures !FoundLogo(meta) ==> AfterLink3(s, link, meta).logo3 == s.logo1
  {
  }

  class Bot {
    var userState: map<int, Session>
    var userData: map<int, EditData>
    var registry: map<string, Registry.Record>
    var sent: seq<Deployment.Request>
    /** `template/index.html` and `template/style.css`. */
    const templateHtml: string
    const templateCss: string

    constructor (templateHtml: string, templateCss: string, registry: map<string, Registry.Record>)
      ensures this.templateHtml == templateHtml && this.templateCss == templateCss
      ensures this.registry == registry && userState == map[] && userData == map[] && sent == []
    {
      this.templateHtml := templateHtml;
      this.templateCss := templateCss;
      this.registry := registry;
      userState := map[];
      userData := map[];
      sent := [];
    }

    /** The user's edit data; an untouched `ctx.user_data` holds neither entry. */
    function DataOf(uid: int): EditData
      reads this`userData
    {
      if uid in userData then userData[uid] else EditData(None, None)
    }

    /** `create_start` (bot.py:153-156): a fresh, empty session. */
    method CreateStart(uid: int) returns (out: Outcome)
      modifies this`userState
      ensures userState == old(userState)[uid := EmptySession]
      ensures out == Next(Link1) && Fits(Link1, userState[uid])
    {
      userState := userState[uid := EmptySession];
      out := Next(Link1);
    }

    /**
     * `create_link1` (bot.py:158-186). An invalid link keeps the state and the session;
     * a valid one is looked up and stored as `AfterLink1` says.
     */
    method CreateLink1(uid: int, text: string, net: Metadata.Network) returns (out: Outcome)
      modifies this`userState
      ensures Links.Normalize(text).Failure? ==> out == Next(Link1) && userState == old(userState)
      ensures Links.Normalize(text).Success? && uid !in old(userState) ==>
        out == Raised(SessionMissing) && userState == old(userState)
      ensures Links.Normalize(text).Success? && uid in old(userState) ==>
        var link := Links.Normalize(text).value;
        && userState == old(userState)[uid := AfterLink1(old(userState)[uid], link, Metadata.Resolve(link, net))]
        && out == Next(Link1Next(userState[uid]))
    {
      var r := Links.Normalize(text);
      if r.Failure? {
        return Next(Link1);
      }
      if uid !in userState {
        return Raised(SessionMissing);
      }
      var meta := Metadata.Resolve(r.value, net);
      out := StoreLink1(uid, r.value, meta);
    }

    /** bot.py:166-186 once the link is known valid and looked up. */
    method StoreLink1(uid: int, link: string, meta: Option<Metadata.Meta>) returns (out: Outcome)
      requires uid in userState
      modifies this`userState
      ensures userState == old(userState)[uid := AfterLink1(old(userState)[uid], link, meta)]
      ensures out == Next(Link1Next(userState[uid]))
    {
      var s := userState[uid].(link1 := Some(link));
      if meta.Some? {
        if Truthy(meta.value.title) {
          s := s.(title := meta.value.title);
        }
        if Metadata.HasLogo(meta.value) {
          s := s.(logo1 := meta.value.logo);
        }
      }
      userState := userState[uid := s];
      if s.title.None? {
        out := Next(AskTitle);
      } else if s.logo1.None? {
        out := Next(AskLogo);
      } else {
        out := Next(Link2);
      }
    }

    /** `create_ask_title` (bot.py:188-192): the stripped text is the title, and the logo is always asked for next. */
    method CreateAskTitle(uid: int, text: string) returns (out: Outcome)
      modifies this`userState
      ensures uid !in old(userState) ==> out == Raised(SessionMissing) && userState == old(userState)
      ensures uid in old(userState) ==>
        && userState == old(userState)[uid := old(userState)[uid].(title := Some(Text.Strip(text)))]
        && out == Next(AskLogo)
      ensures uid in old(userState) && Fits(AskTitle, old(userState)[uid]) ==> Fits(AskLogo, userState[uid])
    {
      if uid !in userState {
        return Raised(SessionMissing);
      }
      userState := userState[uid := userState[uid].(title := Some(Text.Strip(text)))];
      out := Next(AskLogo);
    }

    /** `create_ask_logo` (bot.py:194-203): the downloaded photo replaces logo 1, named after its file's extension. */
    method CreateAskLogo(uid: int, download: PhotoDownload) returns (out: Outcome)
      modifies this`userState
      ensures download.DownloadError? ==> out == Raised(DownloadFailed) && userState == old(userState)
      ensures download.Downloaded? && uid !in old(userState) ==> out == Raised(SessionMissing) && userState == old(userState)
      ensures download.Downloaded? && uid in old(userState) ==>
        var logo := Logo(download.content, LogoFileName(download.filePath));
        && userState == old(userState)[uid := old(userState)[uid].(logo1 := Some(logo))]
        && out == Next(Link2)
      ensures uid in old(userState) && Fits(AskLogo, old(userState)[uid]) && out.Next? ==> Fits(Link2, userState[uid])
    {
      if download.DownloadError? {
        return Raised(DownloadFailed);
      }
      if uid !in userState {
        return Raised(SessionMissing);
      }
      var logo := Logo(download.content, LogoFileName(download.filePath));
      userState := userState[uid := userState[uid].(logo1 := Some(logo))];
      out := Next(Link2);
    }

    /**
     * `create_link2` (bot.py:205-228). A valid link is stored as `AfterLink2` says; a
     * title found is ignored; with no logo for slot 2 the handler raises.
     */
    method CreateLink2(uid: int, text: string, net: Metadata.Network) returns (out: Outcome)
      modifies this`userState
      ensures Links.Normalize(text).Failure? ==> out == Next(Link2) && userState == old(userState)
      ensures Links.Normalize(text).Success? && uid !in old(userState) ==>
        out == Raised(SessionMissing) && userState == old(userState)
      ensures Links.Normalize(text).Success? && uid in old(userState) ==>
        var link := Links.Normalize(text).value;
        var meta := Metadata.Resolve(link, net);
        && userState == old(userState)[uid := AfterLink2(old(userState)[uid], link, meta)]
        && out == (if SlotLogo(meta, old(userState)[uid].logo1).Some? then Next(Link3) else Raised(FieldMissing))
    {
      var r := Links.Normalize(text);
      if r.Failure? {
        return Next(Link2);
      }
      if uid !in userState {
        return Raised(SessionMissing);
      }
      var meta := Metadata.Resolve(r.value, net);
      out := StoreLink2(uid, r.value, meta);
    }

    /** bot.py:213-228 once the link is known valid and looked up. */
    method StoreLink2(uid: int, link: string, meta: Option<Metadata.Meta>) returns (out: Outcome)
      requires uid in userState
      modifies this`userState
      ensures userState == old(userState)[uid := AfterLink2(old(userState)[uid], link, meta)]
      ensures out == (if SlotLogo(meta, old(userState)[uid].logo1).Some? then Next(Link3) else Raised(FieldMissing))
    {
      var s := userState[uid].(link2 := Some(link));
      if meta.Some? && Metadata.HasLogo(meta.value) {
        s := s.(logo2 := meta.value.logo);
      } else if s.logo1.None? {
        userState := userState[uid := s];
        return Raised(FieldMissing);
      } else {
        s := s.(logo2 := s.logo1);
      }
      userState := userState[uid := s];
      out := Next(Link3);
    }

    /**
     * What `_finalize_creation` does for the session `s` it removed (bot.py:258-303): with
     * a field missing it raises before deploying; otherwise the page with only the title
     * substituted is deployed under a fresh `multilink-` project, and only when that
     * succeeds is the record stored under the new key.
     */
    predicate Finalized(s: Session, reply: Http.Reply<string>, slug: string, key: string,
                        reg0: map<string, Registry.Record>, sent0: seq<Deployment.Request>,
                        reg: map<string, Registry.Record>, sent1: seq<Deployment.Request>, out: Outcome)
      requires Deployment.IsSlug(slug)
    {
      if !Complete(s) then out == Raised(FieldMissing) && reg == reg0 && sent1 == sent0
      else
        var project := Deployment.ProjectName(None, slug);
        var page := Render.RenderTitleOnly(templateHtml, s.title.value);
        && sent1 == sent0 + [Deployment.Request(project, Deployment.Manifest(page, templateCss, SessionLogos(s)), "production")]
        && (Http.Raises(reply) ==> out.Raised? && out.failure.DeployFailed? && reg == reg0)
        && (!Http.Raises(reply) ==> out == Next(End) && reg == reg0[key := CreatedRecord(s, project)])
    }

    /** `_finalize_creation` (bot.py:252-303): the session is removed first, then `Finalized` describes the rest. */
    method FinalizeCreation(uid: int, reply: Http.Reply<string>, slug: string, key: string) returns (out: Outcome)
      requires Deployment.IsSlug(slug) && IsKey(key)
      modifies this`userState, this`registry, this`sent
      ensures userState == old(userState) - {uid}
      ensures uid !in old(userState) ==> out == Raised(SessionMissing) && registry == old(registry) && sent == old(sent)
      ensures uid in old(userState) ==>
        Finalized(old(userState)[uid], reply, slug, key, old(registry), old(sent), registry, sent, out)
    {
      if uid !in userState {
        return Raised(SessionMissing);
      }
      var s := userState[uid];
      userState := userState - {uid};
      if !Complete(s) {
        return Raised(FieldMissing);
      }
      var page := Render.RenderTitleOnly(templateHtml, s.title.value);
      var request, result := Deployment.Deploy(page, templateCss, SessionLogos(s), None, slug, reply);
      sent := sent + [request];
      if result.Failure? {
        return Raised(DeployFailed(result.error));
      }
      registry := registry[key := CreatedRecord(s, result.value.1)];
      out := Next(End);
    }

    /** `create_link3` (bot.py:230-250): like `create_link2` for slot 3, then the creation is finalised. */
    method CreateLink3(uid: int, text: string, net: Metadata.Network, reply: Http.Reply<string>, slug: string, key: string)
      returns (out: Outcome)
      requires Deployment.IsSlug(slug) && IsKey(key)
      modifies this`userState, this`registry, this`sent
      ensures Links.Normalize(text).Failure? ==>
        out == Next(Link3) && userState == old(userState) && registry == old(registry) && sent == old(sent)
      ensures Links.Normalize(text).Success? && uid !in old(userState) ==>
        out == Raised(SessionMissing) && userState == old(userState) && registry == old(registry) && sent == old(sent)
      ensures Links.Normalize(text).Success? && uid in old(userState) ==>
        var link := Links.Normalize(text).value;
        var meta := Metadata.Resolve(link, net);
        var s := AfterLink3(old(userState)[uid], link, meta);
        && (SlotLogo(meta, old(userState)[uid].logo1).None? ==>
              out == Raised(FieldMissing) && userState == old(userState)[uid := s] && registry == old(registry) && sent == old(sent))
        && (SlotLogo(meta, old(userState)[uid].logo1).Some? ==>
              userState == old(userState) - {uid} && Finalized(s, reply, slug, key, old(registry), old(sent), registry, sent, out))
    {
      var r := Links.Normalize(text);
      if r.Failure? {
        return Next(Link3);
      }
      if uid !in userState {
        return Raised(SessionMissing);
      }
      var meta := Metadata.Resolve(r.value, net);
      out := StoreLink3(uid, r.value, meta, reply, slug, key);
    }

    /** bot.py:238-250 once the link is known valid and looked up. */
    method StoreLink3(uid: int, link: string, meta: Option<Metadata.Meta>, reply: Http.Reply<string>, slug: string, key: string)
      returns (out: Outcome)
      requires Deployment.IsSlug(slug) && IsKey(key) && uid in userState
      modifies this`userState, this`registry, this`sent
      ensures
        var s := AfterLink3(old(userState)[uid], link, meta);
        && (SlotLogo(meta, old(userState)[uid].logo1).None? ==>
              out == Raised(FieldMissing) && userState == old(userState)[uid := s] && registry == old(registry) && sent == old(sent))
        && (SlotLogo(meta, old(userState)[uid].logo1).Some? ==>
              userState == old(userState) - {uid} && Finalized(s, reply, slug, key, old(registry), old(sent), registry, sent, out))
    {
      var s := userState[uid].(link3 := Some(link));
      if meta.Some? && Metadata.HasLogo(meta.value) {
        s := s.(logo3 := meta.value.logo);
      } else if s.logo1.None? {
        userState := userState[uid := s];
        return Raised(FieldMissing);
      } else {
        s := s.(logo3 := s.logo1);
      }
      userState := userState[uid := s];
      out := FinalizeCreation(uid, reply, slug, key);
    }

    /** `edit_start` (bot.py:306-308): asks for the key. */
    method EditStart() returns (out: Outcome)
      ensures out == Next(EditKey)
    {
      out := Next(EditKey);
    }

    /** `edit_key` (bot.py:310-322): an unknown key ends the conversation; a known one is remembered. */
    method EditKeyStep(uid: int, text: string) returns (out: Outcome)
      modifies this`userData
      ensures Text.Strip(text) !in registry ==> out == Next(End) && userData == old(userData)
      ensures Text.Strip(text) in registry ==>
        && userData == old(userData)[uid := old(DataOf(uid)).(editKey := Some(Text.Strip(text)))]
        && out == Next(EditChoice)
    {
      var key := Text.Strip(text);
      if key !in registry {
        return Next(End);
      }
      userData := userData[uid := DataOf(uid).(editKey := Some(key))];
      out := Next(EditChoice);
    }

    /**
     * `edit_choice` (bot.py:324-336), given the reply after `.strip().lower()`. The cancel
     * text ends the conversation; any other choice is remembered, and one that names no
     * field then raises `KeyError` on the prompt table.
     */
    method EditChoiceStep(uid: int, choice: string) returns (out: Outcome)
      modifies this`userData
      ensures choice == Registry.CancelChoice ==> out == Next(End) && userData == old(userData)
      ensures choice != Registry.CancelChoice ==>
        && userData == old(userData)[uid := old(DataOf(uid)).(editChoice := Some(choice))]
        && out == (if Registry.FieldForChoice(choice).Some? then Next(EditNew) else Raised(UnknownChoice))
    {
      if choice == Registry.CancelChoice {
        return Next(End);
      }
      userData := userData[uid := DataOf(uid).(editChoice := Some(choice))];
      if Registry.FieldForChoice(choice).None? {
        return Raised(UnknownChoice);
      }
      out := Next(EditNew);
    }

    /** The remembered key and choice name a record and a field. */
    predicate Editable(uid: int, reg: map<string, Registry.Record>)
      reads this`userData
    {
      var data := DataOf(uid);
      && data.editKey.Some? && data.editChoice.Some?
      && data.editKey.value in reg
      && Registry.FieldForChoice(data.editChoice.value).Some?
    }

    /** The `KeyError` `edit_new` raises when the remembered data does not name a record and a field. */
    function EditFailure(uid: int, reg: map<string, Registry.Record>): Failure
      reads this`userData
    {
      var data := DataOf(uid);
      if data.editKey.None? || data.editChoice.None? then EditDataMissing
      else if data.editKey.value !in reg then RecordMissing
      else UnknownChoice
    }

    /** The redeploy of an edited record: the fully rendered page, under the record's own project. */
    function Redeployment(entry: Registry.Record): Deployment.Request
      requires Registry.StoredLogos(entry).Some?
    {
      Deployment.Request(entry.project,
        Deployment.Manifest(Render.RenderPage(templateHtml, RecordFields(entry)), templateCss, Registry.StoredLogos(entry).value),
        "production")
    }

    /**
     * What bot.py:354-377 does with the saved record `entry`: stored logo data that does
     * not decode raises before anything is sent; otherwise the record is redeployed, and
     * the handler ends unless the deploy raised.
     */
    predicate Redeployed(entry: Registry.Record, reply: Http.Reply<string>,
                         sent0: seq<Deployment.Request>, sent1: seq<Deployment.Request>, out: Outcome)
    {
      && (Registry.StoredLogos(entry).None? ==> out == Raised(CorruptLogoData) && sent1 == sent0)
      && (Registry.StoredLogos(entry).Some? ==>
            && sent1 == sent0 + [Redeployment(entry)]
            && (Http.Raises(reply) ==> out.Raised? && out.failure.DeployFailed?)
            && (!Http.Raises(reply) ==> out == Next(End)))
    }

    /**
     * `edit_new` (bot.py:338-377). An invalid link keeps the state and writes nothing. A
     * valid one replaces exactly the chosen link of the remembered record, which is saved
     * before the page is rebuilt and redeployed under the record's own project.
     */
    method EditNewStep(uid: int, text: string, reply: Http.Reply<string>) returns (out: Outcome)
      modifies this`registry, this`sent
      ensures Links.Normalize(text).Failure? ==>
        out == Next(EditNew) && registry == old(registry) && sent == old(sent)
      ensures Links.Normalize(text).Success? ==> EditedWith(uid, Links.Normalize(text).value, reply, old(registry), old(sent), out)
    {
      // `edit_new` strips the text before `normalize_tg_link` strips it again, which changes
      // nothing (Links.NormalizeStripped), so the text is normalised directly.
      var r := Links.Normalize(text);
      if r.Failure? {
        return Next(EditNew);
      }
      out := StoreEdit(uid, r.value, reply);
    }

    /**
     * What bot.py:340-377 does with a valid link: remembered data that does not name a
     * record and a field raises before anything is written; otherwise exactly the chosen
     * link of that record is replaced, and the saved record is redeployed.
     */
    predicate EditedWith(uid: int, link: string, reply: Http.Reply<string>,
                         reg0: map<string, Registry.Record>, sent0: seq<Deployment.Request>, out: Outcome)
      reads this`userData, this`registry, this`sent
    {
      if !Editable(uid, reg0) then
        out == Raised(EditFailure(uid, reg0)) && registry == reg0 && sent == sent0
      else
        var key := DataOf(uid).editKey.value;
        var field := Registry.FieldForChoice(DataOf(uid).editChoice.value).value;
        var entry := Registry.WithLink(reg0[key], field, link);
        registry == reg0[key := entry] && Redeployed(entry, reply, sent0, sent, out)
    }

    /** bot.py:340-377 once the link is known valid. */
    method StoreEdit(uid: int, link: string, reply: Http.Reply<string>) returns (out: Outcome)
      modifies this`registry, this`sent
      ensures EditedWith(uid, link, reply, old(registry), old(sent), out)
    {
      var data := DataOf(uid);
      if data.editKey.None? || data.editChoice.None? {
        return Raised(EditDataMissing);
      }
      var key := data.editKey.value;
      if key !in registry {
        return Raised(RecordMissing);
      }
      var field := Registry.FieldForChoice(data.editChoice.value);
      if field.None? {
        return Raised(UnknownChoice);
      }
      out := ApplyEdit(key, field.value, link, reply);
    }

    /** bot.py:349-352 and what follows: the one field is replaced, the registry saved, and the record redeployed. */
    method ApplyEdit(key: string, field: Registry.LinkField, link: string, reply: Http.Reply<string>) returns (out: Outcome)
      requires key in registry
      modifies this`registry, this`sent
      ensures
        var entry := Registry.WithLink(old(registry)[key], field, link);
        registry == old(registry)[key := entry] && Redeployed(entry, reply, old(sent), sent, out)
    {
      var entry := Registry.WithLink(registry[key], field, link);
      registry := registry[key := entry];
      out := RedeployRecord(entry, reply);
    }

    /** bot.py:354-377: the saved record is rendered in full and deployed under its own project. */
    method RedeployRecord(entry: Registry.Record, reply: Http.Reply<string>) returns (out: Outcome)
      modifies this`sent
      ensures Redeployed(entry, reply, old(sent), sent, out)
    {
      var html := Render.RenderPage(templateHtml, RecordFields(entry));
      var logos := Registry.StoredLogos(entry);
      if logos.None? {
        return Raised(CorruptLogoData);
      }
      var request, result := Deployment.Deploy(html, templateCss, logos.value, Some(entry.project), "", reply);
      sent := sent + [request];
      if result.Failure? {
        return Raised(DeployFailed(result.error));
      }
      out := Next(End);
    }

    /** `cancel` (bot.py:379-382): the session is dropped if there is one; nothing else changes. */
    method Cancel(uid: int) returns (out: Outcome)
      modifies this`userState
      ensures userState == old(userState) - {uid}
      ensures out == Next(End)
    {
      userState := userState - {uid};
      out := Next(End);
    }
  }
}
