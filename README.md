# Multilink bot — a Dafny model

The bot (`bot.py`) builds a small landing page for a Telegram project over several
messages. It asks for three Telegram links: the main bot, the backup bot and the channel.
It looks up a title and a logo for each link, first on the link's web page (Open Graph tags)
and then through Telegram's `get_chat`. It asks the user for whatever is still missing, fills
an HTML template and deploys it to Vercel. It keeps a JSON registry that maps a random
edit key to the site's record. With that key the user can later replace one of the three
links, which rewrites the record and redeploys the site under the same project.
`update_design.py` is meant to redeploy each registry entry with the current template. As written it skips
every entry without `logo_name` and `logo_data`, which includes every record the bot writes, and its deploy
call raises `TypeError` on the first entry it does not skip. The model computes what each iteration would
send if that call were well formed.

The model is split by concern. The string and encoding primitives are pure functions,
each with a reference definition or an inverse:

- `Text`: `strip`, `rsplit(c, 1)[-1]`, `split(c)[0]` and `str.replace`, with `split`/`join`
  as an independent reference for `replace`.
- `Base64`: RFC 4648 section 4.
- `Utf8`: `str.encode()`.

`Links` models `normalize_tg_link`. Its two regular expressions are written out as
predicates, including the characters `re.IGNORECASE` adds. `Links.Accepts` is a
declarative description of the accepted texts; the model proves that `normalize_tg_link`
succeeds exactly on those texts.

`Metadata` models the Open Graph lookup, the chat lookup and their `or` combination.
The network is a parameter, `Metadata.Network`: what each request would answer.
`Render` models the template `replace` chains as sequential replace-all.
`Deployment` models the manifest, the project name and the URL.
`Registry` models a record and its JSON keys.

The conversation is a class, `Conversation.Bot`. Its fields are the state the handlers
change in place:

- `user_state`, the creation sessions;
- `ctx.user_data`, the edit key and choice;
- the registry;
- the deployments sent.

Each handler is a method whose `ensures` gives the complete new state. The session
updates are also pure functions (`AfterLink1`, `AfterLink2`, `AfterLink3`, `Link1Next`)
with lemmas about the states they lead to. One predicate describes each multi-step effect:

- `Finalized`: what `_finalize_creation` does with the removed session;
- `Redeployed`: redeploying a saved record;
- `EditedWith`: what `edit_new` does with a valid link.

`UpdateDesign` computes the batch script's plan, meaning which entries would be redeployed,
with what page and to which project. It does this with a loop proved against a recursive
specification.

Two points of the code that are easy to misread:

- A page that loads but names no `og:image` still yields a result, `(title, None, None)`
  (bot.py:78). Because a tuple is always truthy, the chat lookup is then never made, so the
  page wins over the chat and the site gets no logo from Telegram (`Metadata.PageWithoutImageWins`).
- bot.py:147-149 logs every status of 400 or more, but `raise_for_status()` raises only for
  400–599; a larger status is logged and then treated as success (`Http.IsErrorStatus`).

## Model

| member | source | states |
|---|---|---|
| `Text.TrimStart` | bot.py:53 | the result is the suffix left after a run of leading whitespace, and it does not start with whitespace |
| `Text.TrimEnd` | bot.py:53 | the result is the prefix left before a run of trailing whitespace, and it does not end with whitespace |
| `Text.SliceOfSlice` | bot.py:53 | a prefix, cut off from trailing whitespace, of a suffix cut off from leading whitespace is a slice with only whitespace around it |
| `Text.TrimBothSlice` | bot.py:53 | trimming both ends leaves the slice that starts after the leading whitespace |
| `Text.Strip` | bot.py:53 | the result has no whitespace at either end and is a slice of the input with only whitespace before and after it |
| `Text.StripTrimmed` | bot.py:53 | a text with no whitespace at either end is its own `strip()` |
| `Text.StripIdempotent` | bot.py:339-341 | stripping twice is stripping once |
| `Text.AfterLast` | bot.py:84 | `rsplit(c, 1)[-1]` is a suffix free of `c`, preceded by `c` unless it is the whole text |
| `Text.AfterLastUnique` | bot.py:84 | any `c`-free text that follows a `c` is exactly what `rsplit(c, 1)[-1]` returns |
| `Text.BeforeFirst` | bot.py:75 | `split(c)[0]` is a prefix free of `c`, followed by `c` unless it is the whole text |
| `Text.AbsentFirstChar` | bot.py:259-269 | a pattern whose first character is absent from the text does not occur in it |
| `Text.ReplaceAllAbsent` | bot.py:259-269 | `replace` leaves a text in which the pattern does not occur unchanged |
| `Text.ReplaceAllSelf` | bot.py:259-269 | replacing a pattern by itself changes nothing |
| `Text.ReplaceAll` | bot.py:259-269 | `str.replace`: each occurrence is replaced left to right and replacements are not rescanned; its properties are stated by `Text.ReplaceAllAbsent`, `Text.ReplaceAllSelf` and `Text.ReplaceAllIsJoinOfSplit` |
| `Text.Split` | bot.py:259-269 | `split` yields at least one piece, and the first piece is a prefix of the text |
| `Text.ReplaceAllIsJoinOfSplit` | bot.py:259-269 | left-to-right `replace` equals `new.join(s.split(old))`, an independent definition |
| `Text.Join` | bot.py:259-269 | `sep.join(parts)`, the independent definition `Text.ReplaceAllIsJoinOfSplit` compares `replace` with; `Text.SplitJoinRoundTrip` states that it undoes `Text.Split` |
| `Text.SplitJoinRoundTrip` | bot.py:259-269 | joining the pieces of a split with the separator gives the text back |
| `Text.SplitPiecesAreFree` | bot.py:259-269 | no piece of a split contains the separator |
| `Base64.Alphabet` | bot.py:291-293 | no 6-bit value is encoded as the padding character |
| `Base64.ValueOfAlphabet` | bot.py:370-372 | decoding a character reverses encoding a 6-bit value |
| `Base64.AlphabetOfValue` | bot.py:370-372 | every character with a value is the alphabet character for that value |
| `Base64.EncodeLength` | bot.py:291-293 | the encoding has four characters per started group of three bytes |
| `Base64.Encode` | bot.py:291-293 | `b64encode` of the downloaded photo; `Base64.EncodeLength` states its length, and `Base64.DecodeEncode` that `Base64.Decode` gives the bytes back |
| `Base64.GroupRoundTrip` | bot.py:291-293 | splitting three bytes into four sextets and joining them back gives the bytes |
| `Base64.DecodeOneByteGroup` | bot.py:370-372 | a final group with `==` padding decodes to one byte |
| `Base64.DecodeTwoByteGroup` | bot.py:370-372 | a final group with `=` padding decodes to two bytes |
| `Base64.DecodeFullGroup` | bot.py:370-372 | a full group decodes to three bytes, followed by whatever the rest decodes to |
| `Base64.EncodeDecodeOneByte` | bot.py:291-293 | one byte round-trips through encode and decode |
| `Base64.EncodeDecodeTwoBytes` | bot.py:291-293 | two bytes round-trip through encode and decode |
| `Base64.EncodeDecodeGroup` | bot.py:291-293 | a round trip of the tail extends to the tail preceded by a group of three bytes |
| `Base64.DecodeEncode` | bot.py:370-372 | decoding the stored `logoN_data` gives back exactly the bytes that were encoded |
| `Base64.DecodeLength` | bot.py:370-372 | only a text whose length is a multiple of four decodes |
| `Base64.Decode` | bot.py:370-372 | the `b64decode` of `logoN_data`, also used at update_design.py:49; `Base64.DecodeEncode` states that it inverts `Base64.Encode`, `Base64.DecodeLength` that only a length that is a multiple of four decodes, and the three group lemmas what one group decodes to |
| `Utf8.EncodeChar` | bot.py:112 | a character is one to four bytes: one byte exactly for ASCII, equal to its code; a non-continuation lead byte, then continuation bytes only |
| `Utf8.Encode` | bot.py:112 | the encoding has between one and four bytes per character |
| `Utf8.EncodeAppend` | bot.py:112 | encoding distributes over concatenation |
| `Utf8.EncodeAscii` | bot.py:117 | ASCII text is encoded byte for byte |
| `Logos.LogoFileName` | bot.py:93-94 | the name is `logo.` plus a dot-free suffix of the path that follows the path's last dot, or is the whole path |
| `Logos.LogoFileNameOfExtension` | bot.py:199-201 | a path ending in `.ext`, where `ext` has no dot, is named `logo.ext` |
| `Logos.LogoFileNameWithoutDot` | bot.py:93-94 | a path without a dot becomes the whole extension |
| `Logos.ImageFileName` | bot.py:75-76 | the name of an `og:image` logo never contains `?` |
| `Logos.AbsentFromSuffix` | bot.py:75 | a character absent from a text is absent from its suffixes |
| `Logos.ImageFileNameIgnoresQuery` | bot.py:75 | the query string of an image URL does not affect the logo's name |
| `Links.Canonical` | bot.py:56 | the canonical link is `https://t.me/` followed by the handle, unchanged |
| `Links.HandleOf` | bot.py:59 | a canonical link is the canonical form of its handle |
| `Links.FoldedMatchConcat` | bot.py:57 | case-insensitive matches of two parts combine into a match of the concatenation |
| `Links.SchemeLength` | bot.py:57 | the optional `https?://` prefix never exceeds the text |
| `Links.MatchSound` | bot.py:54-59 | a handle the two patterns capture is one that `Accepts` describes |
| `Links.MatchComplete` | bot.py:54-59 | every handle that `Accepts` describes is the one the patterns capture |
| `Links.Match` | bot.py:54-59 | the two patterns tried in turn on the stripped text; `Links.MatchSound` and `Links.MatchComplete` state that it captures exactly the handles `Links.Accepts` describes |
| `Links.SchemeLengthOfHostLink` | bot.py:57 | on a link with a four-character host, the optional `https?://` prefix skipped is exactly the scheme the link starts with |
| `Links.MatchRejectsOtherHost` | bot.py:57-60 | neither pattern matches a link to a four-character host other than `t.me` |
| `Links.NormalizeSound` | bot.py:52-60 | every result is canonical, and its handle ends the stripped text as `Accepts` describes |
| `Links.NormalizeAccepts` | bot.py:52-60 | an accepted text is rewritten to the canonical link of its handle, case preserved |
| `Links.NormalizeExactlyAccepts` | bot.py:52-60 | `normalize_tg_link` succeeds if and only if the stripped text is of one of the two accepted forms; otherwise it raises `ValueError` |
| `Links.Normalize` | bot.py:52-60 | `normalize_tg_link`: strip, match, rebuild the canonical link; `Links.NormalizeSound`, `Links.NormalizeAccepts` and `Links.NormalizeExactlyAccepts` state what it accepts and returns, `Links.NormalizeIdempotent` that its output is a fixed point |
| `Links.NormalizeStripped` | bot.py:339-341 | stripping the text before normalising it, as `edit_new` does, changes nothing |
| `Links.NormalizeOfSameStrip` | bot.py:52-53 | two texts that strip to the same text normalise to the same result |
| `Links.CanonicalTrimmed` | bot.py:56 | a canonical link has no whitespace at either end |
| `Links.FoldedMatchSelf` | bot.py:57 | every text matches itself case-insensitively |
| `Links.CanonicalNormalizes` | bot.py:57-59 | a canonical link is accepted in the `https://t.me/` form and returned unchanged |
| `Links.NormalizeIdempotent` | bot.py:52-60 | the output of `normalize_tg_link` normalises to itself |
| `Links.AfterLastSlashIsHandle` | bot.py:84 | the text after the last `/` of a canonical link is its handle |
| `Links.NormalizeAtForm` | bot.py:54-56 | `@` followed by a handle becomes the canonical link of that handle |
| `Links.AcceptsAt` | bot.py:54 | `@` followed by a handle is of the first accepted form |
| `Links.NormalizeRejectsShort` | bot.py:54-60 | a text that strips to fewer than five characters is rejected |
| `Links.NormalizeRejectsOtherHost` | bot.py:57-60 | for every accepted scheme (any letter case, or none), every four-character host other than `t.me` in any letter case and every path, the link is rejected |
| `Metadata.FetchOg` | bot.py:63-80 | yields `None` exactly when the page request raises, or the image request raises for a non-empty image; otherwise keeps only a non-empty title, and has a logo exactly when the page names a non-empty image |
| `Metadata.DisplayTitle` | bot.py:87 | the first non-empty of title, first name and user name, else the handle; never empty for a non-empty handle |
| `Metadata.ChatQuery` | bot.py:84-86 | the chat queried is `@` followed by a text with no `/` |
| `Metadata.ChatMeta` | bot.py:83-97 | yields `None` exactly when `get_chat` or the photo download raises; otherwise always has a title, and a logo exactly when the chat has a photo |
| `Metadata.Resolve` | bot.py:169 | the page result when there is one, otherwise the chat result |
| `Metadata.ResolveNoneIffBothFail` | bot.py:169 | the combined lookup never raises, and yields nothing only when both lookups failed |
| `Metadata.ChatUnusedWhenPageAnswers` | bot.py:169 | when the page lookup succeeds, Telegram's answer does not matter |
| `Metadata.PageWithoutImageWins` | bot.py:78 | a page without an image wins over the chat; the result has no logo, and is `(None, None, None)` when the page has no title either |
| `Metadata.ChatQueryOfCanonical` | bot.py:84-86 | for a canonical link, the chat queried is `@` followed by the link's handle |
| `Metadata.ChatTitleNonEmpty` | bot.py:87 | for a canonical link, the chat lookup's title is never empty |
| `Render.Token` | bot.py:261-268 | every placeholder is delimited by `%%` and has at least eight characters |
| `Render.BotOrder` | bot.py:259-269 | eight replace steps over pairwise different placeholders; `%%LOGO%%` and `%%LOGO1%%` both get logo 1's name |
| `Render.DesignOrder` | update_design.py:36-44 | seven replace steps, none of them for `%%LOGO%%` |
| `Render.ReplaceChain` | bot.py:259-269 | a `.replace(...)` chain applied step by step; `Render.ChainWithoutPercent` and `Render.ChainKeepsToken` state what it leaves alone |
| `Render.RenderPage` | bot.py:259-269 | the page the bot renders on edit; `Render.PageFillsLogoToken` and `Render.TitleIsRescanned` state how its placeholders are filled |
| `Render.RenderTitleOnly` | bot.py:278 | the page deployed at creation; `Render.TitleOnlyKeepsOtherTokens` states that only the title is filled in |
| `Render.RenderDesign` | update_design.py:36-44 | the page the redesign script renders; `Render.DesignKeepsLogoToken` states that `%%LOGO%%` survives it |
| `Render.ChainWithoutPercent` | bot.py:259-269 | a text without `%` passes through any chain unchanged |
| `Render.ReplaceWhole` | bot.py:261 | a text that is exactly the pattern becomes the replacement |
| `Render.TokensDistinct` | bot.py:259-269 | no placeholder occurs inside a different placeholder |
| `Render.OtherTokenSurvives` | bot.py:259-269 | a replace step leaves every other placeholder intact |
| `Render.ChainKeepsToken` | bot.py:259-269 | a chain that never names a placeholder leaves it intact |
| `Render.TitleIsRescanned` | bot.py:259-269 | replacement is sequential: a title reading `%%LINK1%%` is itself replaced by the first link |
| `Render.DesignKeepsLogoToken` | update_design.py:36-44 | the script leaves `%%LOGO%%` in the page |
| `Render.PageFillsLogoToken` | bot.py:262 | the bot fills `%%LOGO%%` with logo 1's name |
| `Render.TitleOnlyKeepsOtherTokens` | bot.py:278 | the page deployed at creation keeps every placeholder except the title |
| `Deployment.LogoEntries` | bot.py:122-127 | one entry per logo, in order |
| `Deployment.Manifest` | bot.py:109-127 | `index.html`, then `style.css`, then one entry per logo under the logo's name; length two plus the number of logos; every entry base64 |
| `Deployment.ManifestDecodes` | bot.py:109-127 | decoding the manifest gives back the page and stylesheet as UTF-8 and every logo's bytes |
| `Deployment.BuildFiles` | bot.py:109-127 | the append loop builds exactly the manifest |
| `Deployment.ProjectName` | bot.py:107-108 | the given project, or `multilink-` followed by the six-hex-digit slug |
| `Deployment.ProjectUrl` | bot.py:150 | the URL is `https://`, then the project, then `.vercel.app` |
| `Deployment.ProjectUrlInjective` | bot.py:150 | different projects get different URLs |
| `Deployment.Deploy` | bot.py:100-150 | sends the manifest to the project; raises when there is no reply or the status is 400–599; otherwise returns the project's URL and name |
| `Registry.NewRecord` | bot.py:282-294 | the record holds the project, title, links and names, and each stored data decodes back to its logo's bytes |
| `Registry.StoredLogos` | bot.py:369-373 | the logos are rebuilt exactly when all three data decode, each with its stored name |
| `Registry.StoredLogosOfNewRecord` | bot.py:370-372 | a record the bot created gives back exactly the logos it was created with |
| `Registry.WithLink` | bot.py:351 | the chosen link is replaced and every other field is kept |
| `Registry.WithLinkKeepsLogos` | bot.py:351 | editing a link keeps the stored logos |
| `Registry.FieldForChoice` | bot.py:350 | each of the three choice texts names its link, and no other text names one |
| `Registry.CancelIsNoField` | bot.py:326-334 | the cancel text names no field |
| `Registry.ToJson` | bot.py:282-294 | the JSON object has exactly the eleven keys, each holding its field |
| `UpdateDesign.Get` | update_design.py:30-33 | `entry.get(k, d)` is the stored value whenever the key is there, even an empty one, and `d` only when it is absent |
| `UpdateDesign.EntryFields` | update_design.py:30-44 | fails exactly when title, link1, link2 or link3 is missing, naming the first; logos 2 and 3 default to logo 1's name |
| `UpdateDesign.PlanEntry` | update_design.py:22-53 | an entry is skipped if and only if it lacks a non-empty `logo_name` or `logo_data`; it raises if and only if it is not skipped and a placeholder field is missing, the logo data does not decode or `project` is missing, with the `KeyError` or decoding error of the first of these; a planned redeploy uses the entry's project, the template CSS, the design page and the decoded logo 1 |
| `UpdateDesign.Plan` | update_design.py:21-54 | there are never more redeploys than entries; `UpdateDesign.PlanPosition` and `UpdateDesign.PlanSound` match its redeploys one to one with the entries planned on their own, `UpdateDesign.PlanOrder` states that they keep the entries' order, and `UpdateDesign.PlanFailsIff` when it fails |
| `UpdateDesign.PlanFailurePersists` | update_design.py:21-54 | once an entry raises, that exception is the plan's outcome, whatever follows |
| `UpdateDesign.PlanFailsIff` | update_design.py:21-54 | the plan fails if and only if some entry raises on its own |
| `UpdateDesign.PlanPrefix` | update_design.py:21-54 | the redeploys planned for the first entries are a prefix of the whole plan |
| `UpdateDesign.PlanPosition` | update_design.py:21-54 | every entry that is planned on its own is in the plan, right after the redeploys of the entries before it |
| `UpdateDesign.PlanSound` | update_design.py:21-54 | the plan holds nothing else: each redeploy in it is the one of an entry planned on its own, at the position `UpdateDesign.PlanPosition` gives that entry |
| `UpdateDesign.PlanLastStep` | update_design.py:21-54 | a successful plan is the plan of all entries but the last, extended by the last entry's redeploy if it has one |
| `UpdateDesign.PlanOrder` | update_design.py:21-54 | redeploys follow the order of the entries: an earlier planned entry comes before a later one |
| `UpdateDesign.PlanRedeploys` | update_design.py:21-54 | the loop with `continue` computes exactly the plan |
| `UpdateDesign.PlanTargetsStoredProjects` | update_design.py:52-53 | every redeploy targets the stored project of an entry with the same key |
| `UpdateDesign.BotRecordSkipped` | update_design.py:23-27 | a record the bot writes has no `logo_name`, so the script skips it |
| `UpdateDesign.AsEntries` | update_design.py:21 | the registry as the script iterates it, entry by entry |
| `UpdateDesign.BotRegistryPlansNothing` | update_design.py:23-27 | over a registry the bot wrote, the script redeploys nothing |
| `UpdateDesign.PlanIgnoresOtherLogoData` | update_design.py:31-33 | the data of logos 2 and 3 plays no part in the plan |
| `UpdateDesign.PresentLogoNameKept` | update_design.py:30 | a `logo2_name` that is present is used even when empty |
| `Conversation.SlotLogo` | bot.py:218-225 | slot 2 or 3 gets the logo found, which has bytes, or else exactly logo 1 |
| `Conversation.SessionLogos` | bot.py:272-276 | the three logos of a finished session, in slot order |
| `Conversation.CreatedRecord` | bot.py:282-294 | the stored record gives back the session's three logos and holds its project, title and links |
| `Conversation.AfterLink1` | bot.py:166-176 | link 1 is stored; the title changes only to a found non-empty title, and logo 1 only to a found logo with bytes; nothing else changes |
| `Conversation.Link1Next` | bot.py:178-186 | `ASK_TITLE` if and only if there is no title, `ASK_LOGO` if and only if there is a title but no logo 1, else `LINK2` |
| `Conversation.Link1KeepsFit` | bot.py:158-186 | from a fresh session, the next state's expectations are met |
| `Conversation.AfterLink2` | bot.py:213-225 | link 2 is stored; slot 2 gets the slot logo when there is one; nothing else changes |
| `Conversation.AfterLink3` | bot.py:238-248 | link 3 is stored; slot 3 gets the slot logo when there is one; nothing else changes |
| `Conversation.Link2KeepsFit` | bot.py:218-225 | in `LINK2` a slot logo always exists, `LINK3`'s expectations are met, and a link without its own logo reuses logo 1 |
| `Conversation.Link3Completes` | bot.py:242-250 | in `LINK3` the session becomes complete, and a link without its own logo reuses logo 1 |
| `Conversation.Bot.constructor` | bot.py:37-38 | no sessions, no edit data and no deployments; the registry as loaded |
| `Conversation.Bot.CreateStart` | bot.py:153-156 | the user's session is reset to empty and the state is `LINK1` |
| `Conversation.Bot.CreateLink1` | bot.py:158-186 | an invalid link keeps `LINK1` and every session; a missing session raises; otherwise the session becomes `AfterLink1` of the looked-up link and the state is `Link1Next` |
| `Conversation.Bot.StoreLink1` | bot.py:166-186 | the in-place session updates give `AfterLink1` |
| `Conversation.Bot.CreateAskTitle` | bot.py:188-192 | stores the stripped text as the title and always moves to `ASK_LOGO` |
| `Conversation.Bot.CreateAskLogo` | bot.py:194-203 | logo 1 becomes the downloaded bytes named `logo.<ext>`, then `LINK2`; a failed download raises first |
| `Conversation.Bot.CreateLink2` | bot.py:205-228 | an invalid link keeps `LINK2`; otherwise the session becomes `AfterLink2`, then `LINK3`, or `KeyError` when there is no logo for slot 2 |
| `Conversation.Bot.StoreLink2` | bot.py:213-228 | the in-place session updates give `AfterLink2` |
| `Conversation.Bot.FinalizeCreation` | bot.py:252-303 | the session is removed; with every field present, the title-only page is deployed under a fresh project, and a record is added under the new key only if that deploy succeeded; other keys are untouched |
| `Conversation.Bot.CreateLink3` | bot.py:230-250 | an invalid link keeps `LINK3`; otherwise the session becomes `AfterLink3` and the creation is finalised, or `KeyError` when there is no logo for slot 3 |
| `Conversation.Bot.StoreLink3` | bot.py:238-250 | the in-place session updates give `AfterLink3` before finalising |
| `Conversation.Bot.EditStart` | bot.py:306-308 | moves to `EDIT_KEY` |
| `Conversation.Bot.EditKeyStep` | bot.py:310-322 | an unknown stripped key ends and writes nothing; a known one is remembered, then `EDIT_CHOICE` |
| `Conversation.Bot.EditChoiceStep` | bot.py:324-336 | the cancel text ends and writes nothing; any other choice is remembered, then `EDIT_NEW` for a field name or `KeyError` otherwise |
| `Conversation.Bot.EditNewStep` | bot.py:338-377 | an invalid link keeps `EDIT_NEW` and writes nothing; otherwise `EditedWith`: only the chosen link of the remembered record changes, it is saved, then redeployed under the record's project |
| `Conversation.Bot.StoreEdit` | bot.py:346-377 | missing edit data, an unknown record or an unknown choice raises before any write; otherwise the edit is applied |
| `Conversation.Bot.ApplyEdit` | bot.py:349-352 | the record with the one link replaced is saved before it is redeployed |
| `Conversation.Bot.RedeployRecord` | bot.py:354-377 | logo data that does not decode raises before sending; otherwise the fully rendered page and the stored logos are deployed under the record's project |
| `Conversation.Bot.Cancel` | bot.py:379-382 | the session is dropped if there is one, the registry is untouched, and the conversation ends |

## Left out

- Telegram wiring is not modelled: the application, the `ConversationHandler` routing, the reply texts and the keyboards (bot.py:155, 163, 179-185, 297-302, 317-321, 385-406). Each handler is a method, and the next state it returns is its result.
- The network is a parameter. This covers the page and image requests, the BeautifulSoup parsing, `get_chat`, `get_file`, the photo download and the Vercel POST. The model takes what each would answer, and the POST's outcome is an `Http.Reply`.
- Reading and writing `projects.json` and the template files is left out. The registry is a map held by the bot, and the templates are constant strings.
- `uuid4`: the key and the slug are parameters whose format is required (16 and 6 lowercase hex digits). Collisions are not modelled.
- Concurrency is not modelled: the `async` handlers, the module-global `user_state` shared by all users, and the unlocked file rewrites. Each handler runs to completion.
- `Conversation.Bot.EditChoiceStep` takes the reply after `.strip().lower()`; Unicode lower-casing of the Cyrillic keyboard texts is not modelled.
- `Base64.Decode` is strict. Python's `b64decode` without `validate` discards characters outside the alphabet before decoding. The two agree on everything `b64encode` produces, which covers what the bot itself writes (`Base64.DecodeEncode`), but not on text written into `projects.json` by other means.
- `UpdateDesign.PlanEntry`: a `logo_data` containing characters outside the alphabet (line breaks in wrapped base64, for instance) makes the model raise `BadLogoData`, where Python's lax `b64decode` would skip those characters and go on to redeploy. The same holds for stray padding: Python decodes `QUJD=` to `ABC`, ignoring the extra `=`, and stops at the first complete padding, decoding `QQ==QQ==` to `A`; the model raises `BadLogoData` on both. `update_design.py` never writes `logo_data` itself, so it cannot rely on the bot's encoding.
- `Conversation.Bot.RedeployRecord`: the same strict decoding applies to the stored `logoN_data`; for data the bot wrote the two decoders agree.
- `Deployment.Request` omits the constant `projectSettings` block of all nulls and the authorization header.
- Logging, the `.env` configuration and the `print` calls of `update_design.py` are left out.
- The deploy call at update_design.py:53 is left out. It passes `logo1_name` positionally into `project` and then passes `project=` again, so Python raises `TypeError` before anything is sent. `UpdateDesign.Plan` computes what each iteration would send.
- The registry's JSON values are taken to be strings. A non-string value read by `update_design.py` is not modelled.
- `Deployment.Deploy`: a status of 600 or more is treated as success, because `raise_for_status()` only raises for 400–599.
