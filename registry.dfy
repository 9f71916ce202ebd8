/**
 * The project registry `projects.json` (bot.py:41-49, 280-295, 346-352): a map from edit key
 * to a record of eleven string fields, held in memory here.
 */
module Registry {
  import opened Wrappers
  import Base64
  import opened Logos

  /** One registry entry, the JSON object written at bot.py:282-294. */
  datatype Record = Record(
    project: string, title: string,
    link1: string, link2: string, link3: string,
    logo1Name: string, logo2Name: string, logo3Name: string,
    logo1Data: string, logo2Data: string, logo3Data: string)

  /**
   * The record `_finalize_creation` stores: the logo bytes are kept as their base64 text,
   * and decoding that text gives the bytes back.
   */
  function NewRecord(project: string, title: string, link1: string, link2: string, link3: string,
                     logo1: Logo, logo2: Logo, logo3: Logo): (r: Record)
    ensures r.project == project && r.title == title
    ensures r.link1 == link1 && r.link2 == link2 && r.link3 == link3
    ensures r.logo1Name == logo1.name && r.logo2Name == logo2.name && r.logo3Name == logo3.name
    ensures Base64.Decode(r.logo1Data) == Some(logo1.bytes)
    ensures Base64.Decode(r.logo2Data) == Some(logo2.bytes)
    ensures Base64.Decode(r.logo3Data) == Some(logo3.bytes)
  {
    Base64.DecodeEncode(logo1.bytes);
    Base64.DecodeEncode(logo2.bytes);
    Base64.DecodeEncode(logo3.bytes);
    Record(project, title, link1, link2, link3, logo1.name, logo2.name, logo3.name,
           Base64.Encode(logo1.bytes), Base64.Encode(logo2.bytes), Base64.Encode(logo3.bytes))
  }

  /** The three logos rebuilt from a record for a redeploy (bot.py:369-373); `None` when some data does not decode. */
  function StoredLogos(r: Record): (logos: Option<seq<Logo>>)
    ensures logos.Some? <==>
      Base64.Decode(r.logo1Data).Some? && Base64.Decode(r.logo2Data).Some? && Base64.Decode(r.logo3Data).Some?
    ensures logos.Some? ==>
      && |logos.value| == 3
      && logos.value[0] == Logo(Base64.Decode(r.logo1Data).value, r.logo1Name)
      && logos.value[1] == Logo(Base64.Decode(r.logo2Data).value, r.logo2Name)
      && logos.value[2] == Logo(Base64.Decode(r.logo3Data).value, r.logo3Name)
  {
    match (Base64.Decode(r.logo1Data), Base64.Decode(r.logo2Data), Base64.Decode(r.logo3Data))
    case (Some(b1), Some(b2), Some(b3)) => Some([Logo(b1, r.logo1Name), Logo(b2, r.logo2Name), Logo(b3, r.logo3Name)])
    case _ => None
  }

  /** A record the bot created gives back exactly the logos it was created with. */
  lemma StoredLogosOfNewRecord(project: string, title: string, link1: string, link2: string, link3: string,
                               logo1: Logo, logo2: Logo, logo3: Logo)
    ensures StoredLogos(NewRecord(project, title, link1, link2, link3, logo1, logo2, logo3)) == Some([logo1, logo2, logo3])
  {
    var r := NewRecord(project, title, link1, link2, link3, logo1, logo2, logo3);
    assert Logo(Base64.Decode(r.logo1Data).value, r.logo1Name) == logo1;
  }

  /** The three link fields the edit flow can change. */
  datatype LinkField = MainBot | BackupBot | Channel

  function LinkOf(r: Record, f: LinkField): string
  {
    match f
    case MainBot => r.link1
    case BackupBot => r.link2
    case Channel => r.link3
  }

  /** `entry[field] = new` (bot.py:351): the chosen link is replaced and every other field is kept. */
  function WithLink(r: Record, f: LinkField, link: string): (r': Record)
    ensures LinkOf(r', f) == link
    ensures forall g :: g != f ==> LinkOf(r', g) == LinkOf(r, g)
    ensures r'.(link1 := r.link1, link2 := r.link2, link3 := r.link3) == r
  {
    match f
    case MainBot => r.(link1 := link)
    case BackupBot => r.(link2 := link)
    case Channel => r.(link3 := link)
  }

  /** Changing a link keeps the stored logos. */
  lemma WithLinkKeepsLogos(r: Record, f: LinkField, link: string)
    ensures StoredLogos(WithLink(r, f, link)) == StoredLogos(r)
  {
    var r' := WithLink(r, f, link);
    assert r'.logo1Data == r.logo1Data && r'.logo2Data == r.logo2Data && r'.logo3Data == r.logo3Data;
    assert r'.logo1Name == r.logo1Name && r'.logo2Name == r.logo2Name && r'.logo3Name == r.logo3Name;
  }

  /** The keyboard texts after `.strip().lower()` (bot.py:318, 325-334). */
  const MainBotChoice: string := "основной бот"
  const BackupBotChoice: string := "резервный бот"
  const ChannelChoice: string := "канал"
  const CancelChoice: string := "отмена"

  /** The mapping of bot.py:350; `None` where that dictionary lookup raises `KeyError`. */
  function FieldForChoice(choice: string): (f: Option<LinkField>)
    ensures f == Some(MainBot) <==> choice == MainBotChoice
    ensures f == Some(BackupBot) <==> choice == BackupBotChoice
    ensures f == Some(Channel) <==> choice == ChannelChoice
  {
    if choice == MainBotChoice then Some(MainBot)
    else if choice == BackupBotChoice then Some(BackupBot)
    else if choice == ChannelChoice then Some(Channel)
    else None
  }

  /** The cancel text is not a field name. */
  lemma CancelIsNoField()
    ensures FieldForChoice(CancelChoice).None?
  {
  }

  /** The JSON keys of a stored record. */
  const RecordKeys: set<string> := {"project", "title", "link1", "link2", "link3",
    "logo1_name", "logo2_name", "logo3_name", "logo1_data", "logo2_data", "logo3_data"}

  /** A record as the JSON object `save_projects` writes. */
  function ToJson(r: Record): (m: map<string, string>)
    ensures m.Keys == RecordKeys
    ensures m["project"] == r.project && m["title"] == r.title
    ensures m["link1"] == r.link1 && m["link2"] == r.link2 && m["link3"] == r.link3
    ensures m["logo1_name"] == r.logo1Name && m["logo1_data"] == r.logo1Data
    ensures m["logo2_name"] == r.logo2Name && m["logo2_data"] == r.logo2Data
    ensures m["logo3_name"] == r.logo3Name && m["logo3_data"] == r.logo3Data
  {
    map["project" := r.project, "title" := r.title,
        "link1" := r.link1, "link2" := r.link2, "link3" := r.link3,
        "logo1_name" := r.logo1Name, "logo2_name" := r.logo2Name, "logo3_name" := r.logo3Name,
        "logo1_data" := r.logo1Data, "logo2_data" := r.logo2Data, "logo3_data" := r.logo3Data]
  }
}
