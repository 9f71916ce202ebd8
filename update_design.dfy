/**
 * The batch redeploy of update_design.py, which is meant to redeploy each registry entry with
 * the current template: for every entry, in order, it skips it or computes a page and the
 * project to deploy it to. The model computes that plan: what each iteration would send if
 * the deploy call at update_design.py:53 were well formed. As written that call raises
 * `TypeError` on the first entry that is not skipped; the call itself is not part of the model.
 */
module UpdateDesign {
  import opened Wrappers
  import Base64
  import Render
  import Registry
  import opened Logos

  /** A registry entry as the script reads it: a JSON object whose values are strings. */
  type Entry = map<string, string>

  /** The exceptions that end the plan: `KeyError` on a missing field, or logo data that does not decode. */
  datatype ScriptError = MissingKey(key: string) | BadLogoData

  /** One redeploy an iteration would send: the entry's key, the target project, the page, the stylesheet and the header logo. */
  datatype Redeploy = Redeploy(key: string, project: string, html: string, css: string, logo: Logo)

  /** `entry.get(k)` is truthy: the key is there with a non-empty value. */
  predicate Present(entry: Entry, k: string)
  {
    k in entry && entry[k] != ""
  }

  /** `entry.get(k, default)`: the stored value whenever the key is there, even an empty one. */
  function Get(entry: Entry, k: string, default: string): (v: string)
    ensures k in entry ==> v == entry[k]
    ensures k !in entry ==> v == default
  {
    if k in entry then entry[k] else default
  }

  /**
   * The values substituted into the template (update_design.py:23-44), failing on the
   * first missing field in the order the chain reads them: title, link1, link2, link3.
   */
  function EntryFields(entry: Entry): (r: Result<Render.Fields, ScriptError>)
    requires "logo_name" in entry
    ensures r.Failure? <==> !("title" in entry && "link1" in entry && "link2" in entry && "link3" in entry)
    ensures r.Failure? ==> r.error == MissingKey(
      if "title" !in entry then "title" else if "link1" !in entry then "link1"
      else if "link2" !in entry then "link2" else "link3")
    ensures r.Success? ==> r.value.logo1 == entry["logo_name"]
    ensures r.Success? ==> r.value.logo2 == Get(entry, "logo2_name", entry["logo_name"])
    ensures r.Success? ==> r.value.logo3 == Get(entry, "logo3_name", entry["logo_name"])
    ensures r.Success? ==> r.value.title == entry["title"] && r.value.link1 == entry["link1"]
    ensures r.Success? ==> r.value.link2 == entry["link2"] && r.value.link3 == entry["link3"]
  {
    var logo1 := entry["logo_name"];
    var logo2 := Get(entry, "logo2_name", logo1);
    var logo3 := Get(entry, "logo3_name", logo1);
    if "title" !in entry then Failure(MissingKey("title"))
    else if "link1" !in entry then Failure(MissingKey("link1"))
    else if "link2" !in entry then Failure(MissingKey("link2"))
    else if "link3" !in entry then Failure(MissingKey("link3"))
    else Success(Render.Fields(entry["title"], entry["link1"], logo1, entry["link2"], logo2, entry["link3"], logo3))
  }

  /**
   * One iteration of the loop (update_design.py:22-53): `Success(None)` for a skipped entry,
   * the redeploy for any other, or the exception that stops the loop.
   */
  function PlanEntry(key: string, entry: Entry, html: string, css: string): (r: Result<Option<Redeploy>, ScriptError>)
    ensures r == Success(None) <==> !(Present(entry, "logo_name") && Present(entry, "logo_data"))
    ensures r.Failure? <==>
      && Present(entry, "logo_name") && Present(entry, "logo_data")
      && (EntryFields(entry).Failure? || Base64.Decode(entry["logo_data"]).None? || "project" !in entry)
    ensures r.Failure? ==>
      r.error == (if EntryFields(entry).Failure? then EntryFields(entry).error
                  else if Base64.Decode(entry["logo_data"]).None? then BadLogoData
                  else MissingKey("project"))
    ensures r.Success? && r.value.Some? ==>
      && Present(entry, "logo_name") && Present(entry, "logo_data")
      && "project" in entry
      && r.value.value.key == key
      && r.value.value.project == entry["project"]
      && r.value.value.css == css
      && Base64.Decode(entry["logo_data"]).Some?
      && r.value.value.logo == Logo(Base64.Decode(entry["logo_data"]).value, entry["logo_name"])
      && EntryFields(entry).Success?
      && r.value.value.html == Render.RenderDesign(html, EntryFields(entry).value)
  {
    if !Present(entry, "logo_name") || !Present(entry, "logo_data") then Success(None)
    else
      match EntryFields(entry)
      case Failure(e) => Failure(e)
      case Success(fields) =>
        match Base64.Decode(entry["logo_data"])
        case None => Failure(BadLogoData)
        case Some(bytes) =>
          if "project" !in entry then Failure(MissingKey("project"))
          else Success(Some(Redeploy(key, entry["project"], Render.RenderDesign(html, fields), css, Logo(bytes, entry["logo_name"]))))
  }

  /** The redeploys of the whole loop over the entries in iteration order, or the first exception. */
  function Plan(entries: seq<(string, Entry)>, html: string, css: string): (r: Result<seq<Redeploy>, ScriptError>)
    ensures r.Success? ==> |r.value| <= |entries|
    decreases |entries|
  {
    if entries == [] then Success([])
    else
      var last := entries[|entries| - 1];
      match Plan(entries[..|entries| - 1], html, css)
      case Failure(e) => Failure(e)
      case Success(done) =>
        match PlanEntry(last.0, last.1, html, css)
        case Failure(e) => Failure(e)
        case Success(None) => Success(done)
        case Success(Some(p)) => Success(done + [p])
  }

  /** Once an entry raises, that exception is the plan's outcome, whatever follows. */
  lemma {:induction false} PlanFailurePersists(entries: seq<(string, Entry)>, k: nat, html: string, css: string)
    requires k <= |entries| && Plan(entries[..k], html, css).Failure?
    ensures Plan(entries, html, css) == Plan(entries[..k], html, css)
    decreases |entries| - k
  {
    if k < |entries| {
      var n := |entries|;
      assert entries[..n - 1][..k] == entries[..k];
      PlanFailurePersists(entries[..n - 1], k, html, css);
      assert entries[..n] == entries;
    } else {
      assert entries[..k] == entries;
    }
  }

  /** The loop of update_design.py:21-54: skipped entries are passed over with `continue`. */
  method PlanRedeploys(entries: seq<(string, Entry)>, html: string, css: string) returns (r: Result<seq<Redeploy>, ScriptError>)
    ensures r == Plan(entries, html, css)
  {
    var planned: seq<Redeploy> := [];
    for i := 0 to |entries|
      invariant Plan(entries[..i], html, css) == Success(planned)
    {
      assert entries[..i + 1][..i] == entries[..i];
      var step := PlanEntry(entries[i].0, entries[i].1, html, css);
      if step.Failure? {
        PlanFailurePersists(entries, i + 1, html, css);
        return Failure(step.error);
      }
      if step.value.None? {
        continue;
      }
      planned := planned + [step.value.value];
    }
    assert entries[..|entries|] == entries;
    r := Success(planned);
  }

  /** The plan of a prefix of the entries is a prefix of the plan: redeploys already planned are never dropped or reordered. */
  lemma {:induction false} PlanPrefix(entries: seq<(string, Entry)>, k: nat, html: string, css: string)
    requires k <= |entries| && Plan(entries, html, css).Success?
    ensures Plan(entries[..k], html, css).Success?
    ensures Plan(entries[..k], html, css).value <= Plan(entries, html, css).value
    decreases |entries|
  {
    var n := |entries|;
    if k == n {
      assert entries[..k] == entries;
    } else {
      assert entries[..n - 1][..k] == entries[..k];
      PlanPrefix(entries[..n - 1], k, html, css);
    }
  }

  /**
   * Every entry that is planned on its own is in the plan, at the position after the
   * redeploys of the entries before it.
   */
  lemma PlanPosition(entries: seq<(string, Entry)>, j: nat, html: string, css: string)
    requires Plan(entries, html, css).Success? && j < |entries|
    requires PlanEntry(entries[j].0, entries[j].1, html, css).Success?
    requires PlanEntry(entries[j].0, entries[j].1, html, css).value.Some?
    ensures Plan(entries[..j], html, css).Success?
    ensures |Plan(entries[..j], html, css).value| < |Plan(entries, html, css).value|
    ensures Plan(entries, html, css).value[|Plan(entries[..j], html, css).value|]
         == PlanEntry(entries[j].0, entries[j].1, html, css).value.value
  {
    PlanPrefix(entries, j + 1, html, css);
    assert entries[..j + 1][..j] == entries[..j];
    assert entries[..j + 1][j] == entries[j];
  }

  /** Redeploys follow the order of the entries: an earlier planned entry is redeployed before a later one. */
  lemma PlanOrder(entries: seq<(string, Entry)>, i: nat, j: nat, html: string, css: string)
    requires Plan(entries, html, css).Success? && i < j < |entries|
    requires PlanEntry(entries[i].0, entries[i].1, html, css).Success?
    requires PlanEntry(entries[i].0, entries[i].1, html, css).value.Some?
    requires PlanEntry(entries[j].0, entries[j].1, html, css).Success?
    requires PlanEntry(entries[j].0, entries[j].1, html, css).value.Some?
    ensures Plan(entries[..i], html, css).Success? && Plan(entries[..j], html, css).Success?
    ensures |Plan(entries[..i], html, css).value| < |Plan(entries[..j], html, css).value|
  {
    PlanPosition(entries, i, html, css);
    PlanPosition(entries, j, html, css);
    PlanPrefix(entries[..j], i + 1, html, css);
    assert entries[..j][..i + 1] == entries[..i + 1];
    assert entries[..i + 1][..i] == entries[..i];
    assert entries[..i + 1][i] == entries[i];
  }

  /** A successful plan is the plan of all entries but the last, extended by the last entry's redeploy if it has one. */
  lemma PlanLastStep(entries: seq<(string, Entry)>, html: string, css: string)
    requires entries != [] && Plan(entries, html, css).Success?
    ensures Plan(entries[..|entries| - 1], html, css).Success?
    ensures PlanEntry(entries[|entries| - 1].0, entries[|entries| - 1].1, html, css).Success?
    ensures var step := PlanEntry(entries[|entries| - 1].0, entries[|entries| - 1].1, html, css).value;
      Plan(entries, html, css).value
        == Plan(entries[..|entries| - 1], html, css).value + (if step.Some? then [step.value] else [])
  {
  }

  /** Entry `j` is planned on its own as `p`, and `p` sits at index `k`, right after the redeploys of the entries before it. */
  predicate PlannedAt(entries: seq<(string, Entry)>, j: int, k: int, p: Redeploy, html: string, css: string)
  {
    && 0 <= j < |entries|
    && Plan(entries[..j], html, css).Success?
    && k == |Plan(entries[..j], html, css).value|
    && PlanEntry(entries[j].0, entries[j].1, html, css) == Success(Some(p))
  }

  /**
   * The plan holds nothing else: each redeploy in it is the one of an entry planned on its own,
   * at the position `PlanPosition` gives that entry. With `PlanPosition` this matches planned
   * entries and redeploys one to one, in order.
   */
  lemma {:induction false} PlanSound(entries: seq<(string, Entry)>, k: nat, html: string, css: string)
    requires Plan(entries, html, css).Success? && k < |Plan(entries, html, css).value|
    ensures exists j :: PlannedAt(entries, j, k, Plan(entries, html, css).value[k], html, css)
    decreases |entries|
  {
    var n := |entries|;
    var prefix := entries[..n - 1];
    var plan := Plan(entries, html, css).value;
    var done := Plan(prefix, html, css).value;
    PlanLastStep(entries, html, css);
    if k < |done| {
      PlanSound(prefix, k, html, css);
      var j :| PlannedAt(prefix, j, k, done[k], html, css);
      assert prefix[..j] == entries[..j] && prefix[j] == entries[j];
      assert PlannedAt(entries, j, k, plan[k], html, css);
    } else {
      assert PlannedAt(entries, n - 1, k, plan[k], html, css);
    }
  }

  /** The plan fails exactly when some entry raises on its own. */
  lemma {:induction false} PlanFailsIff(entries: seq<(string, Entry)>, html: string, css: string)
    ensures Plan(entries, html, css).Failure? <==>
      exists j :: 0 <= j < |entries| && PlanEntry(entries[j].0, entries[j].1, html, css).Failure?
    decreases |entries|
  {
    if entries != [] {
      var n := |entries|;
      var prefix := entries[..n - 1];
      PlanFailsIff(prefix, html, css);
      assert forall j :: 0 <= j < n - 1 ==> prefix[j] == entries[j];
      if Plan(prefix, html, css).Failure? {
        var j :| 0 <= j < |prefix| && PlanEntry(prefix[j].0, prefix[j].1, html, css).Failure?;
        assert entries[j] == prefix[j];
      }
    }
  }

  /** Every planned redeploy targets the stored project of an entry with the same key. */
  lemma {:induction false} PlanTargetsStoredProjects(entries: seq<(string, Entry)>, html: string, css: string)
    requires Plan(entries, html, css).Success?
    ensures forall p :: p in Plan(entries, html, css).value ==>
      exists j :: 0 <= j < |entries| && entries[j].0 == p.key && "project" in entries[j].1 && entries[j].1["project"] == p.project
    decreases |entries|
  {
    if entries != [] {
      var n := |entries|;
      var prefix := entries[..n - 1];
      PlanTargetsStoredProjects(prefix, html, css);
      forall p | p in Plan(entries, html, css).value
        ensures exists j :: 0 <= j < n && entries[j].0 == p.key && "project" in entries[j].1 && entries[j].1["project"] == p.project
      {
        if p in Plan(prefix, html, css).value {
          var j :| 0 <= j < |prefix| && prefix[j].0 == p.key && "project" in prefix[j].1 && prefix[j].1["project"] == p.project;
          assert entries[j] == prefix[j];
        } else {
          assert entries[n - 1].0 == p.key;
        }
      }
    }
  }

  /** The records the bot writes have no `logo_name` or `logo_data` field, so the script skips each of them. */
  lemma BotRecordSkipped(key: string, r: Registry.Record, html: string, css: string)
    ensures PlanEntry(key, Registry.ToJson(r), html, css) == Success(None)
  {
    assert "logo_name" !in Registry.RecordKeys;
  }

  /** A registry the bot wrote, as the script iterates it. */
  function AsEntries(records: seq<(string, Registry.Record)>): (entries: seq<(string, Entry)>)
    ensures |entries| == |records|
    ensures forall i :: 0 <= i < |records| ==> entries[i] == (records[i].0, Registry.ToJson(records[i].1))
  {
    seq(|records|, i requires 0 <= i < |records| => (records[i].0, Registry.ToJson(records[i].1)))
  }

  /** Run over a registry the bot wrote, the script redeploys nothing. */
  lemma {:induction false} BotRegistryPlansNothing(records: seq<(string, Registry.Record)>, html: string, css: string)
    ensures Plan(AsEntries(records), html, css) == Success([])
    decreases |records|
  {
    if records != [] {
      var n := |records|;
      var entries := AsEntries(records);
      BotRegistryPlansNothing(records[..n - 1], html, css);
      assert entries[..n - 1] == AsEntries(records[..n - 1]);
      BotRecordSkipped(records[n - 1].0, records[n - 1].1, html, css);
    }
  }

  /** The data of logos 2 and 3 plays no part in the plan: only logo 1's data is decoded. */
  lemma PlanIgnoresOtherLogoData(key: string, entry: Entry, d2: string, d3: string, html: string, css: string)
    ensures PlanEntry(key, entry["logo2_data" := d2]["logo3_data" := d3], html, css) == PlanEntry(key, entry, html, css)
  {
    var e := entry["logo2_data" := d2]["logo3_data" := d3];
    assert forall k :: k != "logo2_data" && k != "logo3_data" ==> (k in e <==> k in entry) && (k in e ==> e[k] == entry[k]);
    assert "logo_name" != "logo2_data" && "logo_data" != "logo2_data" && "logo_name" != "logo3_data" && "logo_data" != "logo3_data";
    if Present(entry, "logo_name") {
      assert EntryFields(e) == EntryFields(entry);
    }
  }

  /** A `logo2_name` that is present is used as it is, even when empty; only an absent one defaults to logo 1's name. */
  lemma PresentLogoNameKept(entry: Entry)
    requires "logo_name" in entry && "logo2_name" in entry && EntryFields(entry).Success?
    ensures EntryFields(entry).value.logo2 == entry["logo2_name"]
  {
  }
}
