/**
 * The content store behind the API route handlers: one keyed table per content type and
 * the set of files under the public static root. Each handler is a method of `Store`;
 * its contract names every column and file it changes, and `Snapshot` pins down that
 * nothing else does. File-system and clock results are parameters.
 */
module Store {
  import opened Wrappers
  import opened Uploads
  import opened Content
  import Ordering

  /** `findUnique({ where: { id } })`. */
  function Lookup<T>(table: map<int, T>, id: int): (r: Option<T>)
    ensures r.Some? <==> id in table
    ensures r.Some? ==> r.value == table[id]
  {
    if id in table then Some(table[id]) else None
  }

  /** A column that an update leaves out keeps its value; a created row gets null. */
  function Keep(update: Option<string>, current: Option<string>): (r: Option<string>)
    ensures update.Some? ==> r == update
    ensures update.None? ==> r == current
  {
    if update.Some? then update else current
  }

  /** `x || null` for an optional JSON string. */
  function NullIfEmpty(s: Option<string>): (r: Option<string>)
    ensures r.Some? <==> Truthy(s)
    ensures r.Some? ==> r == s
  {
    if Truthy(s) then s else None
  }

  // ---------------------------------------------------------------------------
  // Form-to-column mappings built by a `forEach` over a key table
  // ---------------------------------------------------------------------------

  /** The mission form keys and the columns they fill. */
  const MissionFieldMappings: seq<(string, string)> := [
    ("missionTitle", "title"), ("missionTitleRu", "titleRu"), ("missionTitleUz", "titleUz"),
    ("missionText", "text"), ("missionTextRu", "textRu"), ("missionTextUz", "textUz")]

  /** The landing form keys and the hero columns they fill. */
  const HeroFieldMappings: seq<(string, string)> := [
    ("heroTitle", "title"), ("heroTitleRu", "titleRu"), ("heroTitleUz", "titleUz"),
    ("subtitle", "subtitle"), ("subtitleRu", "subtitleRu"), ("subtitleUz", "subtitleUz"),
    ("ctaText", "ctaText"), ("ctaTextRu", "ctaTextRu"), ("ctaTextUz", "ctaTextUz")]

  /** No column is filled by two form keys. */
  predicate DistinctColumns(mappings: seq<(string, string)>) {
    forall i, j :: 0 <= i < j < |mappings| ==> mappings[i].1 != mappings[j].1
  }

  /**
   * `updateData[dbKey] = formData.get(formKey)?.toString() || ''` for every pair of the
   * table: each column gets its form entry, or '' when the entry is missing or empty.
   */
  method MapFields(form: Form, mappings: seq<(string, string)>) returns (data: map<string, string>)
    requires DistinctColumns(mappings)
    ensures forall k :: k in data ==> exists i :: 0 <= i < |mappings| && mappings[i].1 == k
    ensures forall i :: 0 <= i < |mappings| ==> mappings[i].1 in data && data[mappings[i].1] == TextOr(form, mappings[i].0, "")
  {
    data := map[];
    var i := 0;
    while i < |mappings|
      invariant 0 <= i <= |mappings|
      invariant forall k :: k in data ==> exists j :: 0 <= j < i && mappings[j].1 == k
      invariant forall j :: 0 <= j < i ==> mappings[j].1 in data && data[mappings[j].1] == TextOr(form, mappings[j].0, "")
    {
      data := data[mappings[i].1 := TextOr(form, mappings[i].0, "")];
      i := i + 1;
    }
  }

  /** The mission texts as the `forEach` over `MissionFieldMappings` collects them. */
  method MissionTextsOf(form: Form) returns (texts: MissionTexts)
    ensures texts == MissionFormTexts(form)
  {
    var m := MissionFieldMappings;
    assert DistinctColumns(m) by {
      forall i, j | 0 <= i < j < |m|
        ensures m[i].1 != m[j].1
      {
        assert i == 0 || i == 1 || i == 2 || i == 3 || i == 4;
      }
    }
    var data := MapFields(form, m);
    assert m[0].1 == "title" && m[1].1 == "titleRu" && m[2].1 == "titleUz";
    assert m[3].1 == "text" && m[4].1 == "textRu" && m[5].1 == "textUz";
    texts := MissionTexts(data["title"], data["titleRu"], data["titleUz"], data["text"], data["textRu"], data["textUz"]);
  }

  /** The hero texts as the `forEach` over `HeroFieldMappings` collects them. */
  method HeroTextsOf(form: Form) returns (texts: HeroTexts)
    ensures texts == HeroFormTexts(form)
  {
    var m := HeroFieldMappings;
    assert DistinctColumns(m) by {
      forall i, j | 0 <= i < j < |m|
        ensures m[i].1 != m[j].1
      {
        assert i == 0 || i == 1 || i == 2 || i == 3 || i == 4 || i == 5 || i == 6 || i == 7;
      }
    }
    var data := MapFields(form, m);
    assert m[0].1 == "title" && m[1].1 == "titleRu" && m[2].1 == "titleUz";
    assert m[3].1 == "subtitle" && m[4].1 == "subtitleRu" && m[5].1 == "subtitleUz";
    assert m[6].1 == "ctaText" && m[7].1 == "ctaTextRu" && m[8].1 == "ctaTextUz";
    texts := HeroTexts(data["title"], data["titleRu"], data["titleUz"], data["subtitle"], data["subtitleRu"],
                       data["subtitleUz"], data["ctaText"], data["ctaTextRu"], data["ctaTextUz"]);
  }

  // ---------------------------------------------------------------------------
  // Mission section
  // ---------------------------------------------------------------------------

  /** The row the mission GET reports when the table is empty. */
  const DefaultMission := MissionRow(MissionTexts("", "", "", "", "", ""), None)

  /** The six mission columns as the PUT sets them. */
  function MissionFormTexts(form: Form): MissionTexts {
    MissionTexts(
      TextOr(form, "missionTitle", ""), TextOr(form, "missionTitleRu", ""), TextOr(form, "missionTitleUz", ""),
      TextOr(form, "missionText", ""), TextOr(form, "missionTextRu", ""), TextOr(form, "missionTextUz", ""))
  }

  /** The image the mission PUT writes, or `None` when `image` is left out of the update. */
  function MissionImageUpdate(form: Form, now: nat): (r: Option<string>)
    ensures "missionImage" in form.files ==> r == Some(MissionImagePath(now, form.files["missionImage"].name))
    ensures "missionImage" !in form.files ==> r == TextOrNull(form, "currentMissionImage")
  {
    match FileOf(form, "missionImage")
    case Some(f) => Some(MissionImagePath(now, f.name))
    case None => TextOrNull(form, "currentMissionImage")
  }

  /** Row 1 after the mission upsert, given row 1 before (if any). */
  function MissionAfterPut(current: Option<MissionRow>, form: Form, now: nat): MissionRow {
    MissionRow(MissionFormTexts(form), Keep(MissionImageUpdate(form, now), if current.Some? then current.value.image else None))
  }

  /** An upload wins over `currentMissionImage`, and its stored name is sanitised. */
  lemma MissionUploadWins(current: Option<MissionRow>, form: Form, now: nat)
    requires "missionImage" in form.files
    ensures var r := MissionAfterPut(current, form, now);
      r.image == Some("/images/mission/mission-" + Stamp(now) + "-" + Sanitize(form.files["missionImage"].name))
  {
  }

  /** Without an upload or a non-empty `currentMissionImage`, the stored image is kept. */
  lemma MissionImageKept(row: MissionRow, form: Form, now: nat)
    requires "missionImage" !in form.files
    requires "currentMissionImage" !in form.fields || form.fields["currentMissionImage"] == ""
    ensures MissionAfterPut(Some(row), form, now).image == row.image
  {
  }

  /** Repeating a mission PUT without an upload changes nothing further. */
  lemma MissionPutIdempotent(current: Option<MissionRow>, form: Form, now: nat, later: nat)
    requires "missionImage" !in form.files
    ensures var once := MissionAfterPut(current, form, now);
      MissionAfterPut(Some(once), form, later) == once
  {
  }

  // ---------------------------------------------------------------------------
  // Hero section
  // ---------------------------------------------------------------------------

  /** The nine hero columns as both landing-settings PUTs set them. */
  function HeroFormTexts(form: Form): HeroTexts {
    HeroTexts(
      TextOr(form, "heroTitle", ""), TextOr(form, "heroTitleRu", ""), TextOr(form, "heroTitleUz", ""),
      TextOr(form, "subtitle", ""), TextOr(form, "subtitleRu", ""), TextOr(form, "subtitleUz", ""),
      TextOr(form, "ctaText", ""), TextOr(form, "ctaTextRu", ""), TextOr(form, "ctaTextUz", ""))
  }

  /** The video the admin landing PUT writes, or `None` when `backgroundVideo` is left out. */
  function LandingVideoUpdate(form: Form, now: nat): (r: Option<string>)
    ensures "file" in form.files ==> r == Some(LandingVideoPath(now, form.files["file"].name))
    ensures "file" !in form.files ==> r == TextOrNull(form, "currentVideo")
  {
    match FileOf(form, "file")
    case Some(f) => Some(LandingVideoPath(now, f.name))
    case None => TextOrNull(form, "currentVideo")
  }

  /** Row 1 after the admin landing upsert. */
  function AdminLandingAfterPut(current: Option<HeroRow>, form: Form, now: nat): HeroRow {
    HeroRow(HeroFormTexts(form), Keep(LandingVideoUpdate(form, now), if current.Some? then current.value.backgroundVideo else None))
  }

  /** Row 1 after the public landing upsert: every column, the video included, comes from the form. */
  function LandingRow(form: Form): (r: HeroRow)
    ensures r.backgroundVideo.Some? <==> "backgroundVideo" in form.fields && form.fields["backgroundVideo"] != ""
  {
    HeroRow(HeroFormTexts(form), TextOrNull(form, "backgroundVideo"))
  }

  /**
   * The two landing PUTs write the same row when the admin form carries no upload and its
   * `currentVideo` is the public form's non-empty `backgroundVideo`.
   */
  lemma LandingPutsAgree(current: Option<HeroRow>, form: Form, now: nat)
    requires "file" !in form.files
    requires "backgroundVideo" in form.fields && form.fields["backgroundVideo"] != ""
    requires "currentVideo" in form.fields && form.fields["currentVideo"] == form.fields["backgroundVideo"]
    ensures AdminLandingAfterPut(current, form, now) == LandingRow(form)
  {
  }

  /** Omitting the video clears it through the public PUT but keeps it through the admin PUT. */
  lemma OmittedVideo(row: HeroRow, form: Form, now: nat)
    requires "file" !in form.files && "currentVideo" !in form.fields && "backgroundVideo" !in form.fields
    ensures LandingRow(form).backgroundVideo == None
    ensures AdminLandingAfterPut(Some(row), form, now).backgroundVideo == row.backgroundVideo
  {
  }

  /** The form keys that the hero POSTs copy into the column of the same name. */
  const HeroColumnNames: seq<string> :=
    ["title", "titleRu", "titleUz", "subtitle", "subtitleRu", "subtitleUz", "ctaText", "ctaTextRu", "ctaTextUz"]

  /**
   * The nine columns copied straight from the form, or `None` when an entry is missing:
   * a required column given `null` makes the update fail.
   */
  function HeroColumns(form: Form): (r: Option<HeroTexts>)
    ensures r.Some? <==> forall k :: k in HeroColumnNames ==> k in form.fields
    ensures r.Some? ==> && r.value.title == form.fields["title"] && r.value.titleRu == form.fields["titleRu"]
                        && r.value.titleUz == form.fields["titleUz"]
    ensures r.Some? ==> && r.value.subtitle == form.fields["subtitle"] && r.value.subtitleRu == form.fields["subtitleRu"]
                        && r.value.subtitleUz == form.fields["subtitleUz"]
    ensures r.Some? ==> && r.value.ctaText == form.fields["ctaText"] && r.value.ctaTextRu == form.fields["ctaTextRu"]
                        && r.value.ctaTextUz == form.fields["ctaTextUz"]
  {
    if "title" in form.fields && "titleRu" in form.fields && "titleUz" in form.fields
      && "subtitle" in form.fields && "subtitleRu" in form.fields && "subtitleUz" in form.fields
      && "ctaText" in form.fields && "ctaTextRu" in form.fields && "ctaTextUz" in form.fields
    then
      Some(HeroTexts(
        form.fields["title"], form.fields["titleRu"], form.fields["titleUz"],
        form.fields["subtitle"], form.fields["subtitleRu"], form.fields["subtitleUz"],
        form.fields["ctaText"], form.fields["ctaTextRu"], form.fields["ctaTextUz"]))
    else
      assert "title" !in form.fields || "titleRu" !in form.fields || "titleUz" !in form.fields
        || "subtitle" !in form.fields || "subtitleRu" !in form.fields || "subtitleUz" !in form.fields
        || "ctaText" !in form.fields || "ctaTextRu" !in form.fields || "ctaTextUz" !in form.fields;
      None
  }

  /** The video URL of the landing hero POST: set only for an upload of positive size, else null. */
  function HeroUploadUrl(form: Form, now: nat): (r: Option<string>)
    ensures r.Some? <==> "backgroundVideo" in form.files && form.files["backgroundVideo"].size > 0
    ensures r.Some? ==> r.value == HeroVideoPath(now, form.files["backgroundVideo"].name)
  {
    match FileOf(form, "backgroundVideo")
    case Some(f) => if f.size > 0 then Some(HeroVideoPath(now, f.name)) else None
    case None => None
  }

  /** The outcomes of the file steps of a replacement: write, transcode, removals. */
  datatype VideoIo = VideoIo(writeOk: bool, compressOk: bool, removeTempOk: bool, removeOldOk: bool, retryRemoveTempOk: bool)

  /** The file set after a replacement, the path the row should then name, and whether it went through. */
  datatype Replacement = Replacement(files: set<string>, stored: Option<string>, ok: bool)

  /** The old file removed by a best-effort delete, if any. */
  function Removed(current: Option<string>, removeOk: bool): set<string> {
    if Truthy(current) && removeOk then {current.value} else {}
  }

  /**
   * The hero video replacement: write the upload to a temporary file, transcode it into
   * the final file, remove the temporary file, then try to remove the old video. A failed
   * transcode or temporary-file removal retries that removal and fails the request.
   */
  function ReplaceVideo(files: set<string>, current: Option<string>, temp: string, final: string, io: VideoIo): Replacement {
    if !io.writeOk then Replacement(files, current, false)
    else if io.compressOk && io.removeTempOk then
      Replacement(files + {temp, final} - {temp} - Removed(current, io.removeOldOk), Some(final), true)
    else
      var written := files + {temp} + (if io.compressOk then {final} else {});
      Replacement(if io.retryRemoveTempOk then written - {temp} else written, current, false)
  }

  /**
   * The temporary file is gone after a replacement that went through, and after a failed
   * one whose clean-up removal succeeded.
   */
  lemma TempCleanedUp(files: set<string>, current: Option<string>, t: nat, f: nat, io: VideoIo)
    requires TempVideoPath(t) !in files
    requires io.writeOk
    ensures var r := ReplaceVideo(files, current, TempVideoPath(t), CompressedVideoPath(f), io);
      (r.ok || io.retryRemoveTempOk) ==> TempVideoPath(t) !in r.files
  {
  }

  /**
   * A replacement that went through names the transcoded file, which exists unless the
   * old video had that very path; a failed one keeps the old name and every earlier file
   * other than the temporary one.
   */
  lemma ReplaceVideoOutcome(files: set<string>, current: Option<string>, t: nat, f: nat, io: VideoIo)
    ensures var r := ReplaceVideo(files, current, TempVideoPath(t), CompressedVideoPath(f), io);
      && (r.ok ==> r.stored == Some(CompressedVideoPath(f))
                   && (CompressedVideoPath(f) in r.files || current == Some(CompressedVideoPath(f))))
      && (r.ok && Truthy(current) && io.removeOldOk ==> current.value !in r.files)
      && (!r.ok ==> r.stored == current && forall p :: p in files && p != TempVideoPath(t) ==> p in r.files)
  {
    TempIsNotCompressed(t, f);
  }

  // ---------------------------------------------------------------------------
  // Site settings and footer
  // ---------------------------------------------------------------------------

  const DefaultCompanyName := "Jomboy don"

  /** The site-settings GET body: the stored row, or the built-in branding. */
  datatype SiteSettingsBody = Defaults(logo: Option<string>, companyName: string) | Stored(row: SiteSettingsRow)

  /** The row the public site-settings upsert writes: row 1 updated, or a freshly created row. */
  function SiteSettingsAfterPut(current: Option<SiteSettingsRow>, logoUrl: Option<string>, companyName: Option<string>): SiteSettingsRow {
    match current
    case Some(row) =>
      row.(logo := Keep(logoUrl, row.logo), companyName := if Truthy(companyName) then companyName.value else row.companyName)
    case None =>
      SiteSettingsRow(if Truthy(companyName) then companyName.value else DefaultCompanyName, logoUrl,
                      None, None, None, None, None, None, None)
  }

  /** The update touches the logo only when one was uploaded and the name only when it is non-empty. */
  lemma SiteSettingsUpdateIsPartial(row: SiteSettingsRow, logoUrl: Option<string>, companyName: Option<string>)
    ensures var r := SiteSettingsAfterPut(Some(row), logoUrl, companyName);
      && r.(logo := row.logo, companyName := row.companyName) == row
      && (logoUrl.None? ==> r.logo == row.logo)
      && (!Truthy(companyName) ==> r.companyName == row.companyName)
  {
  }

  /** The outcomes of the file steps of a logo replacement. */
  datatype LogoIo = LogoIo(mkdirOk: bool, removeOldOk: bool, writeOk: bool)

  /** The logo replacement: create the directory, try to remove the old logo, write the new one. */
  function ReplaceLogo(files: set<string>, current: Option<string>, path: string, io: LogoIo): Replacement {
    if !io.mkdirOk then Replacement(files, current, false)
    else
      var cleared := files - Removed(current, io.removeOldOk);
      if io.writeOk then Replacement(cleared + {path}, Some(path), true)
      else Replacement(cleared, current, false)
  }

  /**
   * A logo replacement that went through names a file that exists. Because the old logo
   * is removed before the new one is written, a failed write leaves the row naming a
   * file that is gone.
   */
  lemma ReplaceLogoOutcome(files: set<string>, current: Option<string>, path: string, io: LogoIo)
    ensures var r := ReplaceLogo(files, current, path, io);
      && (r.ok ==> r.stored == Some(path) && path in r.files)
      && (io.mkdirOk && io.removeOldOk && !io.writeOk && Truthy(current) ==>
            !r.ok && r.stored == current && current.value !in r.files)
  {
  }

  /** Row 1 after the footer update: address and social columns take the payload values. */
  function FooterRow(row: SiteSettingsRow, p: FooterPayload): SiteSettingsRow {
    row.(address := Assign(row.address, p.address), address_ru := Assign(row.address_ru, p.address_ru),
         address_uz := Assign(row.address_uz, p.address_uz), instagram := Assign(row.instagram, p.instagram),
         telegram := Assign(row.telegram, p.telegram), youtube := Assign(row.youtube, p.youtube),
         facebook := Assign(row.facebook, p.facebook))
  }

  /** The footer update leaves the company name and the logo alone. */
  lemma FooterKeepsBranding(row: SiteSettingsRow, p: FooterPayload)
    ensures FooterRow(row, p).companyName == row.companyName && FooterRow(row, p).logo == row.logo
  {
  }

  /** The phone row created for a payload entry; an empty or missing description is null. */
  function PhoneFrom(p: PhoneInput, settingsId: int): (r: PhoneRow)
    ensures r.settingsId == settingsId && r.number == p.number
    ensures r.description.Some? <==> Truthy(p.description)
    ensures r.description_ru.Some? <==> Truthy(p.description_ru)
    ensures r.description_uz.Some? <==> Truthy(p.description_uz)
  {
    PhoneRow(p.number, p.department, p.department_ru, p.department_uz,
             NullIfEmpty(p.description), NullIfEmpty(p.description_ru), NullIfEmpty(p.description_uz), settingsId)
  }

  /** `deleteMany({ where: { settingsId } })`. */
  function Unlinked(phones: map<int, PhoneRow>, settingsId: int): map<int, PhoneRow> {
    map id | id in phones && phones[id].settingsId != settingsId :: phones[id]
  }

  /** The phones linked to a settings row, as the footer GET includes them. */
  function Linked(phones: map<int, PhoneRow>, settingsId: int): map<int, PhoneRow> {
    map id | id in phones && phones[id].settingsId == settingsId :: phones[id]
  }

  /** The rows created one by one for the payload phones, with consecutive ids from `start`. */
  function Created(ps: seq<PhoneInput>, start: int, settingsId: int): map<int, PhoneRow>
    decreases |ps|
  {
    if ps == [] then map[]
    else Created(ps[..|ps| - 1], start, settingsId)[start + |ps| - 1 := PhoneFrom(ps[|ps| - 1], settingsId)]
  }

  /** The created rows take exactly the ids `start .. start + |ps| - 1`, the j-th built from the j-th payload phone. */
  lemma {:induction false} CreatedRows(ps: seq<PhoneInput>, start: int, settingsId: int)
    ensures forall k :: k in Created(ps, start, settingsId) <==> start <= k < start + |ps|
    ensures forall j :: 0 <= j < |ps| ==> Created(ps, start, settingsId)[start + j] == PhoneFrom(ps[j], settingsId)
    decreases |ps|
  {
    if ps != [] {
      var init := ps[..|ps| - 1];
      CreatedRows(init, start, settingsId);
      assert forall j :: 0 <= j < |init| ==> init[j] == ps[j];
    }
  }

  /** Creating one more phone extends the created rows by one id. */
  lemma CreatedStep(ps: seq<PhoneInput>, i: int, start: int, settingsId: int)
    requires 0 <= i < |ps|
    ensures Created(ps[..i + 1], start, settingsId) == Created(ps[..i], start, settingsId)[start + i := PhoneFrom(ps[i], settingsId)]
  {
    assert ps[..i + 1][..i] == ps[..i];
  }

  /** One more `phone.create` extends the table by the next created row. */
  lemma CreateOneMore(phones: map<int, PhoneRow>, ps: seq<PhoneInput>, i: int, start: int, settingsId: int)
    requires 0 <= i < |ps|
    ensures (phones + Created(ps[..i], start, settingsId))[start + i := PhoneFrom(ps[i], settingsId)]
         == phones + Created(ps[..i + 1], start, settingsId)
  {
    CreatedStep(ps, i, start, settingsId);
    var c := Created(ps[..i], start, settingsId);
    assert (phones + c)[start + i := PhoneFrom(ps[i], settingsId)] == phones + c[start + i := PhoneFrom(ps[i], settingsId)];
  }

  /** The created ids lie below `start + |ps|`, as do the earlier ones. */
  lemma CreatedBound(phones: map<int, PhoneRow>, ps: seq<PhoneInput>, start: int, settingsId: int)
    requires forall id :: id in phones ==> id < start
    ensures forall id :: id in phones + Created(ps, start, settingsId) ==> id < start + |ps|
  {
    CreatedRows(ps, start, settingsId);
  }

  /**
   * After the footer PUT the phones linked to the settings row are exactly the payload
   * phones, in payload order, and every other phone is untouched.
   */
  lemma FooterPhonesReplaced(phones: map<int, PhoneRow>, ps: seq<PhoneInput>, start: int, settingsId: int)
    requires forall id :: id in phones ==> id < start
    ensures var after := Unlinked(phones, settingsId) + Created(ps, start, settingsId);
      && Linked(after, settingsId) == Created(ps, start, settingsId)
      && (forall j :: 0 <= j < |ps| ==> start + j in after && after[start + j] == PhoneFrom(ps[j], settingsId))
      && (forall id :: id in phones && phones[id].settingsId != settingsId ==> id in after && after[id] == phones[id])
  {
    CreatedRows(ps, start, settingsId);
    var after := Unlinked(phones, settingsId) + Created(ps, start, settingsId);
    var created := Created(ps, start, settingsId);
    forall id | id in Linked(after, settingsId)
      ensures id in created
    {
    }
    forall id | id in created
      ensures id in Linked(after, settingsId)
    {
      var j :| 0 <= j < |ps| && id == start + j;
      assert after[id] == PhoneFrom(ps[j], settingsId);
    }
    assert Linked(after, settingsId).Keys == created.Keys;
  }

  /** The footer GET body: the first settings row and its phones. */
  datatype FooterBody = FooterBody(settings: SiteSettingsRow, phones: map<int, PhoneRow>)

  // ---------------------------------------------------------------------------
  // Stats
  // ---------------------------------------------------------------------------

  function StatRowOf(s: StatInput): StatRow {
    StatRow(s.value, s.labelEn, s.labelRu, s.labelUz)
  }

  /** Every listed id names an existing stat. */
  predicate AllListed(stats: map<int, StatRow>, list: seq<StatInput>) {
    forall i :: 0 <= i < |list| ==> list[i].id in stats
  }

  /** The updates of the transaction applied in order. */
  function ApplyStats(stats: map<int, StatRow>, list: seq<StatInput>): map<int, StatRow>
    decreases |list|
  {
    if list == [] then stats
    else ApplyStats(stats, list[..|list| - 1])[list[|list| - 1].id := StatRowOf(list[|list| - 1])]
  }

  /** Updating listed ids creates and deletes no stat. */
  lemma {:induction false} ApplyStatsKeys(stats: map<int, StatRow>, list: seq<StatInput>)
    requires AllListed(stats, list)
    ensures ApplyStats(stats, list).Keys == stats.Keys
    decreases |list|
  {
    if list != [] {
      assert AllListed(stats, list[..|list| - 1]);
      ApplyStatsKeys(stats, list[..|list| - 1]);
    }
  }

  /** A stat that is not listed is unchanged. */
  lemma {:induction false} ApplyStatsUnlisted(stats: map<int, StatRow>, list: seq<StatInput>, id: int)
    requires id in stats
    requires forall i :: 0 <= i < |list| ==> list[i].id != id
    ensures id in ApplyStats(stats, list) && ApplyStats(stats, list)[id] == stats[id]
    decreases |list|
  {
    if list != [] {
      ApplyStatsUnlisted(stats, list[..|list| - 1], id);
    }
  }

  /** A listed stat ends with the values of its last entry in the list. */
  lemma {:induction false} ApplyStatsLastWins(stats: map<int, StatRow>, list: seq<StatInput>, k: int)
    requires 0 <= k < |list|
    requires forall i :: k < i < |list| ==> list[i].id != list[k].id
    ensures list[k].id in ApplyStats(stats, list)
    ensures ApplyStats(stats, list)[list[k].id] == StatRowOf(list[k])
    decreases |list|
  {
    if k < |list| - 1 {
      ApplyStatsLastWins(stats, list[..|list| - 1], k);
    }
  }

  // ---------------------------------------------------------------------------
  // Products and news
  // ---------------------------------------------------------------------------

  /** The image URL of the public product POST: only for an upload of positive size. */
  function ProductImageUrl(form: Form, now: nat): (r: Option<string>)
    ensures r.Some? <==> "image" in form.files && form.files["image"].size > 0
    ensures r.Some? ==> r.value == ProductImagePath(now, form.files["image"].name)
  {
    match FileOf(form, "image")
    case Some(f) => if f.size > 0 then Some(ProductImagePath(now, f.name)) else None
    case None => None
  }

  /** The row the public product POST creates, or `None` when `name` is missing. */
  function PublicProductRow(form: Form, imageUrl: Option<string>, createdAt: int): (r: Option<ProductRow>)
    ensures r.Some? <==> "name" in form.fields
    ensures r.Some? ==> r.value.name == form.fields["name"] && r.value.price == Price(Get(form, "price"))
    ensures r.Some? ==> r.value.name_ru == TextOr(form, "name_ru", "") && r.value.name_uz == TextOr(form, "name_uz", "")
    ensures r.Some? ==> && r.value.description == TextOrNull(form, "description")
                        && r.value.description_ru == TextOrNull(form, "description_ru")
                        && r.value.description_uz == TextOrNull(form, "description_uz")
    ensures r.Some? ==> && r.value.category == TextOr(form, "category", "")
                        && r.value.category_ru == TextOr(form, "category_ru", "")
                        && r.value.category_uz == TextOr(form, "category_uz", "")
    ensures r.Some? ==> r.value.imageUrl == imageUrl && r.value.createdAt == createdAt
  {
    match Get(form, "name")
    case None => None
    case Some(name) =>
      Some(ProductRow(name, TextOr(form, "name_ru", ""), TextOr(form, "name_uz", ""),
        TextOrNull(form, "description"), TextOrNull(form, "description_ru"), TextOrNull(form, "description_uz"),
        Price(Get(form, "price")),
        TextOr(form, "category", ""), TextOr(form, "category_ru", ""), TextOr(form, "category_uz", ""),
        imageUrl, createdAt))
  }

  /** Missing or empty localised names and categories become '', descriptions null. */
  lemma PublicProductDefaults(form: Form, imageUrl: Option<string>, createdAt: int)
    requires "name" in form.fields
    requires forall k :: k in form.fields ==> k == "name" || k == "price"
    ensures var r := PublicProductRow(form, imageUrl, createdAt).value;
      && r.name_ru == "" && r.name_uz == "" && r.category == "" && r.category_ru == "" && r.category_uz == ""
      && r.description == None && r.description_ru == None && r.description_uz == None
  {
    assert "name_ru" !in form.fields && "name_uz" !in form.fields && "description" !in form.fields;
    assert "description_ru" !in form.fields && "description_uz" !in form.fields;
    assert "category" !in form.fields && "category_ru" !in form.fields && "category_uz" !in form.fields;
  }

  /** The image URL of the admin product POST and the news POST: any uploaded file. */
  function UploadUrl(form: Form, now: nat): (r: Option<string>)
    ensures r.Some? <==> "image" in form.files
    ensures r.Some? ==> r.value == UploadsPath(now, form.files["image"].name)
  {
    match FileOf(form, "image")
    case Some(f) => Some(UploadsPath(now, f.name))
    case None => None
  }

  /** The row the admin product POST creates: name, description, price and optional image. */
  function AdminProductRow(form: Form, imageUrl: Option<string>, createdAt: int): (r: Option<ProductRow>)
    ensures r.Some? <==> "name" in form.fields
    ensures r.Some? ==> r.value.name == form.fields["name"] && r.value.price == Price(Get(form, "price"))
    ensures r.Some? ==> r.value.imageUrl == imageUrl && r.value.createdAt == createdAt
    ensures r.Some? ==> r.value.description == TextOrNull(form, "description")
    ensures r.Some? ==> && r.value.name_ru == "" && r.value.name_uz == ""
                        && r.value.category == "" && r.value.category_ru == "" && r.value.category_uz == ""
                        && r.value.description_ru == None && r.value.description_uz == None
  {
    match Get(form, "name")
    case None => None
    case Some(name) =>
      Some(ProductRow(name, "", "", TextOrNull(form, "description"), None, None, Price(Get(form, "price")),
        "", "", "", imageUrl, createdAt))
  }

  /** The row the news POST creates, or `None` when one of the six text entries is missing. */
  function NewsRowOf(form: Form, imageUrl: Option<string>, createdAt: int): (r: Option<NewsRow>)
    ensures r.Some? <==> "title" in form.fields && "title_ru" in form.fields && "title_uz" in form.fields
                         && "content" in form.fields && "content_ru" in form.fields && "content_uz" in form.fields
    ensures r.Some? ==> && r.value.title == form.fields["title"] && r.value.title_ru == form.fields["title_ru"]
                        && r.value.title_uz == form.fields["title_uz"]
    ensures r.Some? ==> && r.value.content == form.fields["content"] && r.value.content_ru == form.fields["content_ru"]
                        && r.value.content_uz == form.fields["content_uz"]
    ensures r.Some? ==> r.value.imageUrl == imageUrl && r.value.createdAt == createdAt
  {
    if "title" in form.fields && "title_ru" in form.fields && "title_uz" in form.fields
      && "content" in form.fields && "content_ru" in form.fields && "content_uz" in form.fields
    then
      Some(NewsRow(form.fields["title"], form.fields["title_ru"], form.fields["title_uz"],
        form.fields["content"], form.fields["content_ru"], form.fields["content_uz"], imageUrl, createdAt))
    else None
  }

  /** `findMany({ orderBy: { createdAt: 'desc' } })`: every row once, newest first. */
  method NewestFirst<T>(table: map<int, T>, createdAt: map<int, int>) returns (list: seq<Keyed<T>>)
    requires createdAt.Keys == table.Keys
    ensures |list| == |table|
    ensures forall i :: 0 <= i < |list| ==> list[i].id in table && list[i].row == table[list[i].id]
    ensures forall id :: id in table ==> exists i :: 0 <= i < |list| && list[i].id == id
    ensures forall i, j :: 0 <= i < j < |list| ==> list[i].id != list[j].id
    ensures forall i, j :: 0 <= i < j < |list| ==> createdAt[list[i].id] >= createdAt[list[j].id]
  {
    var ids := Ordering.OrderByDesc(createdAt);
    assert |createdAt.Keys| == |table.Keys|;
    list := seq(|ids|, i requires 0 <= i < |ids| => Keyed(ids[i], table[ids[i]]));
    forall id | id in table
      ensures exists i :: 0 <= i < |list| && list[i].id == id
    {
      assert id in ids;
      var i :| 0 <= i < |ids| && ids[i] == id;
      assert list[i].id == id;
    }
  }

  // ---------------------------------------------------------------------------
  // The store
  // ---------------------------------------------------------------------------

  /** Every table and the file set, as one value. */
  datatype Tables = Tables(
    heroes: map<int, HeroRow>, missions: map<int, MissionRow>, siteSettings: map<int, SiteSettingsRow>,
    phones: map<int, PhoneRow>, stats: map<int, StatRow>, products: map<int, ProductRow>, news: map<int, NewsRow>,
    files: set<string>, nextSettingsId: int, nextPhoneId: int, nextProductId: int, nextNewsId: int)

  const HeroFailure := "Failed to update hero settings"

  class Store {
    var heroes: map<int, HeroRow>
    var missions: map<int, MissionRow>
    var siteSettings: map<int, SiteSettingsRow>
    var phones: map<int, PhoneRow>
    var stats: map<int, StatRow>
    var products: map<int, ProductRow>
    var news: map<int, NewsRow>
    /** Paths, relative to the public root, of the files that exist. */
    var files: set<string>
    /** The next auto-increment ids. */
    var nextSettingsId: int
    var nextPhoneId: int
    var nextProductId: int
    var nextNewsId: int

    function Snapshot(): Tables
      reads this
    {
      Tables(heroes, missions, siteSettings, phones, stats, products, news, files,
             nextSettingsId, nextPhoneId, nextProductId, nextNewsId)
    }

    /** Auto-increment ids lie above every id in use. */
    ghost predicate Valid()
      reads this
    {
      && (forall id :: id in siteSettings ==> id < nextSettingsId)
      && (forall id :: id in phones ==> id < nextPhoneId)
      && (forall id :: id in products ==> id < nextProductId)
      && (forall id :: id in news ==> id < nextNewsId)
    }

    /** An empty database and an empty public directory. */
    constructor()
      ensures Valid()
      ensures heroes == map[] && missions == map[] && siteSettings == map[] && phones == map[]
      ensures stats == map[] && products == map[] && news == map[] && files == {}
    {
      heroes, missions, siteSettings, phones := map[], map[], map[], map[];
      stats, products, news, files := map[], map[], map[], {};
      nextSettingsId, nextPhoneId, nextProductId, nextNewsId := 1, 1, 1, 1;
    }

    // ----- mission settings -----

    /** GET: the first mission row, or all six texts '' and no image. */
    method GetMissionSettings() returns (row: MissionRow)
      ensures missions == map[] ==> row == DefaultMission
      ensures missions != map[] ==> row == missions[Ordering.FirstId(missions.Keys)]
    {
      if missions == map[] {
        row := DefaultMission;
      } else {
        row := missions[Ordering.FirstId(missions.Keys)];
      }
    }

    /** PUT: upsert row 1 from the form; a failed image write fails the request first. */
    method PutMissionSettings(form: Form, now: nat, writeOk: bool) returns (reply: Reply<MissionRow>)
      requires Valid()
      modifies this
      ensures Valid()
      ensures Snapshot() == old(Snapshot()).(missions := missions, files := files)
      ensures "missionImage" in form.files && !writeOk ==>
        reply == Error(500, "Failed to update settings") && Snapshot() == old(Snapshot())
      ensures !("missionImage" in form.files && !writeOk) ==>
        var row := MissionAfterPut(Lookup(old(missions), 1), form, now);
        && reply == Ok(row)
        && missions == old(missions)[1 := row]
        && files == old(files) + (if "missionImage" in form.files then {row.image.value} else {})
    {
      var texts := MissionTextsOf(form);
      var image := None;
      var file := FileOf(form, "missionImage");
      if file.Some? {
        var path := MissionImagePath(now, file.value.name);
        if !writeOk {
          return Error(500, "Failed to update settings");
        }
        files := files + {path};
        image := Some(path);
      } else {
        image := TextOrNull(form, "currentMissionImage");
      }
      var row;
      if 1 in missions {
        row := MissionRow(texts, if image.Some? then image else missions[1].image);
      } else {
        row := MissionRow(texts, image);
      }
      missions := missions[1 := row];
      reply := Ok(row);
    }

    // ----- hero section -----

    /** GET (admin landing settings): the first hero row, or null. */
    method GetLandingSettings() returns (row: Option<HeroRow>)
      ensures row.None? <==> heroes == map[]
      ensures row.Some? ==> row.value == heroes[Ordering.FirstId(heroes.Keys)]
    {
      if heroes == map[] {
        row := None;
      } else {
        row := Some(heroes[Ordering.FirstId(heroes.Keys)]);
      }
    }

    /** GET (hero settings): the first hero row, or 404. */
    method GetHeroSettings() returns (reply: Reply<HeroRow>)
      ensures heroes == map[] ==> reply == Error(404, "Hero settings not found")
      ensures heroes != map[] ==> reply == Ok(heroes[Ordering.FirstId(heroes.Keys)])
    {
      if heroes == map[] {
        reply := Error(404, "Hero settings not found");
      } else {
        reply := Ok(heroes[Ordering.FirstId(heroes.Keys)]);
      }
    }

    /** PUT (admin landing settings): upsert row 1 from the nine-key table and the video rule. */
    method PutAdminLandingSettings(form: Form, now: nat, writeOk: bool) returns (reply: Reply<HeroRow>)
      requires Valid()
      modifies this
      ensures Valid()
      ensures Snapshot() == old(Snapshot()).(heroes := heroes, files := files)
      ensures "file" in form.files && !writeOk ==>
        reply == Error(500, "Failed to update settings") && Snapshot() == old(Snapshot())
      ensures !("file" in form.files && !writeOk) ==>
        var row := AdminLandingAfterPut(Lookup(old(heroes), 1), form, now);
        && reply == Ok(row)
        && heroes == old(heroes)[1 := row]
        && files == old(files) + (if "file" in form.files then {row.backgroundVideo.value} else {})
    {
      var texts := HeroTextsOf(form);
      var video := None;
      var file := FileOf(form, "file");
      if file.Some? {
        var path := LandingVideoPath(now, file.value.name);
        if !writeOk {
          return Error(500, "Failed to update settings");
        }
        files := files + {path};
        video := Some(path);
      } else {
        video := TextOrNull(form, "currentVideo");
      }
      var row;
      if 1 in heroes {
        row := HeroRow(texts, if video.Some? then video else heroes[1].backgroundVideo);
      } else {
        row := HeroRow(texts, video);
      }
      heroes := heroes[1 := row];
      reply := Ok(row);
    }

    /** PUT (public landing settings): upsert row 1 with the nine texts and the submitted video or null. */
    method PutLandingSettings(form: Form) returns (reply: Reply<bool>)
      requires Valid()
      modifies this
      ensures Valid()
      ensures Snapshot() == old(Snapshot()).(heroes := old(heroes)[1 := LandingRow(form)])
      ensures reply == Ok(true)
    {
      heroes := heroes[1 := HeroRow(HeroFormTexts(form), TextOrNull(form, "backgroundVideo"))];
      reply := Ok(true);
    }

    /**
     * POST (landing hero settings): update row 1 with the nine form entries and the new
     * video URL, which is null without an upload of positive size.
     */
    method PostLandingHeroSettings(form: Form, now: nat, writeOk: bool) returns (reply: Reply<HeroRow>)
      requires Valid()
      modifies this
      ensures Valid()
      ensures Snapshot() == old(Snapshot()).(heroes := heroes, files := files)
      ensures var url := HeroUploadUrl(form, now);
        if url.Some? && !writeOk then
          reply == Error(500, "Failed to update hero section") && Snapshot() == old(Snapshot())
        else
          && files == old(files) + (if url.Some? then {url.value} else {})
          && if 1 in old(heroes) && HeroColumns(form).Some? then
               reply == Ok(HeroRow(HeroColumns(form).value, url)) && heroes == old(heroes)[1 := HeroRow(HeroColumns(form).value, url)]
             else
               reply == Error(500, "Failed to update hero section") && heroes == old(heroes)
    {
      var url := HeroUploadUrl(form, now);
      if url.Some? {
        if !writeOk {
          return Error(500, "Failed to update hero section");
        }
        files := files + {url.value};
      }
      var texts := HeroColumns(form);
      if 1 !in heroes || texts.None? {
        return Error(500, "Failed to update hero section");
      }
      heroes := heroes[1 := HeroRow(texts.value, url)];
      reply := Ok(heroes[1]);
    }

    /**
     * POST (hero settings): update the first hero row with the form entries; an uploaded
     * video replaces the stored one through a temporary file and the transcoder.
     */
    method PostHeroSettings(form: Form, tempNow: nat, finalNow: nat, io: VideoIo) returns (reply: Reply<HeroRow>)
      requires Valid()
      modifies this
      ensures Valid()
      ensures Snapshot() == old(Snapshot()).(heroes := heroes, files := files)
      ensures old(heroes) == map[] ==> reply == Error(404, "Hero section not found") && Snapshot() == old(Snapshot())
      ensures old(heroes) != map[] ==>
        var id := Ordering.FirstId(old(heroes).Keys);
        var current := old(heroes)[id].backgroundVideo;
        var r := if "backgroundVideo" in form.files
                 then ReplaceVideo(old(files), current, TempVideoPath(tempNow), CompressedVideoPath(finalNow), io)
                 else Replacement(old(files), current, true);
        && files == r.files
        && if r.ok && HeroColumns(form).Some? then
             var row := HeroRow(HeroColumns(form).value, r.stored);
             reply == Ok(row) && heroes == old(heroes)[id := row]
           else
             reply == Error(500, HeroFailure) && heroes == old(heroes)
    {
      if heroes == map[] {
        return Error(404, "Hero section not found");
      }
      var id := Ordering.FirstId(heroes.Keys);
      var existing := heroes[id];
      var texts := HeroColumns(form);
      var video := existing.backgroundVideo;
      if "backgroundVideo" in form.files {
        var temp := TempVideoPath(tempNow);
        var final := CompressedVideoPath(finalNow);
        if !io.writeOk {
          return Error(500, HeroFailure);
        }
        files := files + {temp};
        if io.compressOk && io.removeTempOk {
          files := files + {final};
          files := files - {temp};
          video := Some(final);
          if Truthy(existing.backgroundVideo) && io.removeOldOk {
            files := files - {existing.backgroundVideo.value};
          }
        } else {
          if io.compressOk {
            files := files + {final};
          }
          if io.retryRemoveTempOk {
            files := files - {temp};
          }
          return Error(500, HeroFailure);
        }
      }
      if texts.None? {
        return Error(500, HeroFailure);
      }
      heroes := heroes[id := HeroRow(texts.value, video)];
      reply := Ok(heroes[id]);
    }

    // ----- site settings -----

    /** GET (public): the first settings row, or the built-in branding. */
    method GetSiteSettings() returns (body: SiteSettingsBody)
      ensures siteSettings == map[] ==> body == Defaults(None, DefaultCompanyName)
      ensures siteSettings != map[] ==> body == Stored(siteSettings[Ordering.FirstId(siteSettings.Keys)])
    {
      if siteSettings == map[] {
        body := Defaults(None, DefaultCompanyName);
      } else {
        body := Stored(siteSettings[Ordering.FirstId(siteSettings.Keys)]);
      }
    }

    /**
     * `upsert` on id 1: overwrite row 1 when it exists; otherwise `create`, which names no
     * id, so the row takes the next auto-increment id.
     */
    method UpsertSiteSettings(row: SiteSettingsRow)
      requires Valid()
      modifies this
      ensures Valid()
      ensures Snapshot() == old(Snapshot()).(siteSettings := siteSettings, nextSettingsId := nextSettingsId)
      ensures 1 in old(siteSettings) ==>
        siteSettings == old(siteSettings)[1 := row] && nextSettingsId == old(nextSettingsId)
      ensures 1 !in old(siteSettings) ==>
        && old(nextSettingsId) !in old(siteSettings)
        && siteSettings == old(siteSettings)[old(nextSettingsId) := row]
        && nextSettingsId == old(nextSettingsId) + 1
    {
      if 1 in siteSettings {
        siteSettings := siteSettings[1 := row];
      } else {
        siteSettings := siteSettings[nextSettingsId := row];
        nextSettingsId := nextSettingsId + 1;
      }
    }

    /** `update` of an existing settings row. */
    method UpdateSiteSettings(id: int, row: SiteSettingsRow)
      requires Valid() && id in siteSettings
      modifies this
      ensures Valid()
      ensures Snapshot() == old(Snapshot()).(siteSettings := old(siteSettings)[id := row])
    {
      siteSettings := siteSettings[id := row];
    }

    /**
     * PUT (public): upload the logo, then upsert on id 1 with the logo URL and company name.
     * The `create` branch names no id, so a missing row 1 is created under the next
     * auto-increment id.
     */
    method PutSiteSettings(form: Form, now: nat, writeOk: bool) returns (reply: Reply<SiteSettingsRow>)
      requires Valid()
      modifies this
      ensures Valid()
      ensures Snapshot() == old(Snapshot()).(siteSettings := siteSettings, files := files, nextSettingsId := nextSettingsId)
      ensures "logo" in form.files && !writeOk ==>
        reply == Error(500, "Failed to update site settings")
        && siteSettings == old(siteSettings) && files == old(files) && nextSettingsId == old(nextSettingsId)
      ensures !("logo" in form.files && !writeOk) ==>
        var logoUrl := if "logo" in form.files then Some(LogoPath(now, form.files["logo"].name)) else None;
        var row := SiteSettingsAfterPut(Lookup(old(siteSettings), 1), logoUrl, Get(form, "companyName"));
        var id := if 1 in old(siteSettings) then 1 else old(nextSettingsId);
        && reply == Ok(row)
        && siteSettings == old(siteSettings)[id := row]
        && nextSettingsId == (if 1 in old(siteSettings) then old(nextSettingsId) else old(nextSettingsId) + 1)
        && files == old(files) + (if logoUrl.Some? then {logoUrl.value} else {})
    {
      var logo := FileOf(form, "logo");
      var companyName := Get(form, "companyName");
      var logoUrl := None;
      if logo.Some? {
        if !writeOk {
          return Error(500, "Failed to update site settings");
        }
        var path := LogoPath(now, logo.value.name);
        files := files + {path};
        logoUrl := Some(path);
      }
      var row := SiteSettingsAfterPut(Lookup(siteSettings, 1), logoUrl, companyName);
      UpsertSiteSettings(row);
      reply := Ok(row);
    }

    /** GET (admin): the first settings row, or 404. */
    method GetAdminSiteSettings() returns (reply: Reply<SiteSettingsRow>)
      ensures siteSettings == map[] ==> reply == Error(404, "Site settings not found")
      ensures siteSettings != map[] ==> reply == Ok(siteSettings[Ordering.FirstId(siteSettings.Keys)])
    {
      if siteSettings == map[] {
        reply := Error(404, "Site settings not found");
      } else {
        reply := Ok(siteSettings[Ordering.FirstId(siteSettings.Keys)]);
      }
    }

    /** POST (admin): replace the logo of the first settings row. */
    method PostAdminSiteSettings(form: Form, now: nat, io: LogoIo) returns (reply: Reply<SiteSettingsRow>)
      requires Valid()
      modifies this
      ensures Valid()
      ensures Snapshot() == old(Snapshot()).(siteSettings := siteSettings, files := files)
      ensures old(siteSettings) == map[] ==>
        reply == Error(404, "Site settings not found") && siteSettings == old(siteSettings) && files == old(files)
      ensures old(siteSettings) != map[] && "logo" !in form.files ==>
        reply == Ok(old(siteSettings)[Ordering.FirstId(old(siteSettings).Keys)])
        && siteSettings == old(siteSettings) && files == old(files)
      ensures old(siteSettings) != map[] && "logo" in form.files ==>
        var id := Ordering.FirstId(old(siteSettings).Keys);
        var existing := old(siteSettings)[id];
        var r := ReplaceLogo(old(files), existing.logo, LogoPath(now, form.files["logo"].name), io);
        && files == r.files
        && if r.ok then
             reply == Ok(existing.(logo := r.stored)) && siteSettings == old(siteSettings)[id := existing.(logo := r.stored)]
           else
             reply == Error(500, "Failed to update site settings") && siteSettings == old(siteSettings)
    {
      if siteSettings == map[] {
        return Error(404, "Site settings not found");
      }
      var id := Ordering.FirstId(siteSettings.Keys);
      var existing := siteSettings[id];
      var logo := FileOf(form, "logo");
      if logo.None? {
        return Ok(existing);
      }
      if !io.mkdirOk {
        return Error(500, "Failed to update site settings");
      }
      files := files - Removed(existing.logo, io.removeOldOk);
      var path := LogoPath(now, logo.value.name);
      if !io.writeOk {
        return Error(500, "Failed to update site settings");
      }
      files := files + {path};
      UpdateSiteSettings(id, existing.(logo := Some(path)));
      reply := Ok(siteSettings[id]);
    }

    // ----- footer -----

    /**
     * PUT: behind the session gate, overwrite the address and social columns of row 1,
     * delete its phones and create the payload phones one by one.
     */
    method PutFooter(hasSession: bool, payload: FooterPayload) returns (reply: Reply<bool>)
      requires Valid()
      modifies this
      ensures Valid()
      ensures !hasSession ==> reply == Error(401, "Unauthorized") && Snapshot() == old(Snapshot())
      ensures hasSession && 1 !in old(siteSettings) ==>
        reply == Error(500, "Failed to update footer settings") && Snapshot() == old(Snapshot())
      ensures hasSession && 1 in old(siteSettings) ==>
        var settings := old(siteSettings)[1 := FooterRow(old(siteSettings)[1], payload)];
        var cleared := Unlinked(old(phones), 1);
        if payload.phones.None? then
          reply == Error(500, "Failed to update footer settings")
          && Snapshot() == old(Snapshot()).(siteSettings := settings, phones := cleared)
        else
          reply == Ok(true)
          && Snapshot() == old(Snapshot()).(siteSettings := settings,
               phones := cleared + Created(payload.phones.value, old(nextPhoneId), 1),
               nextPhoneId := old(nextPhoneId) + |payload.phones.value|)
    {
      if !hasSession {
        return Error(401, "Unauthorized");
      }
      if 1 !in siteSettings {
        return Error(500, "Failed to update footer settings");
      }
      siteSettings := siteSettings[1 := FooterRow(siteSettings[1], payload)];
      phones := Unlinked(phones, 1);
      if payload.phones.None? {
        return Error(500, "Failed to update footer settings");
      }
      CreatePhones(payload.phones.value, 1);
      reply := Ok(true);
    }

    /** `phone.create` for each payload entry in order, linked to the given settings row. */
    method CreatePhones(ps: seq<PhoneInput>, settingsId: int)
      requires Valid()
      modifies this
      ensures Valid()
      ensures Snapshot() == old(Snapshot()).(phones := old(phones) + Created(ps, old(nextPhoneId), settingsId),
                                             nextPhoneId := old(nextPhoneId) + |ps|)
    {
      var start := nextPhoneId;
      var i := 0;
      while i < |ps|
        invariant 0 <= i <= |ps|
        invariant nextPhoneId == start + i
        invariant phones == old(phones) + Created(ps[..i], start, settingsId)
        invariant Snapshot() == old(Snapshot()).(phones := phones, nextPhoneId := nextPhoneId)
      {
        CreateOneMore(old(phones), ps, i, start, settingsId);
        phones := phones[nextPhoneId := PhoneFrom(ps[i], settingsId)];
        nextPhoneId := nextPhoneId + 1;
        i := i + 1;
      }
      assert ps[..|ps|] == ps;
      CreatedBound(old(phones), ps, start, settingsId);
      assert products == old(products) && news == old(news);
    }

    /** GET: the first settings row with its phones, or 404. */
    method GetFooter() returns (reply: Reply<FooterBody>)
      ensures siteSettings == map[] ==> reply == Error(404, "Settings not found")
      ensures siteSettings != map[] ==>
        var id := Ordering.FirstId(siteSettings.Keys);
        reply == Ok(FooterBody(siteSettings[id], Linked(phones, id)))
    {
      if siteSettings == map[] {
        reply := Error(404, "Settings not found");
      } else {
        var id := Ordering.FirstId(siteSettings.Keys);
        reply := Ok(FooterBody(siteSettings[id], Linked(phones, id)));
      }
    }

    // ----- stats -----

    /** GET: every stat row. */
    method GetStats() returns (rows: map<int, StatRow>)
      ensures rows == stats
    {
      rows := stats;
    }

    /**
     * PUT: update each listed stat in one transaction; a missing id or a missing list
     * fails the whole request and changes nothing.
     */
    method PutStats(list: Option<seq<StatInput>>) returns (reply: Reply<string>)
      requires Valid()
      modifies this
      ensures Valid()
      ensures list.Some? && AllListed(old(stats), list.value) ==>
        reply == Ok("Stats updated successfully")
        && Snapshot() == old(Snapshot()).(stats := ApplyStats(old(stats), list.value))
      ensures !(list.Some? && AllListed(old(stats), list.value)) ==>
        reply == Error(500, "Failed to update stats") && Snapshot() == old(Snapshot())
    {
      if list.None? {
        return Error(500, "Failed to update stats");
      }
      var updates := list.value;
      var staged := stats;
      var i := 0;
      while i < |updates|
        invariant 0 <= i <= |updates|
        invariant AllListed(stats, updates[..i])
        invariant staged == ApplyStats(stats, updates[..i])
        invariant Snapshot() == old(Snapshot())
      {
        ApplyStatsKeys(stats, updates[..i]);
        if updates[i].id !in staged {
          assert !AllListed(stats, updates);
          return Error(500, "Failed to update stats");
        }
        assert updates[..i + 1][..i] == updates[..i];
        staged := staged[updates[i].id := StatRowOf(updates[i])];
        i := i + 1;
      }
      assert updates[..|updates|] == updates;
      stats := staged;
      reply := Ok("Stats updated successfully");
    }

    // ----- products -----

    /** GET (public and admin): every product, newest first. */
    method GetProducts() returns (list: seq<Keyed<ProductRow>>)
      ensures |list| == |products|
      ensures forall i :: 0 <= i < |list| ==> list[i].id in products && list[i].row == products[list[i].id]
      ensures forall id :: id in products ==> exists i :: 0 <= i < |list| && list[i].id == id
      ensures forall i, j :: 0 <= i < j < |list| ==> list[i].id != list[j].id && list[i].row.createdAt >= list[j].row.createdAt
    {
      var table := products;
      var createdAt := map id | id in table :: table[id].createdAt;
      list := NewestFirst(table, createdAt);
    }

    /** POST (public): store a positive-size image, then create the product. */
    method PostProduct(form: Form, now: nat, createdAt: int, writeOk: bool) returns (reply: Reply<Keyed<ProductRow>>)
      requires Valid()
      modifies this
      ensures Valid()
      ensures var url := ProductImageUrl(form, now);
        if url.Some? && !writeOk then
          reply == Error(500, "Failed to create product") && Snapshot() == old(Snapshot())
        else
          var files' := old(files) + (if url.Some? then {url.value} else {});
          match PublicProductRow(form, url, createdAt)
          case None =>
            reply == Error(500, "Failed to create product") && Snapshot() == old(Snapshot()).(files := files')
          case Some(row) =>
            reply == Ok(Keyed(old(nextProductId), row))
            && Snapshot() == old(Snapshot()).(files := files', products := old(products)[old(nextProductId) := row],
                                              nextProductId := old(nextProductId) + 1)
    {
      var url := ProductImageUrl(form, now);
      if url.Some? {
        if !writeOk {
          return Error(500, "Failed to create product");
        }
        files := files + {url.value};
      }
      var row := PublicProductRow(form, url, createdAt);
      if row.None? {
        return Error(500, "Failed to create product");
      }
      reply := Ok(Keyed(nextProductId, row.value));
      products := products[nextProductId := row.value];
      nextProductId := nextProductId + 1;
    }

    /** POST (admin): store any given image under /uploads, then create the product. */
    method PostAdminProduct(form: Form, now: nat, createdAt: int, writeOk: bool) returns (reply: Reply<Keyed<ProductRow>>)
      requires Valid()
      modifies this
      ensures Valid()
      ensures var url := UploadUrl(form, now);
        if url.Some? && !writeOk then
          reply == Error(500, "Failed to create product") && Snapshot() == old(Snapshot())
        else
          var files' := old(files) + (if url.Some? then {url.value} else {});
          match AdminProductRow(form, url, createdAt)
          case None =>
            reply == Error(500, "Failed to create product") && Snapshot() == old(Snapshot()).(files := files')
          case Some(row) =>
            reply == Ok(Keyed(old(nextProductId), row))
            && Snapshot() == old(Snapshot()).(files := files', products := old(products)[old(nextProductId) := row],
                                              nextProductId := old(nextProductId) + 1)
    {
      var url := UploadUrl(form, now);
      if url.Some? {
        if !writeOk {
          return Error(500, "Failed to create product");
        }
        files := files + {url.value};
      }
      var row := AdminProductRow(form, url, createdAt);
      if row.None? {
        return Error(500, "Failed to create product");
      }
      reply := Ok(Keyed(nextProductId, row.value));
      products := products[nextProductId := row.value];
      nextProductId := nextProductId + 1;
    }

    // ----- news -----

    /** POST: behind the session gate, store any given image, then create the news row. */
    method PostNews(hasSession: bool, form: Form, now: nat, createdAt: int, writeOk: bool) returns (reply: Reply<Keyed<NewsRow>>)
      requires Valid()
      modifies this
      ensures Valid()
      ensures !hasSession ==> reply == Error(401, "Unauthorized") && Snapshot() == old(Snapshot())
      ensures hasSession ==>
        var url := UploadUrl(form, now);
        if url.Some? && !writeOk then
          reply == Error(500, "Failed to create news") && Snapshot() == old(Snapshot())
        else
          var files' := old(files) + (if url.Some? then {url.value} else {});
          match NewsRowOf(form, url, createdAt)
          case None =>
            reply == Error(500, "Failed to create news") && Snapshot() == old(Snapshot()).(files := files')
          case Some(row) =>
            reply == Ok(Keyed(old(nextNewsId), row))
            && Snapshot() == old(Snapshot()).(files := files', news := old(news)[old(nextNewsId) := row],
                                              nextNewsId := old(nextNewsId) + 1)
    {
      if !hasSession {
        return Error(401, "Unauthorized");
      }
      var url := UploadUrl(form, now);
      if url.Some? {
        if !writeOk {
          return Error(500, "Failed to create news");
        }
        files := files + {url.value};
      }
      var row := NewsRowOf(form, url, createdAt);
      if row.None? {
        return Error(500, "Failed to create news");
      }
      reply := Ok(Keyed(nextNewsId, row.value));
      news := news[nextNewsId := row.value];
      nextNewsId := nextNewsId + 1;
    }

    /** GET: every news item, newest first. */
    method GetNews() returns (list: seq<Keyed<NewsRow>>)
      ensures |list| == |news|
      ensures forall i :: 0 <= i < |list| ==> list[i].id in news && list[i].row == news[list[i].id]
      ensures forall id :: id in news ==> exists i :: 0 <= i < |list| && list[i].id == id
      ensures forall i, j :: 0 <= i < j < |list| ==> list[i].id != list[j].id && list[i].row.createdAt >= list[j].row.createdAt
    {
      var table := news;
      var createdAt := map id | id in table :: table[id].createdAt;
      list := NewestFirst(table, createdAt);
    }
  }
}
