/**
 * Rows of the content tables, the submitted forms and JSON bodies, and the replies the
 * API handlers send. Column names follow the database schema; a nullable column is an
 * `Option`.
 */
module Content {
  import opened Wrappers
  import opened Uploads

  /** The nine text columns of the hero section. */
  datatype HeroTexts = HeroTexts(
    title: string, titleRu: string, titleUz: string,
    subtitle: string, subtitleRu: string, subtitleUz: string,
    ctaText: string, ctaTextRu: string, ctaTextUz: string)

  datatype HeroRow = HeroRow(texts: HeroTexts, backgroundVideo: Option<string>)

  /** The six text columns of the mission section. */
  datatype MissionTexts = MissionTexts(
    title: string, titleRu: string, titleUz: string,
    text: string, textRu: string, textUz: string)

  datatype MissionRow = MissionRow(texts: MissionTexts, image: Option<string>)

  datatype SiteSettingsRow = SiteSettingsRow(
    companyName: string, logo: Option<string>,
    address: Option<string>, address_ru: Option<string>, address_uz: Option<string>,
    instagram: Option<string>, telegram: Option<string>, youtube: Option<string>, facebook: Option<string>)

  /** A phone number listed in the footer; `settingsId` links it to its site-settings row. */
  datatype PhoneRow = PhoneRow(
    number: string, department: string, department_ru: string, department_uz: string,
    description: Option<string>, description_ru: Option<string>, description_uz: Option<string>,
    settingsId: int)

  /** A stat row; `labelEn` is the `label` column. */
  datatype StatRow = StatRow(value: string, labelEn: string, labelRu: string, labelUz: string)

  /** The price as submitted; its floating-point parse is not modelled. */
  datatype Price = Price(submitted: Option<string>)

  datatype ProductRow = ProductRow(
    name: string, name_ru: string, name_uz: string,
    description: Option<string>, description_ru: Option<string>, description_uz: Option<string>,
    price: Price,
    category: string, category_ru: string, category_uz: string,
    imageUrl: Option<string>, createdAt: int)

  datatype NewsRow = NewsRow(
    title: string, title_ru: string, title_uz: string,
    content: string, content_ru: string, content_uz: string,
    imageUrl: Option<string>, createdAt: int)

  /** A row together with its id, as a list response carries it. */
  datatype Keyed<T> = Keyed(id: int, row: T)

  /** A multipart form: its text entries and its file entries. */
  datatype Form = Form(fields: map<string, string>, files: map<string, Upload>)

  /** `formData.get(key)` for a text entry; `None` is `null`. */
  function Get(form: Form, key: string): (r: Option<string>)
    ensures r.Some? <==> key in form.fields
    ensures r.Some? ==> r.value == form.fields[key]
  {
    if key in form.fields then Some(form.fields[key]) else None
  }

  /** `formData.get(key)?.toString() || fallback`: a missing or empty entry gives the fallback. */
  function TextOr(form: Form, key: string, fallback: string): (r: string)
    ensures key in form.fields && form.fields[key] != "" ==> r == form.fields[key]
    ensures key !in form.fields || form.fields[key] == "" ==> r == fallback
  {
    if key in form.fields && form.fields[key] != "" then form.fields[key] else fallback
  }

  /** `formData.get(key) as string || null`: a missing or empty entry is stored as null. */
  function TextOrNull(form: Form, key: string): (r: Option<string>)
    ensures r.Some? <==> key in form.fields && form.fields[key] != ""
    ensures r.Some? ==> r.value == form.fields[key]
  {
    if key in form.fields && form.fields[key] != "" then Some(form.fields[key]) else None
  }

  /** `formData.get(key) as File | null`. */
  function FileOf(form: Form, key: string): (r: Option<Upload>)
    ensures r.Some? <==> key in form.files
    ensures r.Some? ==> r.value == form.files[key]
  {
    if key in form.files then Some(form.files[key]) else None
  }

  /** A non-null, non-empty string: JavaScript truthiness of a string column. */
  predicate Truthy(s: Option<string>) {
    s.Some? && s.value != ""
  }

  /** A JSON response: a body, or an error status with its `error` message. */
  datatype Reply<T> = Ok(body: T) | Error(status: int, message: string)

  /** A JSON property as read by `data.x`: absent, `null`, or a string. */
  datatype JsonValue = Undefined | Null | Text(s: string)

  /**
   * Assigning a JSON property to a nullable column in an ORM update: `undefined` leaves the
   * column as it is, `null` clears it, a string sets it.
   */
  function Assign(column: Option<string>, v: JsonValue): (r: Option<string>)
    ensures v.Undefined? ==> r == column
    ensures v.Null? ==> r == None
    ensures v.Text? ==> r == Some(v.s)
  {
    match v
    case Undefined => column
    case Null => None
    case Text(s) => Some(s)
  }

  /** A phone in the footer PUT body; a description that is absent or `null` is `None`. */
  datatype PhoneInput = PhoneInput(
    number: string, department: string, department_ru: string, department_uz: string,
    description: Option<string>, description_ru: Option<string>, description_uz: Option<string>)

  /** The footer PUT body; `phones` is `None` when the property is missing. */
  datatype FooterPayload = FooterPayload(
    address: JsonValue, address_ru: JsonValue, address_uz: JsonValue,
    instagram: JsonValue, telegram: JsonValue, youtube: JsonValue, facebook: JsonValue,
    phones: Option<seq<PhoneInput>>)

  /** One entry of the stats PUT body. */
  datatype StatInput = StatInput(id: int, value: string, labelEn: string, labelRu: string, labelUz: string)
}
