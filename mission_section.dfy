/** The public mission section: image source normalisation and `content[lang]` texts. */
module MissionSection {
  import opened Wrappers
  import opened Text
  import Locale

  datatype MissionData = MissionData(
    title: Locale.Localized<string>,
    text: Locale.Localized<string>,
    image: Option<string>)

  /** The rendered card; `alt`, `title` and `text` are None where `content[lang]` is undefined. */
  datatype MissionView = MissionView(src: string, alt: Option<string>, title: Option<string>, text: Option<string>)

  /** `(params?.lang as Language) || 'en'` */
  function Lang(param: Option<string>): string {
    Locale.RouteLang(param, "en")
  }

  /**
   * The image source: an `http…` value is used as it is; any other value is served through
   * the `/api/images` proxy, with a "/" inserted when the value lacks one.
   */
  function ImageSrc(image: string): (src: string)
    ensures StartsWith(image, "http") ==> src == image
    ensures !StartsWith(image, "http") ==> StartsWith(src, "/api/images/")
    ensures !StartsWith(image, "http") && StartsWith(image, "/") ==> src == "/api/images" + image
    ensures !StartsWith(image, "http") && !StartsWith(image, "/") ==> src == "/api/images/" + image
  {
    if StartsWith(image, "http") then image
    else
      var path := if StartsWith(image, "/") then image else "/" + image;
      assert path == "/" + path[1..];
      StartsWithConcat("/api/images/", path[1..]);
      assert "/api/images" + path == "/api/images/" + path[1..];
      "/api/images" + path
  }

  /** `x` and `/x` are served from the same proxied source when `x` is neither `http…` nor `/…`. */
  lemma ImageSrcSlashInsensitive(x: string)
    requires !StartsWith(x, "http") && !StartsWith(x, "/")
    ensures ImageSrc(x) == ImageSrc("/" + x)
  {
    assert ("/" + x)[..1] == "/";
    assert !StartsWith("/" + x, "http") by {
      assert ("/" + x)[0] == '/';
    }
  }

  /** `if (!image) return null;` then the card with the localized title and text. */
  function Render(langParam: Option<string>, data: MissionData): (v: Option<MissionView>)
    ensures v.None? <==> data.image.None? || data.image.value == ""
    ensures v.Some? ==> v.value.src == ImageSrc(data.image.value)
    ensures v.Some? ==> v.value.alt == v.value.title == Locale.Index(data.title, Lang(langParam))
    ensures v.Some? ==> v.value.text == Locale.Index(data.text, Lang(langParam))
  {
    if data.image.None? || data.image.value == "" then None
    else
      var lang := Lang(langParam);
      Some(MissionView(ImageSrc(data.image.value), Locale.Index(data.title, lang),
                       Locale.Index(data.title, lang), Locale.Index(data.text, lang)))
  }

  /**
   * Texts come straight from `content[lang]`: the matching column for a supported code,
   * English when the parameter is absent, and nothing (no fallback) for any other code.
   */
  lemma RenderTexts(langParam: Option<string>, data: MissionData)
    requires data.image.Some? && data.image.value != ""
    ensures langParam.None? ==> Render(langParam, data).value.title == Some(data.title.en)
    ensures langParam.Some? && langParam.value == "ru" ==> Render(langParam, data).value.text == Some(data.text.ru)
    ensures langParam.Some? && langParam.value != "" && Locale.Parse(langParam.value).None?
            ==> Render(langParam, data).value.title.None? && Render(langParam, data).value.text.None?
  {
  }
}
