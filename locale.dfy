/**
 * The three site languages and the two ways the sections turn a route language code
 * into one of three parallel columns.
 */
module Locale {
  import opened Wrappers

  datatype Lang = En | Ru | Uz

  /** The code used in URLs and as object key. */
  function Code(l: Lang): string {
    match l
    case En => "en"
    case Ru => "ru"
    case Uz => "uz"
  }

  /** The supported codes in the order the request middleware lists them. */
  const Codes: seq<string> := ["en", "ru", "uz"]

  /** Reads a code; anything other than the three supported codes is unsupported. */
  function Parse(s: string): (r: Option<Lang>)
    ensures r.Some? ==> Code(r.value) == s
    ensures r.None? ==> s !in Codes
  {
    if s == "en" then Some(En)
    else if s == "ru" then Some(Ru)
    else if s == "uz" then Some(Uz)
    else None
  }

  lemma ParseCode(l: Lang)
    ensures Parse(Code(l)) == Some(l)
    ensures Code(l) in Codes
  {
  }

  /** One translatable field: the default (English) column and the Russian and Uzbek columns. */
  datatype Localized<T> = Localized(en: T, ru: T, uz: T) {
    function At(l: Lang): T {
      match l
      case En => en
      case Ru => ru
      case Uz => uz
    }
  }

  /** `(params?.lang as Language) || default`: an absent or empty route parameter gives the default. */
  function RouteLang(param: Option<string>, default: string): (code: string)
    ensures param.Some? && param.value != "" ==> code == param.value
    ensures param.None? || param.value == "" ==> code == default
  {
    if param.Some? && param.value != "" then param.value else default
  }

  /**
   * The `switch (lang) { case 'ru': … case 'uz': … default: … }` projection:
   * a supported code selects its column, anything else (including an absent code
   * and "en") selects the default column.
   */
  function Pick<T>(code: Option<string>, t: Localized<T>): (r: T)
    ensures code.Some? && Parse(code.value).Some? ==> r == t.At(Parse(code.value).value)
    ensures code.None? || Parse(code.value).None? ==> r == t.en
  {
    if code == Some("ru") then t.ru
    else if code == Some("uz") then t.uz
    else t.en
  }

  /**
   * `content[lang]` on an object with keys en/ru/uz: the column of a supported code,
   * and `undefined` (None) for any other code, with no fallback.
   */
  function Index<T>(t: Localized<T>, code: string): (r: Option<T>)
    ensures r.Some? <==> Parse(code).Some?
    ensures r.Some? ==> r.value == t.At(Parse(code).value)
  {
    match Parse(code)
    case Some(l) => Some(t.At(l))
    case None => None
  }

  /** On a supported code the two projections agree; they differ only where Index has no value. */
  lemma PickIndexAgree<T>(t: Localized<T>, l: Lang)
    ensures Index(t, Code(l)) == Some(Pick(Some(Code(l)), t))
  {
    ParseCode(l);
  }
}
