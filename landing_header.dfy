/**
 * The landing page header: the language switcher's path rewrite, the logo source
 * normalisation and brand fallback, the language label map, and the component state
 * (language menu, scroll flag, fetched site settings).
 */
module LandingHeader {
  import opened Wrappers
  import opened Text
  import Locale

  /** `LANGUAGES`: the label shown for each route language. */
  const Languages: map<string, string> := map["uz" := "UZ", "ru" := "RU", "en" := "EN"]

  /** `(params?.lang as Language) || 'uz'` */
  function CurrentLang(param: Option<string>): string {
    Locale.RouteLang(param, "uz")
  }

  /** `LANGUAGES[currentLang]`; `undefined` (None) for a code outside the map. */
  function LanguageLabel(code: string): (r: Option<string>)
    ensures r.Some? <==> code in Locale.Codes
  {
    if code in Languages then Some(Languages[code]) else None
  }

  /** The label map covers the three languages, each with its upper-cased code. */
  lemma LanguageLabelsTotal(l: Locale.Lang)
    ensures LanguageLabel(Locale.Code(l)) == Some(if l.En? then "EN" else if l.Ru? then "RU" else "UZ")
  {
  }

  /** Without a route parameter the header shows Uzbek. */
  lemma CurrentLangDefault()
    ensures CurrentLang(None) == "uz" && CurrentLang(Some("")) == "uz"
    ensures LanguageLabel(CurrentLang(None)) == Some("UZ")
  {
  }

  /** `pathname.split('/').slice(2).join('/')`: everything after the first path segment. */
  function PathWithoutLang(pathname: string): string {
    var parts := Split(pathname, '/');
    Join(if |parts| >= 2 then parts[2..] else [], '/')
  }

  /** The path `switchLanguage` pushes: the new language followed by the rest of the path. */
  function SwitchPath(pathname: string, lang: Locale.Lang): string {
    var rest := PathWithoutLang(pathname);
    "/" + Locale.Code(lang) + (if rest != "" then "/" + rest else "")
  }

  /** The first segment is dropped and everything after it is kept: `/ru/a/b` becomes `/en/a/b`. */
  lemma {:induction false} SwitchKeepsRest(segment: string, rest: string, lang: Locale.Lang)
    requires '/' !in segment
    ensures SwitchPath("/" + segment + "/" + rest, lang)
         == "/" + Locale.Code(lang) + (if rest != "" then "/" + rest else "")
  {
    var p := "/" + segment + "/" + rest;
    assert p == "" + ['/'] + (segment + "/" + rest);
    SplitFirst("", '/', segment + "/" + rest);
    assert segment + "/" + rest == segment + ['/'] + rest;
    SplitFirst(segment, '/', rest);
    assert Split(p, '/')[2..] == Split(rest, '/');
    JoinSplit(rest, '/');
  }

  /** A path of one segment switches to exactly `"/" + lang`. */
  lemma {:induction false} SwitchSingleSegment(segment: string, lang: Locale.Lang)
    requires '/' !in segment
    ensures SwitchPath("/" + segment, lang) == "/" + Locale.Code(lang)
  {
    var p := "/" + segment;
    assert p == "" + ['/'] + segment;
    SplitFirst("", '/', segment);
    SplitNoSep(segment, '/');
    assert Split(p, '/') == ["", segment];
  }

  /** The new path always begins with `"/" + lang`. */
  lemma SwitchStartsWithLang(pathname: string, lang: Locale.Lang)
    ensures StartsWith(SwitchPath(pathname, lang), "/" + Locale.Code(lang))
  {
    var rest := PathWithoutLang(pathname);
    StartsWithConcat("/" + Locale.Code(lang), if rest != "" then "/" + rest else "");
  }

  /** Switching twice is the same as switching once to the final language. */
  lemma {:induction false} SwitchTwice(pathname: string, a: Locale.Lang, b: Locale.Lang)
    ensures SwitchPath(SwitchPath(pathname, a), b) == SwitchPath(pathname, b)
  {
    var rest := PathWithoutLang(pathname);
    assert '/' !in Locale.Code(a);
    if rest != "" {
      assert SwitchPath(pathname, a) == "/" + Locale.Code(a) + "/" + rest;
      SwitchKeepsRest(Locale.Code(a), rest, b);
    } else {
      assert SwitchPath(pathname, a) == "/" + Locale.Code(a);
      SwitchSingleSegment(Locale.Code(a), b);
    }
  }

  /** `settings.logo.startsWith('/') ? settings.logo : `/${settings.logo}`` */
  function LogoSrc(logo: string): (src: string)
    ensures StartsWith(src, "/")
    ensures StartsWith(logo, "/") ==> src == logo
    ensures !StartsWith(logo, "/") ==> src == "/" + logo
  {
    if StartsWith(logo, "/") then logo else "/" + logo
  }

  /** Normalising a logo source twice changes nothing more. */
  lemma LogoSrcIdempotent(logo: string)
    ensures LogoSrc(LogoSrc(logo)) == LogoSrc(logo)
  {
  }

  /** The site settings the header fetches (`/api/site-settings`). */
  datatype SiteSettingsView = SiteSettingsView(logo: Option<string>, companyName: Option<string>)

  /** What the header's home link shows. */
  datatype Brand = LogoImage(src: string, alt: string) | BrandText(text: string)

  predicate Truthy(s: Option<string>) {
    s.Some? && s.value != ""
  }

  /** `settings?.logo ? <img …> : <span>Jomboy don</span>` */
  function BrandOf(settings: Option<SiteSettingsView>): (b: Brand)
    ensures b.BrandText? <==> settings.None? || !Truthy(settings.value.logo)
    ensures b.BrandText? ==> b.text == "Jomboy don"
    ensures b.LogoImage? ==> b.src == LogoSrc(settings.value.logo.value) && StartsWith(b.src, "/")
    ensures b.LogoImage? ==> b.alt == if Truthy(settings.value.companyName)
                                      then settings.value.companyName.value else "Company Logo"
  {
    if settings.Some? && Truthy(settings.value.logo) then
      LogoImage(LogoSrc(settings.value.logo.value),
                if Truthy(settings.value.companyName) then settings.value.companyName.value else "Company Logo")
    else BrandText("Jomboy don")
  }

  /** The header component's state (`useState` hooks) and its setters. */
  class HeaderState {
    var isScrolled: bool
    var settings: Option<SiteSettingsView>
    var isLangMenuOpen: bool

    constructor ()
      ensures !isScrolled && settings.None? && !isLangMenuOpen
    {
      isScrolled := false;
      settings := None;
      isLangMenuOpen := false;
    }

    /** The language button: `setIsLangMenuOpen(!isLangMenuOpen)`. */
    method ToggleLangMenu()
      modifies this
      ensures isLangMenuOpen == !old(isLangMenuOpen)
      ensures isScrolled == old(isScrolled) && settings == old(settings)
    {
      isLangMenuOpen := !isLangMenuOpen;
    }

    /** `switchLanguage`: returns the path pushed to the router and closes the menu. */
    method SwitchLanguage(pathname: string, lang: Locale.Lang) returns (pushed: string)
      modifies this
      ensures pushed == SwitchPath(pathname, lang)
      ensures !isLangMenuOpen
      ensures isScrolled == old(isScrolled) && settings == old(settings)
    {
      pushed := SwitchPath(pathname, lang);
      isLangMenuOpen := false;
    }

    /** The scroll listener: `setIsScrolled(window.scrollY > 50)`. */
    method OnScroll(scrollY: int)
      modifies this
      ensures isScrolled == (scrollY > 50)
      ensures isLangMenuOpen == old(isLangMenuOpen) && settings == old(settings)
    {
      isScrolled := scrollY > 50;
    }

    /** `fetchSiteSettings`: a successful fetch stores the data; a failed one is only logged. */
    method OnSettingsFetched(result: Option<SiteSettingsView>)
      modifies this
      ensures settings == if result.Some? then result else old(settings)
      ensures isScrolled == old(isScrolled) && isLangMenuOpen == old(isLangMenuOpen)
    {
      if result.Some? {
        settings := result;
      }
    }
  }
}
