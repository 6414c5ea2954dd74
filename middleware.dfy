/**
 * The request middleware: a request either passes through or is redirected to the same
 * path under a locale prefix.
 */
module Middleware {
  import opened Wrappers
  import opened Text
  import Locale

  datatype Decision = Pass | Redirect(pathname: string)

  /** Prefixes of static assets, API routes and the admin area, which are never rewritten. */
  const SkipPrefixes: seq<string> := ["/uploads/", "/api/", "/videos/", "/admin/"]

  const DefaultLocale: string := "uz"

  predicate Skipped(pathname: string) {
    || StartsWith(pathname, SkipPrefixes[0])
    || StartsWith(pathname, SkipPrefixes[1])
    || StartsWith(pathname, SkipPrefixes[2])
    || StartsWith(pathname, SkipPrefixes[3])
  }

  /** `pathname.startsWith('/<code>/') || pathname === '/<code>'` */
  predicate LocalePrefixed(pathname: string, code: string) {
    StartsWith(pathname, "/" + code + "/") || pathname == "/" + code
  }

  /** `locales.some(...)` over en, ru, uz. */
  predicate HasLocale(pathname: string) {
    exists i :: 0 <= i < |Locale.Codes| && LocalePrefixed(pathname, Locale.Codes[i])
  }

  /** `request.cookies.get('NEXT_LOCALE')?.value || defaultLocale` */
  function CookieLocale(cookie: Option<string>): (code: string)
    ensures code != ""
    ensures cookie.Some? && cookie.value != "" ==> code == cookie.value
    ensures cookie.None? || cookie.value == "" ==> code == DefaultLocale
  {
    if cookie.Some? && cookie.value != "" then cookie.value else DefaultLocale
  }

  /** The decision of `middleware` on the request's pathname and its `NEXT_LOCALE` cookie. */
  function Decide(pathname: string, cookie: Option<string>): (d: Decision)
    ensures d == Pass <==> Skipped(pathname) || HasLocale(pathname)
    ensures d.Redirect? ==> d.pathname == "/" + CookieLocale(cookie) + pathname
  {
    if Skipped(pathname) then Pass
    else if HasLocale(pathname) then Pass
    else Redirect("/" + CookieLocale(cookie) + pathname)
  }

  /** Every path under one of the four skipped prefixes passes through, whatever the cookie. */
  lemma SkippedPrefixPasses(i: nat, rest: string, cookie: Option<string>)
    requires i < |SkipPrefixes|
    ensures Decide(SkipPrefixes[i] + rest, cookie) == Pass
  {
    StartsWithConcat(SkipPrefixes[i], rest);
  }

  /** `/en`, `/ru`, `/uz` and everything below them pass through. */
  lemma LocalePathPasses(l: Locale.Lang, rest: string, cookie: Option<string>)
    ensures Decide("/" + Locale.Code(l), cookie) == Pass
    ensures Decide("/" + Locale.Code(l) + "/" + rest, cookie) == Pass
  {
    Locale.ParseCode(l);
    var i := if l.En? then 0 else if l.Ru? then 1 else 2;
    assert Locale.Codes[i] == Locale.Code(l);
    assert LocalePrefixed("/" + Locale.Code(l), Locale.Codes[i]);
    StartsWithConcat("/" + Locale.Code(l) + "/", rest);
    assert LocalePrefixed("/" + Locale.Code(l) + "/" + rest, Locale.Codes[i]);
  }

  /** Helper for concrete paths: a differing (or missing) character at index k rules out prefix p. */
  lemma NotPrefixAt(s: string, p: string, k: nat)
    requires k < |p| && (k >= |s| || s[k] != p[k])
    ensures !StartsWith(s, p)
  {
  }

  lemma NoLocalePrefix(s: string)
    requires !LocalePrefixed(s, "en") && !LocalePrefixed(s, "ru") && !LocalePrefixed(s, "uz")
    ensures !HasLocale(s)
  {
  }

  /**
   * A redirect changes the pathname only by a locale prefix: the target begins with
   * "/" and the locale, and the original pathname is its suffix.
   */
  lemma RedirectShape(pathname: string, cookie: Option<string>)
    requires Decide(pathname, cookie).Redirect?
    ensures var t := Decide(pathname, cookie).pathname;
      && StartsWith(t, "/" + CookieLocale(cookie))
      && |pathname| < |t|
      && t[|t| - |pathname|..] == pathname
  {
    var t := Decide(pathname, cookie).pathname;
    StartsWithConcat("/" + CookieLocale(cookie), pathname);
    assert t[|t| - |pathname|..] == pathname;
  }

  /**
   * No redirect loop: for a pathname that is empty or starts with "/", and a cookie that
   * is absent, empty or a supported code, the redirect target itself passes through.
   */
  lemma RedirectTargetPasses(pathname: string, cookie: Option<string>, cookie': Option<string>)
    requires pathname == "" || pathname[0] == '/'
    requires cookie.None? || cookie.value == "" || cookie.value in Locale.Codes
    requires Decide(pathname, cookie).Redirect?
    ensures Decide(Decide(pathname, cookie).pathname, cookie') == Pass
  {
    var code := CookieLocale(cookie);
    var t := "/" + code + pathname;
    var i :| 0 <= i < |Locale.Codes| && Locale.Codes[i] == code;
    if pathname == "" {
      assert t == "/" + code;
      assert LocalePrefixed(t, Locale.Codes[i]);
    } else {
      assert t == "/" + code + "/" + pathname[1..];
      StartsWithConcat("/" + code + "/", pathname[1..]);
      assert LocalePrefixed(t, Locale.Codes[i]);
    }
  }

  /** Look-alike prefixes are not locale prefixes. */
  lemma LookAlikesRedirect()
    ensures Decide("/english", None) == Redirect("/uz/english")
    ensures Decide("/uzb", None) == Redirect("/uz/uzb")
  {
    NotPrefixAt("/english", "/uploads/", 1);
    NotPrefixAt("/english", "/api/", 1);
    NotPrefixAt("/english", "/videos/", 1);
    NotPrefixAt("/english", "/admin/", 1);
    NotPrefixAt("/english", "/en/", 3);
    NotPrefixAt("/english", "/ru/", 1);
    NotPrefixAt("/english", "/uz/", 1);
    NoLocalePrefix("/english");
    NotPrefixAt("/uzb", "/uploads/", 2);
    NotPrefixAt("/uzb", "/api/", 1);
    NotPrefixAt("/uzb", "/videos/", 1);
    NotPrefixAt("/uzb", "/admin/", 1);
    NotPrefixAt("/uzb", "/en/", 1);
    NotPrefixAt("/uzb", "/ru/", 1);
    NotPrefixAt("/uzb", "/uz/", 3);
    NoLocalePrefix("/uzb");
  }

  /** The skip test needs the trailing slash: `/admin` and `/api` alone are redirected. */
  lemma SkipNeedsTrailingSlash()
    ensures Decide("/admin", None) == Redirect("/uz/admin")
    ensures Decide("/api", Some("ru")) == Redirect("/ru/api")
  {
    NotPrefixAt("/admin", "/uploads/", 1);
    NotPrefixAt("/admin", "/api/", 2);
    NotPrefixAt("/admin", "/videos/", 1);
    NotPrefixAt("/admin", "/admin/", 6);
    NotPrefixAt("/admin", "/en/", 1);
    NotPrefixAt("/admin", "/ru/", 1);
    NotPrefixAt("/admin", "/uz/", 1);
    NoLocalePrefix("/admin");
    NotPrefixAt("/api", "/uploads/", 1);
    NotPrefixAt("/api", "/api/", 4);
    NotPrefixAt("/api", "/videos/", 1);
    NotPrefixAt("/api", "/admin/", 2);
    NotPrefixAt("/api", "/en/", 1);
    NotPrefixAt("/api", "/ru/", 1);
    NotPrefixAt("/api", "/uz/", 1);
    NoLocalePrefix("/api");
  }

  /**
   * A path whose first segment starts with a letter that begins none of the skipped
   * prefixes and none of the locale codes is always redirected.
   */
  lemma OtherInitialRedirects(pathname: string, cookie: Option<string>)
    requires |pathname| >= 2 && pathname[1] !in "uavre"
    ensures Decide(pathname, cookie) == Redirect("/" + CookieLocale(cookie) + pathname)
  {
    NotPrefixAt(pathname, "/uploads/", 1);
    NotPrefixAt(pathname, "/api/", 1);
    NotPrefixAt(pathname, "/videos/", 1);
    NotPrefixAt(pathname, "/admin/", 1);
    NotPrefixAt(pathname, "/en/", 1);
    NotPrefixAt(pathname, "/ru/", 1);
    NotPrefixAt(pathname, "/uz/", 1);
    assert pathname != "/en" && pathname != "/ru" && pathname != "/uz" by {
      assert ("/en")[1] == 'e' && ("/ru")[1] == 'r' && ("/uz")[1] == 'u';
    }
    NoLocalePrefix(pathname);
  }

  /** A cookie holding an unsupported code produces a target that is redirected again. */
  lemma UnsupportedCookieRedirectsAgain()
    ensures Decide("/news", Some("fr")) == Redirect("/fr/news")
    ensures Decide("/fr/news", Some("fr")) == Redirect("/fr/fr/news")
  {
    OtherInitialRedirects("/news", Some("fr"));
    OtherInitialRedirects("/fr/news", Some("fr"));
  }
}
