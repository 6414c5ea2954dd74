/** The public footer: `getLocalizedContent` with an empty-string fallback, phones and social icons. */
module FooterSection {
  import opened Wrappers
  import Locale

  /** A phone as the page passes it; `description` is absent when the stored description is empty. */
  datatype PhoneData = PhoneData(
    id: string,
    number: string,
    department: Locale.Localized<string>,
    description: Option<Locale.Localized<Option<string>>>)

  datatype SocialLinks = SocialLinks(
    instagram: Option<string>, telegram: Option<string>, youtube: Option<string>, facebook: Option<string>)

  datatype FooterData = FooterData(address: Locale.Localized<string>, phones: seq<PhoneData>, socialLinks: SocialLinks)

  datatype PhoneView = PhoneView(department: string, number: string, href: string, description: Option<string>)

  datatype Network = Instagram | Telegram | Youtube | Facebook

  datatype SocialIcon = SocialIcon(network: Network, href: string)

  datatype FooterView = FooterView(phones: seq<PhoneView>, address: string, icons: seq<SocialIcon>)

  /** `(params?.lang as Language) || 'en'` */
  function Lang(param: Option<string>): string {
    Locale.RouteLang(param, "en")
  }

  /** Lifts a column of plain strings to the nullable form `getLocalizedContent` accepts. */
  function Nullable(t: Locale.Localized<string>): Locale.Localized<Option<string>> {
    Locale.Localized(Some(t.en), Some(t.ru), Some(t.uz))
  }

  /**
   * `getLocalizedContent`: "" for undefined content; otherwise `content[lang] || ''`, the
   * selected entry when it is present and non-empty, and "" otherwise (no other locale is tried).
   */
  function LocalizedText(content: Option<Locale.Localized<Option<string>>>, lang: string): (r: string)
    ensures content.None? ==> r == ""
    ensures content.Some? && Locale.Parse(lang).Some? ==>
      var v := content.value.At(Locale.Parse(lang).value);
      r == if v.Some? then v.value else ""
    ensures Locale.Parse(lang).None? ==> r == ""
  {
    if content.None? then ""
    else
      var entry: Option<Option<string>> := Locale.Index(content.value, lang);
      if entry.Some? && entry.value.Some? && entry.value.value != "" then entry.value.value else ""
  }

  /** A present, non-empty entry is returned as it is; an empty or missing entry gives "", never another locale's text. */
  lemma LocalizedTextNoFallback(t: Locale.Localized<Option<string>>, l: Locale.Lang)
    ensures t.At(l).Some? && t.At(l).value != "" ==> LocalizedText(Some(t), Locale.Code(l)) == t.At(l).value
    ensures t.At(l).None? || t.At(l).value == "" ==> LocalizedText(Some(t), Locale.Code(l)) == ""
  {
    Locale.ParseCode(l);
  }

  /** One contact block: department, `tel:` link, and a description only when one is present. */
  function PhoneViewOf(lang: string, p: PhoneData): (v: PhoneView)
    ensures v.number == p.number && v.href == "tel:" + p.number
    ensures v.department == LocalizedText(Some(Nullable(p.department)), lang)
    ensures v.description.Some? <==> p.description.Some?
    ensures v.description.Some? ==> v.description.value == LocalizedText(p.description, lang)
  {
    PhoneView(LocalizedText(Some(Nullable(p.department)), lang), p.number, "tel:" + p.number,
              if p.description.Some? then Some(LocalizedText(p.description, lang)) else None)
  }

  /** `phones.map(...)`: one block per phone, in order. */
  function PhoneViews(lang: string, phones: seq<PhoneData>): (vs: seq<PhoneView>)
    ensures |vs| == |phones|
    ensures forall i :: 0 <= i < |phones| ==> vs[i] == PhoneViewOf(lang, phones[i])
  {
    if phones == [] then [] else [PhoneViewOf(lang, phones[0])] + PhoneViews(lang, phones[1..])
  }

  predicate Truthy(link: Option<string>) {
    link.Some? && link.value != ""
  }

  /** The icon for one network, present exactly when its link is truthy. */
  function IconFor(network: Network, link: Option<string>): (r: seq<SocialIcon>)
    ensures |r| == if Truthy(link) then 1 else 0
    ensures Truthy(link) ==> r[0] == SocialIcon(network, link.value)
  {
    if Truthy(link) then [SocialIcon(network, link.value)] else []
  }

  /** Instagram, Telegram, YouTube and Facebook icons, in that order, each only for a truthy link. */
  /** The link a network's icon points to. */
  function LinkOf(links: SocialLinks, network: Network): Option<string> {
    match network
    case Instagram => links.instagram
    case Telegram => links.telegram
    case Youtube => links.youtube
    case Facebook => links.facebook
  }

  /** The position of a network in the footer's icon row. */
  function Rank(network: Network): nat {
    match network
    case Instagram => 0
    case Telegram => 1
    case Youtube => 2
    case Facebook => 3
  }

  function Icons(links: SocialLinks): (icons: seq<SocialIcon>)
    ensures |icons| <= 4
    ensures forall i :: 0 <= i < |icons| ==> icons[i].href != ""
    ensures forall i :: 0 <= i < |icons| ==> LinkOf(links, icons[i].network) == Some(icons[i].href)
    ensures forall i, j :: 0 <= i < j < |icons| ==> Rank(icons[i].network) < Rank(icons[j].network)
  {
    IconFor(Instagram, links.instagram) + IconFor(Telegram, links.telegram)
      + IconFor(Youtube, links.youtube) + IconFor(Facebook, links.facebook)
  }

  /** Each network's icon is rendered iff its link is truthy. */
  lemma IconsIffTruthy(links: SocialLinks)
    ensures (exists i :: 0 <= i < |Icons(links)| && Icons(links)[i].network == Instagram) <==> Truthy(links.instagram)
    ensures (exists i :: 0 <= i < |Icons(links)| && Icons(links)[i].network == Telegram) <==> Truthy(links.telegram)
    ensures (exists i :: 0 <= i < |Icons(links)| && Icons(links)[i].network == Youtube) <==> Truthy(links.youtube)
    ensures (exists i :: 0 <= i < |Icons(links)| && Icons(links)[i].network == Facebook) <==> Truthy(links.facebook)
  {
    var a := IconFor(Instagram, links.instagram);
    var b := IconFor(Telegram, links.telegram);
    var c := IconFor(Youtube, links.youtube);
    var d := IconFor(Facebook, links.facebook);
    var all := Icons(links);
    assert all == a + b + c + d;
    assert Truthy(links.instagram) ==> all[0] == a[0];
    assert Truthy(links.telegram) ==> all[|a|] == b[0];
    assert Truthy(links.youtube) ==> all[|a| + |b|] == c[0];
    assert Truthy(links.facebook) ==> all[|a| + |b| + |c|] == d[0];
    forall i | 0 <= i < |all|
      ensures all[i].network == Instagram ==> Truthy(links.instagram)
      ensures all[i].network == Telegram ==> Truthy(links.telegram)
      ensures all[i].network == Youtube ==> Truthy(links.youtube)
      ensures all[i].network == Facebook ==> Truthy(links.facebook)
    {
      if i < |a| {
        assert all[i] == a[i];
      } else if i < |a| + |b| {
        assert all[i] == b[i - |a|];
      } else if i < |a| + |b| + |c| {
        assert all[i] == c[i - |a| - |b|];
      } else {
        assert all[i] == d[i - |a| - |b| - |c|];
      }
    }
  }

  function Render(langParam: Option<string>, data: FooterData): (v: FooterView)
    ensures v.phones == PhoneViews(Lang(langParam), data.phones)
    ensures v.address == LocalizedText(Some(Nullable(data.address)), Lang(langParam))
    ensures v.icons == Icons(data.socialLinks)
  {
    var lang := Lang(langParam);
    FooterView(PhoneViews(lang, data.phones), LocalizedText(Some(Nullable(data.address)), lang), Icons(data.socialLinks))
  }
}
