/** The public news grid: `content[lang]` titles and texts, image or placeholder per item. */
module NewsSection {
  import opened Wrappers
  import Locale

  /** A news item as the page passes it (`createdAt` is only formatted for display). */
  datatype NewsItem = NewsItem(
    id: string, title: Locale.Localized<string>, content: Locale.Localized<string>, imageUrl: Option<string>)

  datatype CardImage = Image(src: string, alt: Option<string>) | Placeholder

  /** One card; the texts are None where `content[lang]` is undefined. */
  datatype Card = Card(image: CardImage, heading: Option<string>, text: Option<string>)

  /** `(params?.lang as Language) || 'en'` */
  function Lang(param: Option<string>): string {
    Locale.RouteLang(param, "en")
  }

  /** The image with the localized title as alt text, or the grey placeholder. */
  function CardOf(lang: string, item: NewsItem): (c: Card)
    ensures c.heading == Locale.Index(item.title, lang) && c.text == Locale.Index(item.content, lang)
    ensures c.image.Placeholder? <==> item.imageUrl.None? || item.imageUrl.value == ""
    ensures c.image.Image? ==> c.image.src == item.imageUrl.value && c.image.alt == c.heading
  {
    var title := Locale.Index(item.title, lang);
    Card(if item.imageUrl.Some? && item.imageUrl.value != "" then Image(item.imageUrl.value, title) else Placeholder,
         title, Locale.Index(item.content, lang))
  }

  /** `news.map(...)`: one card per item, in input order. */
  function Render(langParam: Option<string>, news: seq<NewsItem>): (cards: seq<Card>)
    ensures |cards| == |news|
    ensures forall i :: 0 <= i < |news| ==> cards[i] == CardOf(Lang(langParam), news[i])
  {
    if news == [] then [] else [CardOf(Lang(langParam), news[0])] + Render(langParam, news[1..])
  }

  /** An absent parameter shows English; an unsupported code shows no title or text at all. */
  lemma CardLanguage(item: NewsItem, code: string)
    ensures CardOf(Lang(None), item).heading == Some(item.title.en)
    ensures code != "" && Locale.Parse(code).None? ==>
      CardOf(Lang(Some(code)), item).heading.None? && CardOf(Lang(Some(code)), item).text.None?
  {
    assert Lang(None) == "en";
    assert Locale.Parse("en") == Some(Locale.En);
    if code != "" {
      assert Lang(Some(code)) == code;
    }
  }
}
