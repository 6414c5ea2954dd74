/** The public products grid: localized names, image or placeholder, and the fetch/loading state. */
module ProductsSection {
  import opened Wrappers
  import Locale

  /** A product as the section receives it from `/api/products` (price kept opaque). */
  datatype ProductItem = ProductItem(id: int, name: Locale.Localized<string>, imageUrl: Option<string>, price: string)

  datatype CardImage = Image(src: string, alt: string) | NoImage

  datatype Card = Card(image: CardImage, heading: string, price: string)

  datatype View = Loading | Grid(cards: seq<Card>)

  /** `(params?.lang as Language) || 'en'` */
  function Lang(param: Option<string>): string {
    Locale.RouteLang(param, "en")
  }

  /** `getLocalizedName`: `name_ru` for "ru", `name_uz` for "uz", `name` otherwise. */
  function LocalizedName(langParam: Option<string>, p: ProductItem): string {
    Locale.Pick(Some(Lang(langParam)), p.name)
  }

  /** An absent route parameter means English, which means the default `name`. */
  lemma LocalizedNameDefault(p: ProductItem)
    ensures LocalizedName(None, p) == p.name.en
    ensures LocalizedName(Some("ru"), p) == p.name.ru
    ensures LocalizedName(Some("uz"), p) == p.name.uz
  {
  }

  /** One card: the image (alt text = localized name) or the "No image" placeholder, and the name as heading. */
  function CardOf(langParam: Option<string>, p: ProductItem): (c: Card)
    ensures c.heading == LocalizedName(langParam, p)
    ensures c.image.NoImage? <==> p.imageUrl.None? || p.imageUrl.value == ""
    ensures c.image.Image? ==> c.image.src == p.imageUrl.value && c.image.alt == c.heading
  {
    var name := LocalizedName(langParam, p);
    Card(if p.imageUrl.Some? && p.imageUrl.value != "" then Image(p.imageUrl.value, name) else NoImage,
         name, p.price)
  }

  /** `products.map(...)`: one card per product, in input order. */
  function Cards(langParam: Option<string>, products: seq<ProductItem>): (cards: seq<Card>)
    ensures |cards| == |products|
    ensures forall i :: 0 <= i < |products| ==> cards[i] == CardOf(langParam, products[i])
  {
    if products == [] then [] else [CardOf(langParam, products[0])] + Cards(langParam, products[1..])
  }

  /** The component's state: `products` and `loading`. */
  class ProductsState {
    var products: seq<ProductItem>
    var loading: bool

    constructor ()
      ensures products == [] && loading
    {
      products := [];
      loading := true;
    }

    /** `fetchProducts`: a successful fetch stores the list; `loading` is cleared either way (`finally`). */
    method OnFetched(result: Option<seq<ProductItem>>)
      modifies this
      ensures products == if result.Some? then result.value else old(products)
      ensures !loading
    {
      if result.Some? {
        products := result.value;
      }
      loading := false;
    }

    /** While loading only the placeholder is shown; afterwards one card per product. */
    function View(langParam: Option<string>): (v: View)
      reads this
      ensures v.Loading? <==> loading
      ensures v.Grid? ==> v.cards == Cards(langParam, products)
    {
      if loading then Loading else Grid(Cards(langParam, products))
    }
  }
}
