/** The buyer marketplace: the product list as the server sends it, with
    missing values replaced by defaults, and the farmer-profile dialog. The
    server's reply is a parameter. */
module BuyerMarket {
  import opened Web
  import ProductImages
  import Seqs

  /** A product as it arrives; `None` is a missing or null value. */
  datatype RawProduct = RawProduct(
    id: int,
    productType: Option<string>,
    quantity: Option<int>,
    farmerEmail: Option<string>,
    farmerComments: Option<seq<string>>)

  /** A product after normalisation: every field has a value. */
  datatype Product = Product(
    id: int,
    productType: string,
    quantity: int,
    farmerEmail: string,
    farmerComments: seq<string>)

  /** `value || fallback` for a number: a missing value and zero both give
      the fallback. */
  function NumberOr(n: Option<int>, fallback: int): (r: int)
    ensures n.Some? && n.value != 0 ==> r == n.value
    ensures n.None? || n.value == 0 ==> r == fallback
  {
    if n.Some? && n.value != 0 then n.value else fallback
  }

  /** `value || []` for a list: any list is truthy, so only a missing list
      is replaced, and an empty one is kept. */
  function ListOr(l: Option<seq<string>>): (r: seq<string>)
    ensures l.Some? ==> r == l.value
    ensures l.None? ==> r == []
  {
    if l.Some? then l.value else []
  }

  /** The normalisation each product goes through. A missing or empty type
      or email becomes a placeholder; a missing quantity becomes zero. */
  function Normalize(x: RawProduct): (r: Product)
    ensures r.id == x.id
    ensures r.productType != "" && r.farmerEmail != ""
    ensures Truthy(x.productType) ==> r.productType == x.productType.value
    ensures !Truthy(x.productType) ==> r.productType == "Unknown Product"
    ensures Truthy(x.farmerEmail) ==> r.farmerEmail == x.farmerEmail.value
    ensures !Truthy(x.farmerEmail) ==> r.farmerEmail == "Unknown"
    ensures x.quantity.Some? ==> r.quantity == x.quantity.value
    ensures x.quantity.None? ==> r.quantity == 0
    ensures x.farmerComments.Some? ==> r.farmerComments == x.farmerComments.value
    ensures x.farmerComments.None? ==> r.farmerComments == []
  {
    Product(
      x.id,
      OrElse(x.productType, "Unknown Product"),
      NumberOr(x.quantity, 0),
      OrElse(x.farmerEmail, "Unknown"),
      ListOr(x.farmerComments))
  }

  /** A product sent back as a raw one, every field present. */
  function Raw(p: Product): RawProduct {
    RawProduct(p.id, Some(p.productType), Some(p.quantity), Some(p.farmerEmail), Some(p.farmerComments))
  }

  /** Normalising twice changes nothing more: a normalised product passes
      through unchanged. */
  lemma NormalizeIdempotent(x: RawProduct)
    ensures Normalize(Raw(Normalize(x))) == Normalize(x)
  {
  }

  /** The server's reply to the product request. */
  datatype ListReply = JsonArray(items: seq<RawProduct>) | NotArray | Failed

  datatype MarketPage = MarketPage(products: seq<Product>, loading: bool, selected: Option<Product>)

  const Initial := MarketPage([], true, None)

  /** Loading the products: an array is normalised element by element, in
      order; anything else, or a failure, gives an empty list. Loading ends
      either way. */
  function Load(p: MarketPage, reply: ListReply): (r: MarketPage)
    ensures !r.loading && r.selected == p.selected
    ensures reply.JsonArray? ==>
      && |r.products| == |reply.items|
      && forall i :: 0 <= i < |r.products| ==> r.products[i] == Normalize(reply.items[i]) && r.products[i].id == reply.items[i].id
    ensures !reply.JsonArray? ==> r.products == []
  {
    match reply
    case JsonArray(items) => p.(products := Seqs.Map(items, Normalize), loading := false)
    case NotArray => p.(products := [], loading := false)
    case Failed => p.(products := [], loading := false)
  }

  /** Clicking a farmer picture opens the profile dialog for that product. */
  function SelectFarmer(p: MarketPage, x: Product): (r: MarketPage)
    ensures r.selected == Some(x) && r.products == p.products
  {
    p.(selected := Some(x))
  }

  /** Closing the dialog. */
  function CloseDialog(p: MarketPage): (r: MarketPage)
    ensures r.selected.None? && r.products == p.products
  {
    p.(selected := None)
  }

  /** `comments || []` in the dialog. */
  function SafeComments(comments: Option<seq<string>>): (r: seq<string>)
    ensures comments.None? ==> r == []
    ensures comments.Some? ==> r == comments.value
  {
    ListOr(comments)
  }

  /** The dialog's email line: `farmerEmail || 'N/A'`. */
  function DialogEmail(email: string): (r: string)
    ensures r != ""
    ensures email != "" ==> r == email
  {
    if email != "" then email else "N/A"
  }

  /** What the profile dialog shows. */
  datatype Dialog = Dialog(email: string, comments: seq<string>, noComments: bool)

  function OpenDialog(x: Product): (r: Dialog)
    ensures r.noComments <==> |r.comments| == 0
  {
    var c := SafeComments(Some(x.farmerComments));
    Dialog(DialogEmail(x.farmerEmail), c, |c| == 0)
  }

  /** For a product that went through normalisation the dialog's fallbacks
      never apply: it shows the product's own email and comments, and the
      "No comments available." note exactly when the raw list was missing
      or empty. */
  lemma DialogShowsNormalized(x: RawProduct)
    ensures var d := OpenDialog(Normalize(x));
      && d.email == Normalize(x).farmerEmail
      && d.comments == Normalize(x).farmerComments
      && (d.noComments <==> x.farmerComments.None? || |x.farmerComments.value| == 0)
  {
  }

  datatype Card = Card(image: string, title: string, quantity: int, farmerEmail: string)

  datatype View = Loading | Grid(cards: seq<Card>, emptyNote: bool)

  function ToCard(x: Product): Card {
    Card(ProductImages.ProductImage(x.productType), x.productType, x.quantity, x.farmerEmail)
  }

  /** What the page renders: the spinner while loading, then one card per
      product, and the "No products available" note exactly when there are
      none. */
  function Render(p: MarketPage): (r: View)
    ensures r.Loading? <==> p.loading
    ensures r.Grid? ==> |r.cards| == |p.products| && (r.emptyNote <==> |p.products| == 0)
    ensures r.Grid? ==> forall i :: 0 <= i < |p.products| ==> r.cards[i].title == p.products[i].productType
  {
    if p.loading then Loading else Grid(Seqs.Map(p.products, ToCard), |p.products| == 0)
  }

  /** Whatever arrives, no card has an empty title or email once loaded. */
  lemma LoadedCardsFilled(reply: ListReply)
    ensures var v := Render(Load(Initial, reply));
      v.Grid? && forall i :: 0 <= i < |v.cards| ==> v.cards[i].title != "" && v.cards[i].farmerEmail != ""
  {
  }
}
