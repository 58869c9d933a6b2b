/** The farmer's market page: every listed product, narrowed by a search
    term that matches the product type ignoring letter case. The server's
    reply is a parameter. */
module FarmerMarket {
  import opened Web
  import Text
  import Seqs
  import ProductImages

  datatype Product = Product(
    id: int,
    productType: string,
    quantity: int,
    farmerEmail: string,
    farmerComments: Option<seq<string>>)

  datatype MarketPage = MarketPage(products: seq<Product>, loading: bool, searchTerm: string)

  const Initial := MarketPage([], true, "")

  /** `fetchProducts`: a failed request (or a non-ok reply) empties the
      list; loading ends either way. */
  function FetchProducts(p: MarketPage, reply: Reply<seq<Product>>): (r: MarketPage)
    ensures !r.loading && r.searchTerm == p.searchTerm
    ensures reply.Ok? ==> r.products == reply.value
    ensures reply.Failed? ==> r.products == []
  {
    match reply
    case Ok(data) => p.(products := data, loading := false)
    case Failed => p.(products := [], loading := false)
  }

  /** Typing into the search box. */
  function Search(p: MarketPage, term: string): (r: MarketPage)
    ensures r.searchTerm == term && r.products == p.products && r.loading == p.loading
  {
    p.(searchTerm := term)
  }

  /** A product matches when its lower-cased type includes the lower-cased
      term. */
  predicate Matches(x: Product, term: string) {
    Text.Contains(Text.Lower(x.productType), Text.Lower(term))
  }

  /** `filteredProducts`: exactly the matching products, each as often as
      in the list, in list order. */
  function Filtered(products: seq<Product>, term: string): (r: seq<Product>)
    ensures forall i :: 0 <= i < |r| ==> r[i] in products && Matches(r[i], term)
    ensures forall i :: 0 <= i < |products| && Matches(products[i], term) ==> products[i] in r
    ensures forall x :: multiset(r)[x] == if Matches(x, term) then multiset(products)[x] else 0
  {
    Seqs.Filter(products, (x: Product) => Matches(x, term))
  }

  /** The filter keeps the list order, and an empty term keeps every
      product. */
  lemma FilteredKeepsOrder(products: seq<Product>, term: string)
    ensures Seqs.SubsequenceOf(Filtered(products, term), products)
    ensures term == "" ==> Filtered(products, term) == products
  {
    Seqs.FilterIsSubsequence(products, (x: Product) => Matches(x, term));
    if term == "" {
      forall i | 0 <= i < |products|
        ensures Matches(products[i], term)
      {
        Text.ContainsEmpty(Text.Lower(products[i].productType));
      }
      Seqs.FilterKeepsAll(products, (x: Product) => Matches(x, term));
    }
  }

  /** The search ignores ASCII letter case in both the term and the type. */
  lemma {:induction false} SearchIgnoresCase(products: seq<Product>, term: string)
    ensures Filtered(products, Text.Upper(term)) == Filtered(products, term)
    ensures Filtered(products, Text.Lower(term)) == Filtered(products, term)
  {
    Text.LowerOfUpper(term);
    Text.LowerIdempotent(term);
    Seqs.FilterAgrees(products, (x: Product) => Matches(x, Text.Upper(term)), (x: Product) => Matches(x, term));
    Seqs.FilterAgrees(products, (x: Product) => Matches(x, Text.Lower(term)), (x: Product) => Matches(x, term));
  }

  /** What one product card shows. The comment line appears only for a
      non-empty comment list, joined with ", ". */
  datatype Card = Card(image: string, title: string, quantity: int, comments: Option<string>)

  function CommentLine(comments: Option<seq<string>>): (r: Option<string>)
    ensures r.Some? <==> comments.Some? && |comments.value| > 0
    ensures r.Some? ==> r.value == Text.Join(comments.value, ", ")
  {
    if comments.Some? && |comments.value| > 0 then Some(Text.Join(comments.value, ", ")) else None
  }

  function ToCard(x: Product): Card {
    Card(ProductImages.ProductImage(x.productType), x.productType, x.quantity, CommentLine(x.farmerComments))
  }

  datatype View = Loading | NoProductsFound | Listing(cards: seq<Card>)

  /** What the page renders: the spinner while loading, then either the
      "No products found" note or one card per matching product. */
  function Render(p: MarketPage): (r: View)
    ensures r.Loading? <==> p.loading
    ensures r.NoProductsFound? <==> !p.loading && |Filtered(p.products, p.searchTerm)| == 0
    ensures r.Listing? ==>
      var shown := Filtered(p.products, p.searchTerm);
      && |r.cards| == |shown| > 0
      && forall i :: 0 <= i < |shown| ==> r.cards[i].title == shown[i].productType && r.cards[i].image == ProductImages.ProductImage(shown[i].productType)
  {
    if p.loading then Loading
    else
      var shown := Filtered(p.products, p.searchTerm);
      if |shown| == 0 then NoProductsFound else Listing(Seqs.Map(shown, ToCard))
  }

  /** After the products arrive with an empty search box, every product has
      a card. */
  lemma LoadedShowsAll(data: seq<Product>)
    requires |data| > 0
    ensures Render(FetchProducts(Initial, Ok(data))) == Listing(Seqs.Map(data, ToCard))
  {
    FilteredKeepsOrder(data, "");
  }
}
