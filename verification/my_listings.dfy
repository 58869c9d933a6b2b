/** The farmer's "My Listed Products" page: loading the farmer's listings,
    deleting one after confirmation, and adding one from the form draft.
    The confirmation dialog's answer, the stored email and the server's
    replies are parameters. */
module MyListings {
  import opened Web
  import Seqs

  /** A listed product as the server returns it. */
  datatype ListedProduct = ListedProduct(
    id: int,
    productType: string,
    quantity: int,
    pricePerUnit: real,
    farmerEmail: string,
    location: string,
    availability: string)

  /** The add-product form, every field as typed. */
  datatype Draft = Draft(productType: string, quantity: string, pricePerUnit: string, location: string, availability: string)

  const EmptyDraft := Draft("", "", "", "", "")

  /** The product types the form offers. */
  const ProductTypes: seq<string> := ["MAIZE", "TOMATOES", "BEANS", "BEEF", "BREAD"]

  datatype ListingsPage = ListingsPage(
    products: seq<ListedProduct>,
    loading: bool,
    message: Option<string>,
    showAddForm: bool,
    draft: Draft)

  const Initial := ListingsPage([], true, None, false, EmptyDraft)

  /** The body of the add request; quantity and price stay as typed text
      here (their numeric parsing is not modelled). */
  datatype AddPayload = AddPayload(productType: string, quantity: string, pricePerUnit: string,
                                   location: string, availability: string, farmerEmail: string)

  datatype Request = FetchMine(farmerEmail: string) | Delete(productId: int) | Add(payload: AddPayload)

  /** `fetchMyProducts`: no request without a stored email; a failed fetch
      keeps the list and reports it. Loading ends either way. */
  function FetchMyProducts(p: ListingsPage, email: Option<string>, reply: Reply<seq<ListedProduct>>): (r: (ListingsPage, Option<Request>))
    ensures !r.0.loading
    ensures r.1.Some? <==> Truthy(email)
    ensures r.1.Some? ==> r.1.value == FetchMine(email.value)
    ensures Truthy(email) && reply.Ok? ==> r.0.products == reply.value
    ensures !(Truthy(email) && reply.Ok?) ==> r.0.products == p.products
    ensures Truthy(email) && reply.Failed? ==> r.0.message == Some("Failed to load products \U{274C}")
  {
    if !Truthy(email) then (p.(loading := false), None)
    else match reply
      case Ok(data) => (p.(products := data, loading := false), Some(FetchMine(email.value)))
      case Failed => (p.(message := Some("Failed to load products \U{274C}"), loading := false), Some(FetchMine(email.value)))
  }

  /** `deleteProduct(id)`: nothing happens unless the farmer confirms; a
      successful delete drops every product with that id, keeping the
      others in order; a failed one keeps the list. */
  function DeleteProduct(p: ListingsPage, id: int, confirmed: bool, reply: Reply<()>): (r: (ListingsPage, Option<Request>))
    ensures !confirmed ==> r == (p, None)
    ensures confirmed ==> r.1 == Some(Delete(id))
    ensures confirmed && reply.Ok? ==>
      && (forall i :: 0 <= i < |r.0.products| ==> r.0.products[i].id != id && r.0.products[i] in p.products)
      && (forall i :: 0 <= i < |p.products| && p.products[i].id != id ==> p.products[i] in r.0.products)
      && (forall x :: multiset(r.0.products)[x] == if x.id != id then multiset(p.products)[x] else 0)
      && r.0.message == Some("Product deleted successfully \U{2705}")
    ensures confirmed && reply.Failed? ==>
      r.0.products == p.products && r.0.message == Some("Failed to delete product \U{274C}")
  {
    if !confirmed then (p, None)
    else match reply
      case Ok(_) =>
        (p.(products := Seqs.Filter(p.products, (x: ListedProduct) => x.id != id),
            message := Some("Product deleted successfully \U{2705}")),
         Some(Delete(id)))
      case Failed => (p.(message := Some("Failed to delete product \U{274C}")), Some(Delete(id)))
  }

  /** The survivors of a delete appear in their original order. */
  lemma DeleteKeepsOrder(p: ListingsPage, id: int)
    ensures Seqs.SubsequenceOf(DeleteProduct(p, id, true, Ok(())).0.products, p.products)
  {
    Seqs.FilterIsSubsequence(p.products, (x: ListedProduct) => x.id != id);
  }

  /** `addProduct`: rejected before any request without a stored email or
      with no product type chosen; a successful add appends the saved
      product, closes the form and clears the draft; a failed add keeps the
      list and the draft. */
  function AddProduct(p: ListingsPage, email: Option<string>, reply: Reply<ListedProduct>): (r: (ListingsPage, Option<Request>))
    ensures !Truthy(email) ==> r == (p.(message := Some("Please log in to add products \U{274C}")), None)
    ensures Truthy(email) && p.draft.productType == "" ==>
      r == (p.(message := Some("Please select a product type \U{274C}")), None)
    ensures r.1.Some? <==> Truthy(email) && p.draft.productType != ""
    ensures r.1.Some? ==>
      && r.1.value.Add?
      && r.1.value.payload.farmerEmail == email.value
      && r.1.value.payload.productType == p.draft.productType
    ensures r.1.Some? && reply.Ok? ==>
      && r.0.products == p.products + [reply.value]
      && !r.0.showAddForm
      && r.0.draft == EmptyDraft
    ensures !(r.1.Some? && reply.Ok?) ==> r.0.products == p.products && r.0.draft == p.draft
  {
    if !Truthy(email) then (p.(message := Some("Please log in to add products \U{274C}")), None)
    else if p.draft.productType == "" then (p.(message := Some("Please select a product type \U{274C}")), None)
    else
      var d := p.draft;
      var req := Add(AddPayload(d.productType, d.quantity, d.pricePerUnit, d.location, d.availability, email.value));
      match reply
      case Ok(saved) =>
        (p.(products := p.products + [saved], message := Some("Product added successfully \U{2705}"),
            showAddForm := false, draft := EmptyDraft),
         Some(req))
      case Failed => (p.(message := Some("Failed to add product \U{274C}")), Some(req))
  }

  /** The form's product-type choices are five distinct, non-empty names, so
      any choice passes the product-type check and reaches the server. */
  lemma ProductTypeChoicesPassCheck(p: ListingsPage, i: int, email: string, reply: Reply<ListedProduct>)
    requires 0 <= i < |ProductTypes|
    requires email != ""
    ensures |ProductTypes| == 5
    ensures forall j, k :: 0 <= j < k < |ProductTypes| ==> ProductTypes[j] != ProductTypes[k]
    ensures AddProduct(p.(draft := p.draft.(productType := ProductTypes[i])), Some(email), reply).1.Some?
  {
  }

  /** A successful add puts the saved product last, after every earlier
      product in its old place; deleting it again, when no earlier product
      shares its id, gives back the earlier list. */
  lemma {:induction false} AddAppendsLast(p: ListingsPage, email: string, reply: Reply<ListedProduct>)
    requires email != "" && p.draft.productType != "" && reply.Ok?
    ensures var added := AddProduct(p, Some(email), reply).0.products;
      && |added| == |p.products| + 1
      && added[|p.products|] == reply.value
      && (forall i :: 0 <= i < |p.products| ==> added[i] == p.products[i])
    ensures (forall i :: 0 <= i < |p.products| ==> p.products[i].id != reply.value.id) ==>
      DeleteProduct(AddProduct(p, Some(email), reply).0, reply.value.id, true, Ok(())).0.products == p.products
  {
    var id := reply.value.id;
    var q := AddProduct(p, Some(email), reply).0;
    assert q.products == p.products + [reply.value];
    if forall i :: 0 <= i < |p.products| ==> p.products[i].id != id {
      var keep := (x: ListedProduct) => x.id != id;
      Seqs.FilterAppend(p.products, [reply.value], keep);
      Seqs.FilterKeepsAll(p.products, keep);
      assert Seqs.Filter([reply.value], keep) == [];
      assert DeleteProduct(q, id, true, Ok(())).0.products == Seqs.Filter(q.products, keep);
    }
  }
}
