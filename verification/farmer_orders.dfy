/** The farmer's orders page: which actions each order offers, how its
    status and payment badges are coloured, and what each action's success
    or failure does to the local order list and the open detail view.
    Responses are parameters; the refetch an action triggers on success is
    given as the reply that refetch receives. */
module FarmerOrders {
  import opened Web

  /** An order as the page receives it. Status strings are kept verbatim:
      the page writes `COMPLETED` but colours `COLLECTED`. */
  datatype Order = Order(
    id: int,
    productType: string,
    quantity: int,
    buyerEmail: string,
    status: string,
    orderTime: string,
    paymentStatus: Option<string>)

  datatype Colour = Yellow | Green | Red | Blue

  /** The status badge: PENDING yellow, COLLECTED green, anything else red. */
  function StatusColour(status: string): (c: Colour)
    ensures c == Yellow <==> status == "PENDING"
    ensures c == Green <==> status == "COLLECTED"
    ensures c == Red <==> status != "PENDING" && status != "COLLECTED"
    ensures c != Blue
  {
    if status == "PENDING" then Yellow
    else if status == "COLLECTED" then Green
    else Red
  }

  datatype Badge = Badge(text: string, colour: Colour)

  /** The payment badge: the label falls back to PENDING, the colour is PAID
      green, CANCELLED red, REFUNDED blue and yellow otherwise. */
  function PaymentBadge(ps: Option<string>): (b: Badge)
    ensures b.text == OrElse(ps, "PENDING")
    ensures b.colour == Green <==> ps == Some("PAID")
    ensures b.colour == Red <==> ps == Some("CANCELLED")
    ensures b.colour == Blue <==> ps == Some("REFUNDED")
    ensures b.colour == Yellow <==> ps !in {Some("PAID"), Some("CANCELLED"), Some("REFUNDED")}
  {
    var colour :=
      if ps == Some("PAID") then Green
      else if ps == Some("CANCELLED") then Red
      else if ps == Some("REFUNDED") then Blue
      else Yellow;
    Badge(OrElse(ps, "PENDING"), colour)
  }

  /** The payment badge's colour always agrees with the label it shows: a
      missing status reads PENDING and is yellow like PENDING itself. */
  lemma PaymentBadgeAgreesWithLabel(ps: Option<string>)
    ensures var b := PaymentBadge(ps);
      && (b.colour == Green <==> b.text == "PAID")
      && (b.colour == Red <==> b.text == "CANCELLED")
      && (b.colour == Blue <==> b.text == "REFUNDED")
      && (b.text == "PENDING" ==> b.colour == Yellow)
  {
    if !Truthy(ps) {
      assert PaymentBadge(ps).text == "PENDING";
    }
  }

  /** The buttons the page can show. */
  datatype Action = MarkAsCollected | CancelOrder | ViewDetails | ConfirmPayment | Close

  /** The buttons of an order's table row, in display order. */
  function RowActions(o: Order): (r: seq<Action>)
    ensures MarkAsCollected in r <==> o.status == "PENDING"
    ensures CancelOrder in r <==> o.status == "PENDING"
    ensures ViewDetails in r && ConfirmPayment !in r && Close !in r
  {
    (if o.status == "PENDING" then [MarkAsCollected, CancelOrder] else []) + [ViewDetails]
  }

  /** The page's local state. `proofImage` is the proof URL loaded for the
      open order, if any. */
  datatype OrdersPage = OrdersPage(
    orders: seq<Order>,
    loading: bool,
    message: Option<string>,
    selected: Option<Order>,
    proofImage: Option<string>,
    loadingProof: bool)

  const Initial := OrdersPage([], true, None, None, None, false)

  /** A proof URL is loaded (a truthy `proofImage`). */
  predicate ProofLoaded(p: OrdersPage) {
    Truthy(p.proofImage)
  }

  /** The proof-of-payment section of the detail view. */
  datatype ProofPanel = LoadingProof | NoProof | AwaitingConfirmation(url: string) | AlreadyConfirmed(url: string)

  function Panel(p: OrdersPage, o: Order): (r: ProofPanel)
    ensures r.AwaitingConfirmation? <==> !p.loadingProof && ProofLoaded(p) && o.paymentStatus != Some("PAID")
    ensures r.AlreadyConfirmed? <==> !p.loadingProof && ProofLoaded(p) && o.paymentStatus == Some("PAID")
    ensures r.NoProof? <==> !p.loadingProof && !ProofLoaded(p)
    ensures (r.AwaitingConfirmation? || r.AlreadyConfirmed?) ==> Some(r.url) == p.proofImage
  {
    if p.loadingProof then LoadingProof
    else if ProofLoaded(p) then
      if o.paymentStatus != Some("PAID") then AwaitingConfirmation(p.proofImage.value)
      else AlreadyConfirmed(p.proofImage.value)
    else NoProof
  }

  /** The buttons of the open detail view: Confirm Payment from the proof
      section, then the footer. */
  function DetailActions(p: OrdersPage): (r: seq<Action>)
    requires p.selected.Some?
    ensures ConfirmPayment in r <==>
      !p.loadingProof && ProofLoaded(p) && p.selected.value.paymentStatus != Some("PAID")
    ensures MarkAsCollected in r <==> p.selected.value.status == "PENDING"
    ensures CancelOrder in r <==> p.selected.value.status == "PENDING"
    ensures Close in r && ViewDetails !in r
  {
    var o := p.selected.value;
    (if Panel(p, o).AwaitingConfirmation? then [ConfirmPayment] else [])
    + (if o.status == "PENDING" then [MarkAsCollected, CancelOrder] else [])
    + [Close]
  }

  /** Collect and cancel are offered in the row and in the detail view under
      the same condition; an order that has left PENDING offers neither. */
  lemma RowAndDetailAgree(p: OrdersPage)
    requires p.selected.Some?
    ensures var o := p.selected.value;
      && (MarkAsCollected in RowActions(o) <==> MarkAsCollected in DetailActions(p))
      && (CancelOrder in RowActions(o) <==> CancelOrder in DetailActions(p))
      && (o.status != "PENDING" ==> MarkAsCollected !in DetailActions(p) && CancelOrder !in DetailActions(p))
  {
  }

  /** The one request each action issues. */
  datatype Request =
    | UpdateStatus(orderId: int, status: string)
    | CancelRequest(orderId: int)
    | UpdatePaymentStatus(orderId: int, paymentStatus: string)

  /** `fetchOrders`: with no stored email nothing is requested; otherwise a
      successful reply replaces the list and a failed one keeps it. Loading
      ends either way. */
  function FetchOrders(p: OrdersPage, email: Option<string>, reply: Reply<seq<Order>>): (r: OrdersPage)
    ensures !r.loading
    ensures Truthy(email) && reply.Ok? ==> r.orders == reply.value
    ensures !(Truthy(email) && reply.Ok?) ==> r.orders == p.orders
    ensures r.selected == p.selected && r.message == p.message && r.proofImage == p.proofImage
  {
    if Truthy(email) && reply.Ok? then p.(orders := reply.value, loading := false)
    else p.(loading := false)
  }

  /** The status an order is sent to by "Mark as Collected". */
  const CollectedStatus := "COMPLETED"

  /** The list after an action's refetch: replaced when the refetch could
      run and succeeded, otherwise as it was. */
  function Refetched(p: OrdersPage, email: Option<string>, refetch: Reply<seq<Order>>): seq<Order> {
    FetchOrders(p, email, refetch).orders
  }

  /** An action's outcome: a notice, and on success the refetch. */
  function Settle(p: OrdersPage, reply: Reply<()>, success: string, failure: string,
                  email: Option<string>, refetch: Reply<seq<Order>>): OrdersPage
  {
    if reply.Ok? then FetchOrders(p.(message := Some(success)), email, refetch)
    else p.(message := Some(failure))
  }

  /** `markAsCollected(id)`: one request for status COMPLETED; the list is
      replaced only by the refetch after a success. */
  function MarkCollected(p: OrdersPage, id: int, reply: Reply<()>, email: Option<string>, refetch: Reply<seq<Order>>): (r: (OrdersPage, Request))
    ensures r.1 == UpdateStatus(id, "COMPLETED")
    ensures reply.Ok? ==>
      r.0.orders == Refetched(p, email, refetch) && r.0.message == Some("Order marked as collected successfully \U{2705}")
    ensures reply.Failed? ==> r.0.orders == p.orders && r.0.message == Some("Failed to mark as collected \U{274C}")
    ensures r.0.selected == p.selected && r.0.proofImage == p.proofImage
  {
    (Settle(p, reply, "Order marked as collected successfully \U{2705}", "Failed to mark as collected \U{274C}", email, refetch),
     UpdateStatus(id, CollectedStatus))
  }

  /** `cancelOrder(id)`: one request to the cancel endpoint; the list is
      replaced only by the refetch after a success. */
  function Cancel(p: OrdersPage, id: int, reply: Reply<()>, email: Option<string>, refetch: Reply<seq<Order>>): (r: (OrdersPage, Request))
    ensures r.1 == CancelRequest(id)
    ensures reply.Ok? ==>
      r.0.orders == Refetched(p, email, refetch) && r.0.message == Some("Order cancelled successfully \U{274C}")
    ensures reply.Failed? ==> r.0.orders == p.orders && r.0.message == Some("Failed to cancel order \U{274C}")
    ensures r.0.selected == p.selected && r.0.proofImage == p.proofImage
  {
    (Settle(p, reply, "Order cancelled successfully \U{274C}", "Failed to cancel order \U{274C}", email, refetch),
     CancelRequest(id))
  }

  /** `confirmPayment(id)`: one request for payment status PAID; on success
      the list is refetched and the detail view closes, on failure both stay
      as they were. */
  function ConfirmPay(p: OrdersPage, id: int, reply: Reply<()>, email: Option<string>, refetch: Reply<seq<Order>>): (r: (OrdersPage, Request))
    ensures r.1 == UpdatePaymentStatus(id, "PAID")
    ensures reply.Ok? ==>
      && r.0.orders == Refetched(p, email, refetch)
      && r.0.selected.None?
      && r.0.message == Some("Payment confirmed successfully \U{2705}")
    ensures reply.Failed? ==>
      && r.0.orders == p.orders
      && r.0.selected == p.selected
      && r.0.message == Some("Failed to confirm payment \U{274C}")
    ensures r.0.proofImage == p.proofImage
  {
    var q := Settle(p, reply, "Payment confirmed successfully \U{2705}", "Failed to confirm payment \U{274C}", email, refetch);
    (if reply.Ok? then q.(selected := None) else q, UpdatePaymentStatus(id, "PAID"))
  }

  /** The detail view's "Mark as Collected": the action, and the view closes
      whatever its outcome. */
  function DetailCollect(p: OrdersPage, reply: Reply<()>, email: Option<string>, refetch: Reply<seq<Order>>): (r: (OrdersPage, Request))
    requires p.selected.Some?
    ensures r.1 == UpdateStatus(p.selected.value.id, "COMPLETED")
    ensures r.0.selected.None? && r.0.proofImage == p.proofImage
    ensures reply.Ok? ==>
      r.0.orders == Refetched(p, email, refetch) && r.0.message == Some("Order marked as collected successfully \U{2705}")
    ensures reply.Failed? ==> r.0.orders == p.orders && r.0.message == Some("Failed to mark as collected \U{274C}")
  {
    var (q, req) := MarkCollected(p, p.selected.value.id, reply, email, refetch);
    (q.(selected := None), req)
  }

  /** The detail view's "Cancel Order": the action, and the view closes
      whatever its outcome. */
  function DetailCancel(p: OrdersPage, reply: Reply<()>, email: Option<string>, refetch: Reply<seq<Order>>): (r: (OrdersPage, Request))
    requires p.selected.Some?
    ensures r.1 == CancelRequest(p.selected.value.id)
    ensures r.0.selected.None? && r.0.proofImage == p.proofImage
    ensures reply.Ok? ==>
      r.0.orders == Refetched(p, email, refetch) && r.0.message == Some("Order cancelled successfully \U{274C}")
    ensures reply.Failed? ==> r.0.orders == p.orders && r.0.message == Some("Failed to cancel order \U{274C}")
  {
    var (q, req) := Cancel(p, p.selected.value.id, reply, email, refetch);
    (q.(selected := None), req)
  }

  /** The detail view's collect and cancel buttons close it on success and on
      failure alike, and act on the open order; Confirm Payment closes it only
      on success. */
  lemma DetailViewClosing(p: OrdersPage, reply: Reply<()>, email: Option<string>, refetch: Reply<seq<Order>>)
    requires p.selected.Some?
    ensures var (c, creq) := DetailCollect(p, reply, email, refetch);
      c.selected.None? && creq == UpdateStatus(p.selected.value.id, "COMPLETED")
      && c.orders == MarkCollected(p, p.selected.value.id, reply, email, refetch).0.orders
    ensures var (x, xreq) := DetailCancel(p, reply, email, refetch);
      x.selected.None? && xreq == CancelRequest(p.selected.value.id)
      && x.orders == Cancel(p, p.selected.value.id, reply, email, refetch).0.orders
    ensures ConfirmPay(p, p.selected.value.id, reply, email, refetch).0.selected.None? <==> reply.Ok?
  {
  }

  /** "Mark as Collected" asks for COMPLETED, which the status badge shows
      red: only COLLECTED is green. */
  lemma CollectedRequestShowsRed()
    ensures StatusColour(CollectedStatus) == Red
  {
  }

  /** "View Details": open the order and start loading its proof. */
  function Open(p: OrdersPage, o: Order): (r: OrdersPage)
    ensures r.selected == Some(o) && r.loadingProof && !ProofLoaded(r)
    ensures r.orders == p.orders
  {
    p.(selected := Some(o), proofImage := None, loadingProof := true)
  }

  /** `fetchProofOfPayment` completing: a successful lookup shows the URL it
      returned; a non-ok or failed lookup leaves no proof. */
  function ProofArrived(p: OrdersPage, reply: Reply<Option<string>>): (r: OrdersPage)
    ensures !r.loadingProof
    ensures ProofLoaded(r) <==> reply.Ok? && Truthy(reply.value)
    ensures reply.Failed? ==> r.proofImage.None?
    ensures r.selected == p.selected && r.orders == p.orders
  {
    match reply
    case Ok(url) => p.(proofImage := url, loadingProof := false)
    case Failed => p.(proofImage := None, loadingProof := false)
  }

  /** "Close": the detail view closes and the loaded proof is dropped. */
  function CloseDetail(p: OrdersPage): (r: OrdersPage)
    ensures r.selected.None? && !ProofLoaded(r)
    ensures r.orders == p.orders
  {
    p.(selected := None, proofImage := None)
  }

  /** Opening an order whose proof lookup fails shows "no proof" and offers
      no payment action at all; when the lookup returns a URL, Confirm
      Payment is offered exactly while the order is not yet PAID. */
  lemma ProofLookupGatesConfirm(p: OrdersPage, o: Order, reply: Reply<Option<string>>)
    ensures var q := ProofArrived(Open(p, o), reply);
      && (!(reply.Ok? && Truthy(reply.value)) ==>
            Panel(q, o) == NoProof && ConfirmPayment !in DetailActions(q))
      && (reply.Ok? && Truthy(reply.value) ==>
            (ConfirmPayment in DetailActions(q) <==> o.paymentStatus != Some("PAID")))
  {
  }
}
