/** The top-selling products card of the farmer dashboard: the statistics
    request, the total sold, the top performer and what the card shows. The
    stored email and the server's reply are parameters. */
module TopSelling {
  import opened Web

  datatype ProductStat = ProductStat(productType: string, totalQuantity: int)

  /** `data.reduce((sum, item) => sum + item.totalQuantity, 0)`, folding from
      the left. */
  function Sum(data: seq<ProductStat>): int
    decreases |data|
  {
    if |data| == 0 then 0 else Sum(data[..|data| - 1]) + data[|data| - 1].totalQuantity
  }

  /** The total computed the way the card does, one item after the other. */
  method TotalQuantity(data: seq<ProductStat>) returns (total: int)
    ensures total == Sum(data)
  {
    total := 0;
    var i := 0;
    while i < |data|
      invariant 0 <= i <= |data|
      invariant total == Sum(data[..i])
    {
      assert data[..i + 1][..i] == data[..i];
      total := total + data[i].totalQuantity;
      i := i + 1;
    }
    assert data[..|data|] == data;
  }

  /** The left fold agrees with adding from the front: the first item's
      quantity plus the total of the rest. */
  lemma {:induction false} SumCons(x: ProductStat, data: seq<ProductStat>)
    ensures Sum([x] + data) == x.totalQuantity + Sum(data)
    decreases |data|
  {
    if |data| > 0 {
      var whole := [x] + data;
      assert whole[..|whole| - 1] == [x] + data[..|data| - 1];
      SumCons(x, data[..|data| - 1]);
    }
  }

  /** With no negative quantities, every item's quantity is at most the
      total. */
  lemma {:induction false} ItemAtMostTotal(data: seq<ProductStat>, k: int)
    requires forall i :: 0 <= i < |data| ==> data[i].totalQuantity >= 0
    requires 0 <= k < |data|
    ensures 0 <= data[k].totalQuantity <= Sum(data)
    decreases |data|
  {
    var n := |data|;
    if k < n - 1 {
      ItemAtMostTotal(data[..n - 1], k);
    } else if n > 1 {
      SumNonNegative(data[..n - 1]);
    }
  }

  lemma {:induction false} SumNonNegative(data: seq<ProductStat>)
    requires forall i :: 0 <= i < |data| ==> data[i].totalQuantity >= 0
    ensures Sum(data) >= 0
    decreases |data|
  {
    if |data| > 0 {
      SumNonNegative(data[..|data| - 1]);
    }
  }

  /** `data.reduce((prev, current) => prev.totalQuantity >
      current.totalQuantity ? prev : current)`: the index of a largest
      quantity, the last one when several tie. */
  function TopIndex(data: seq<ProductStat>): (r: nat)
    requires |data| > 0
    ensures r < |data|
    ensures forall i :: 0 <= i < |data| ==> data[i].totalQuantity <= data[r].totalQuantity
    ensures forall i :: r < i < |data| ==> data[i].totalQuantity < data[r].totalQuantity
    decreases |data|
  {
    var n := |data|;
    if n == 1 then 0
    else
      var k := TopIndex(data[..n - 1]);
      assert forall i :: 0 <= i < n - 1 ==> data[..n - 1][i] == data[i];
      if data[k].totalQuantity > data[n - 1].totalQuantity then k else n - 1
  }

  /** The top performer: none for an empty list. */
  function TopProduct(data: seq<ProductStat>): (r: Option<ProductStat>)
    ensures r.None? <==> |data| == 0
    ensures r.Some? ==> r.value in data && forall i :: 0 <= i < |data| ==> data[i].totalQuantity <= r.value.totalQuantity
  {
    if |data| == 0 then None else Some(data[TopIndex(data)])
  }

  /** A tie goes to the later item. */
  lemma TieGoesToLater(a: ProductStat, b: ProductStat)
    requires a.totalQuantity == b.totalQuantity
    ensures TopProduct([a, b]) == Some(b)
  {
    assert TopIndex([a, b]) == 1;
  }

  datatype StatsReply = Stats(topSellingProducts: Option<seq<ProductStat>>) | Failed

  datatype Card = Card(data: seq<ProductStat>, loading: bool, error: Option<string>)

  const Initial := Card([], true, None)

  /** The effect: without a stored email no request is made and the card
      reports it; a missing list counts as empty; a failed request keeps the
      empty list and reports it. Loading ends in every case. */
  function Load(c: Card, email: Option<string>, reply: StatsReply): (r: (Card, Option<string>))
    ensures !r.0.loading
    ensures r.1.Some? <==> Truthy(email)
    ensures r.1.Some? ==> r.1.value == "/api/farmers/statistics/" + email.value
    ensures !Truthy(email) ==> r.0.error == Some("No email found") && r.0.data == c.data
    ensures Truthy(email) && reply.Failed? ==> r.0.error == Some("Failed to load products") && r.0.data == c.data
    ensures Truthy(email) && reply.Stats? ==>
      r.0.error == c.error && r.0.data == reply.topSellingProducts.GetOr([])
  {
    if !Truthy(email) then (c.(error := Some("No email found"), loading := false), None)
    else
      var url := "/api/farmers/statistics/" + email.value;
      match reply
      case Stats(top) => (c.(data := top.GetOr([]), loading := false), Some(url))
      case Failed => (c.(error := Some("Failed to load products"), loading := false), Some(url))
  }

  /** One row of the product breakdown: its 1-based rank label and the
      item. */
  datatype Row = Row(rank: int, productType: string, totalQuantity: int)

  function Rows(data: seq<ProductStat>, from: nat): (r: seq<Row>)
    ensures |r| == |data|
    ensures forall i :: 0 <= i < |r| ==> r[i] == Row(from + i + 1, data[i].productType, data[i].totalQuantity)
    decreases |data|
  {
    if |data| == 0 then [] else [Row(from + 1, data[0].productType, data[0].totalQuantity)] + Rows(data[1..], from + 1)
  }

  datatype View =
    | Spinner
    | ErrorNote(message: string)
    | NoSales
    | Chart(totalSold: int, top: ProductStat, rows: seq<Row>)

  /** What the card shows, in this order of precedence: the spinner while
      loading, then the error, then "No sales data yet", then the total, the
      top performer and the breakdown. */
  function Render(c: Card): (r: View)
    ensures r.Spinner? <==> c.loading
    ensures r.ErrorNote? <==> !c.loading && Truthy(c.error)
    ensures r.ErrorNote? ==> r.message == c.error.value
    ensures r.NoSales? <==> !c.loading && !Truthy(c.error) && |c.data| == 0
    ensures r.Chart? ==>
      && r.totalSold == Sum(c.data)
      && Some(r.top) == TopProduct(c.data)
      && |r.rows| == |c.data|
  {
    if c.loading then Spinner
    else if Truthy(c.error) then ErrorNote(c.error.value)
    else if |c.data| == 0 then NoSales
    else Chart(Sum(c.data), TopProduct(c.data).value, Rows(c.data, 0))
  }

  /** Once statistics arrive, the card shows their chart unless the list is
      empty; the top performer never sold more than the total when no
      quantity is negative. */
  lemma StatsShowChart(email: string, data: seq<ProductStat>)
    requires email != "" && |data| > 0
    requires forall i :: 0 <= i < |data| ==> data[i].totalQuantity >= 0
    ensures var v := Render(Load(Initial, Some(email), Stats(Some(data))).0);
      v.Chart? && 0 <= v.top.totalQuantity <= v.totalSold
  {
    ItemAtMostTotal(data, TopIndex(data));
  }
}
