/** The order-status card of the farmer dashboard: three slices (pending,
    completed, cancelled) built from the statistics reply, their total, and
    which of spinner, error, empty note or chart is shown. The stored email
    and the server's reply are parameters. */
module OrderStatusChart {
  import opened Web

  /** The counts the statistics endpoint reports. */
  datatype OrderStats = OrderStats(pendingOrders: int, completedOrders: int, cancelledOrders: int)

  datatype Slice = Slice(name: string, value: int)

  /** The palette: amber, green, red. */
  const Colors: seq<string> := ["#F59E0B", "#10B981", "#EF4444"]

  /** The three slices, always in the order Pending, Completed, Cancelled. */
  function Slices(stats: OrderStats): (r: seq<Slice>)
    ensures |r| == 3
    ensures r[0] == Slice("Pending", stats.pendingOrders)
    ensures r[1] == Slice("Completed", stats.completedOrders)
    ensures r[2] == Slice("Cancelled", stats.cancelledOrders)
  {
    [Slice("Pending", stats.pendingOrders), Slice("Completed", stats.completedOrders),
     Slice("Cancelled", stats.cancelledOrders)]
  }

  /** `data.reduce((sum, item) => sum + item.value, 0)`. */
  function Total(data: seq<Slice>): int
    decreases |data|
  {
    if |data| == 0 then 0 else Total(data[..|data| - 1]) + data[|data| - 1].value
  }

  /** The total of the three slices is the number of orders of every status;
      with no negative count it is zero exactly when every count is. */
  lemma TotalOfSlices(stats: OrderStats)
    ensures Total(Slices(stats)) == stats.pendingOrders + stats.completedOrders + stats.cancelledOrders
    ensures stats.pendingOrders >= 0 && stats.completedOrders >= 0 && stats.cancelledOrders >= 0 ==>
      (Total(Slices(stats)) == 0 <==> stats == OrderStats(0, 0, 0))
  {
    var s := Slices(stats);
    assert s[..2] == s[..3 - 1] && s[..1] == s[..2][..2 - 1] && s[..1][..1 - 1] == [];
    assert Total(s[..1]) == stats.pendingOrders;
    assert Total(s[..2]) == stats.pendingOrders + stats.completedOrders;
  }

  /** The colour of the slice at `index`: `COLORS[index % COLORS.length]`. */
  function SliceColor(index: nat): (r: string)
    ensures r in Colors
    ensures r == Colors[index % 3]
  {
    Colors[index % |Colors|]
  }

  /** The summary card at `index < 3` takes `COLORS[index]`, and the slice of
      the same entry the same colour; the three entries' colours differ. */
  lemma ColorsMatchCards()
    ensures forall i :: 0 <= i < 3 ==> SliceColor(i) == Colors[i]
    ensures forall i, j :: 0 <= i < j < 3 ==> SliceColor(i) != SliceColor(j)
  {
  }

  datatype StatsReply = Stats(stats: OrderStats) | Failed

  datatype ChartCard = ChartCard(data: seq<Slice>, loading: bool, error: Option<string>)

  const Initial := ChartCard([], true, None)

  /** The effect: without a stored email no request is made and the card
      reports it; a reply sets the three slices; a failure reports it and
      keeps the data. Loading ends in every case. */
  function Load(c: ChartCard, email: Option<string>, reply: StatsReply): (r: (ChartCard, Option<string>))
    ensures !r.0.loading
    ensures r.1.Some? <==> Truthy(email)
    ensures r.1.Some? ==> r.1.value == "/api/farmers/statistics/" + email.value
    ensures !Truthy(email) ==> r.0.error == Some("No email found") && r.0.data == c.data
    ensures Truthy(email) && reply.Failed? ==> r.0.error == Some("Failed to load data") && r.0.data == c.data
    ensures Truthy(email) && reply.Stats? ==> r.0.error == c.error && r.0.data == Slices(reply.stats)
  {
    if !Truthy(email) then (c.(error := Some("No email found"), loading := false), None)
    else
      var url := "/api/farmers/statistics/" + email.value;
      match reply
      case Stats(stats) => (c.(data := Slices(stats), loading := false), Some(url))
      case Failed => (c.(error := Some("Failed to load data"), loading := false), Some(url))
  }

  datatype View = Spinner | ErrorNote(message: string) | NoOrders | Chart(slices: seq<Slice>, total: int)

  /** What the card shows, in this order of precedence: the spinner while
      loading, then the error, then "No orders yet" when the total is zero,
      then the chart with its total. */
  function Render(c: ChartCard): (r: View)
    ensures r.Spinner? <==> c.loading
    ensures r.ErrorNote? <==> !c.loading && Truthy(c.error)
    ensures r.ErrorNote? ==> r.message == c.error.value
    ensures r.NoOrders? <==> !c.loading && !Truthy(c.error) && Total(c.data) == 0
    ensures r.Chart? ==> r.slices == c.data && r.total == Total(c.data) != 0
  {
    if c.loading then Spinner
    else if Truthy(c.error) then ErrorNote(c.error.value)
    else if Total(c.data) == 0 then NoOrders
    else Chart(c.data, Total(c.data))
  }

  /** After a reply, the card shows the chart exactly when some order
      exists (for counts that are not negative), with the three counts'
      sum as its total. */
  lemma ReplyShowsChart(email: string, stats: OrderStats)
    requires email != ""
    requires stats.pendingOrders >= 0 && stats.completedOrders >= 0 && stats.cancelledOrders >= 0
    ensures var v := Render(Load(Initial, Some(email), Stats(stats)).0);
      && (v.Chart? <==> stats != OrderStats(0, 0, 0))
      && (v.Chart? ==> v.total == stats.pendingOrders + stats.completedOrders + stats.cancelledOrders)
      && (v.NoOrders? <==> stats == OrderStats(0, 0, 0))
  {
    TotalOfSlices(stats);
  }
}
