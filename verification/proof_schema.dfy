/** The `Proof` collection: one proof-of-payment document per order, with
    the upsert and lookup the upload route performs on it. */
module ProofSchema {
  import opened Web

  /** One stored proof: the order it belongs to, where the uploaded file is
      served from, and when it was stored. */
  datatype ProofRecord = ProofRecord(orderId: int, proofUrl: string, uploadedAt: int)

  /** The fields handed to the schema before validation; `None` is a field
      that was not supplied. */
  datatype ProofDraft = ProofDraft(orderId: Option<int>, proofUrl: Option<string>, uploadedAt: Option<int>)

  /** The documents of the collection in storage order. */
  type Proofs = seq<ProofRecord>

  /** Validating a draft against the schema: `orderId` and `proofUrl` are
      required (a required string must also be non-empty), and a missing
      `uploadedAt` takes the creation time `now`. */
  function Create(d: ProofDraft, now: int): (r: Option<ProofRecord>)
    ensures r.Some? <==> d.orderId.Some? && Truthy(d.proofUrl)
    ensures r.Some? ==> r.value.orderId == d.orderId.value && r.value.proofUrl == d.proofUrl.value
    ensures r.Some? && d.uploadedAt.None? ==> r.value.uploadedAt == now
    ensures r.Some? && d.uploadedAt.Some? ==> r.value.uploadedAt == d.uploadedAt.value
  {
    if d.orderId.Some? && Truthy(d.proofUrl) then
      Some(ProofRecord(d.orderId.value, d.proofUrl.value, d.uploadedAt.GetOr(now)))
    else
      None
  }

  /** The unique index on `orderId`: no two documents share an order. */
  predicate UniqueOrderIds(c: Proofs) {
    forall i, j :: 0 <= i < j < |c| ==> c[i].orderId != c[j].orderId
  }

  predicate HasOrder(c: Proofs, id: int) {
    exists i :: 0 <= i < |c| && c[i].orderId == id
  }

  /** A non-empty collection holds an order iff its first document or the
      rest does. */
  lemma HasOrderCons(c: Proofs, k: int)
    requires |c| > 0
    ensures HasOrder(c, k) <==> c[0].orderId == k || HasOrder(c[1..], k)
  {
    if HasOrder(c, k) && c[0].orderId != k {
      var i :| 0 <= i < |c| && c[i].orderId == k;
      assert c[1..][i - 1].orderId == k;
    }
    if HasOrder(c[1..], k) {
      var i :| 0 <= i < |c[1..]| && c[1..][i].orderId == k;
      assert c[i + 1].orderId == k;
    }
  }

  /** `findOne({ orderId: id })`: the first document for the order. */
  function FindOne(c: Proofs, id: int): (r: Option<ProofRecord>)
    ensures r.Some? <==> HasOrder(c, id)
    ensures r.Some? ==> r.value in c && r.value.orderId == id
    decreases |c|
  {
    if |c| == 0 then None
    else if c[0].orderId == id then Some(c[0])
    else
      HasOrderCons(c, id);
      FindOne(c[1..], id)
  }

  /** `findOneAndUpdate({ orderId: id }, { proofUrl, uploadedAt }, { upsert:
      true })`: overwrite the first document for the order, or append a new
      one when there is none. Never more than one document is added. */
  function Upsert(c: Proofs, id: int, url: string, at: int): (r: Proofs)
    ensures HasOrder(c, id) ==> |r| == |c|
    ensures !HasOrder(c, id) ==> |r| == |c| + 1
    decreases |c|
  {
    if |c| == 0 then [ProofRecord(id, url, at)]
    else if c[0].orderId == id then [c[0].(proofUrl := url, uploadedAt := at)] + c[1..]
    else
      HasOrderCons(c, id);
      [c[0]] + Upsert(c[1..], id, url, at)
  }

  /** After the upsert, looking the order up yields the new proof. */
  lemma {:induction false} UpsertThenFind(c: Proofs, id: int, url: string, at: int)
    ensures FindOne(Upsert(c, id, url, at), id) == Some(ProofRecord(id, url, at))
    decreases |c|
  {
    if |c| > 0 && c[0].orderId != id {
      UpsertThenFind(c[1..], id, url, at);
    }
  }

  /** The upsert leaves every other order's proof as it was. */
  lemma {:induction false} UpsertKeepsOthers(c: Proofs, id: int, url: string, at: int, k: int)
    requires k != id
    ensures FindOne(Upsert(c, id, url, at), k) == FindOne(c, k)
    decreases |c|
  {
    if |c| > 0 && c[0].orderId != id {
      UpsertKeepsOthers(c[1..], id, url, at, k);
    }
  }

  /** Every order in the result was already stored, or is the upserted one. */
  lemma {:induction false} UpsertOrders(c: Proofs, id: int, url: string, at: int, k: int)
    requires HasOrder(Upsert(c, id, url, at), k)
    ensures k == id || HasOrder(c, k)
    decreases |c|
  {
    if |c| > 0 {
      var r := Upsert(c, id, url, at);
      HasOrderCons(r, k);
      HasOrderCons(c, k);
      if c[0].orderId == id {
        assert r[1..] == c[1..];
      } else if r[0].orderId != k {
        UpsertOrders(c[1..], id, url, at, k);
      }
    }
  }

  /** The upsert keeps the unique index intact: at most one proof per order. */
  lemma {:induction false} UpsertKeepsUnique(c: Proofs, id: int, url: string, at: int)
    requires UniqueOrderIds(c)
    ensures UniqueOrderIds(Upsert(c, id, url, at))
    decreases |c|
  {
    if |c| > 0 && c[0].orderId != id {
      var rest := Upsert(c[1..], id, url, at);
      UpsertKeepsUnique(c[1..], id, url, at);
      var r := Upsert(c, id, url, at);
      assert r == [c[0]] + rest;
      forall j | 0 < j < |r|
        ensures r[0].orderId != r[j].orderId
      {
        var x := rest[j - 1].orderId;
        assert HasOrder(rest, x);
        UpsertOrders(c[1..], id, url, at, x);
        if x != id {
          var i :| 0 <= i < |c[1..]| && c[1..][i].orderId == x;
          assert c[i + 1].orderId == x;
        }
      }
    }
  }
}
