/** The `/api/orders/upload-proof` route: `POST` stores an uploaded
    proof-of-payment file and upserts its URL for the order; `GET` looks the
    URL up. The database and the upload directory are one `Server` value; the
    clock, the random file-name stem and I/O failures are parameters. */
module UploadProof {
  import opened Web
  import opened ProofSchema
  import Text

  type Byte = b: int | 0 <= b < 256

  /** An uploaded multipart file. */
  datatype File = File(name: string, bytes: seq<Byte>)

  /** The multipart form of a `POST`. `orderId` is the already-parsed order
      number; `None` stands for a field that is absent or empty. */
  datatype UploadForm = UploadForm(orderId: Option<int>, file: Option<File>)

  /** Where a request can fail on I/O: connecting to the database (before
      anything else), writing the upload directory, or the database
      operation itself. */
  datatype Fault = NoFault | ConnectFails | WriteFails | StoreFails

  /** The proof collection and the files under `public/uploads`. */
  datatype Server = Server(proofs: Proofs, uploads: map<string, seq<Byte>>)

  datatype Body =
    | Note(message: string)
    | Uploaded(message: string, proofUrl: string, orderId: int)
    | Found(proofUrl: string, orderId: int)

  datatype Response = Response(status: int, body: Body)

  const UploadDir := "/uploads/"

  /** The stored file's name: the random stem, a dot, and the text after the
      last dot of the uploaded name (all of it when it has no dot). */
  function StoredName(stem: string, file: File): string {
    stem + "." + Text.AfterLast(file.name, '.')
  }

  /** `POST`: validate the form, write the file, upsert the proof. */
  function Post(s: Server, form: UploadForm, stem: string, now: int, fault: Fault): (r: (Server, Response))
    ensures fault == ConnectFails ==> r == (s, Response(500, Note("Server error")))
    ensures fault != ConnectFails && (form.orderId.None? || form.file.None?) ==>
      r == (s, Response(400, Note("Missing orderId or file")))
    ensures r.1.status == 200 <==> fault == NoFault && form.orderId.Some? && form.file.Some?
    ensures r.1.status != 200 ==> r.0.proofs == s.proofs
    ensures fault != NoFault && form.orderId.Some? && form.file.Some? ==> r.1 == Response(500, Note("Server error"))
    ensures fault == WriteFails && form.orderId.Some? && form.file.Some? ==> r.0 == s
    ensures fault == StoreFails && form.orderId.Some? && form.file.Some? ==>
      r.0 == s.(uploads := s.uploads[StoredName(stem, form.file.value) := form.file.value.bytes])
    ensures r.1.status == 200 ==>
      var id := form.orderId.value;
      var name := StoredName(stem, form.file.value);
      && r.1.body == Uploaded("Proof uploaded successfully", UploadDir + name, id)
      && r.0.proofs == Upsert(s.proofs, id, UploadDir + name, now)
      && r.0.uploads == s.uploads[name := form.file.value.bytes]
  {
    if fault == ConnectFails then (s, Response(500, Note("Server error")))
    else if form.orderId.None? || form.file.None? then (s, Response(400, Note("Missing orderId or file")))
    else if fault == WriteFails then (s, Response(500, Note("Server error")))
    else
      var id := form.orderId.value;
      var name := StoredName(stem, form.file.value);
      var written := s.(uploads := s.uploads[name := form.file.value.bytes]);
      if fault == StoreFails then (written, Response(500, Note("Server error")))
      else
        assert fault == NoFault;
        var url := UploadDir + name;
        (written.(proofs := Upsert(s.proofs, id, url, now)),
         Response(200, Uploaded("Proof uploaded successfully", url, id)))
  }

  /** `GET ?orderId=`: validate, look up; a missing proof is a 404. */
  function Get(s: Server, orderId: Option<int>, fault: Fault): (r: Response)
    ensures fault != NoFault && (fault == ConnectFails || orderId.Some?) ==> r == Response(500, Note("Server error"))
    ensures fault != ConnectFails && orderId.None? ==> r == Response(400, Note("Missing orderId parameter"))
    ensures fault == NoFault && orderId.Some? && !HasOrder(s.proofs, orderId.value) ==>
      r == Response(404, Note("Proof not found"))
    ensures r.status == 200 <==> fault == NoFault && orderId.Some? && HasOrder(s.proofs, orderId.value)
    ensures r.status == 200 ==>
      exists p :: (p in s.proofs && p.orderId == orderId.value && r.body == Found(p.proofUrl, orderId.value))
  {
    if fault == ConnectFails then Response(500, Note("Server error"))
    else if orderId.None? then Response(400, Note("Missing orderId parameter"))
    else if fault != NoFault then Response(500, Note("Server error"))
    else
      match FindOne(s.proofs, orderId.value)
      case None => Response(404, Note("Proof not found"))
      case Some(p) => Response(200, Found(p.proofUrl, orderId.value))
  }

  /** The URL a successful upload returns names the stored file: it sits
      under the upload directory and keeps the uploaded file's extension. */
  lemma UploadUrlKeepsExtension(s: Server, form: UploadForm, stem: string, now: int, fault: Fault)
    requires Post(s, form, stem, now, fault).1.status == 200
    ensures var body := Post(s, form, stem, now, fault).1.body;
      var name := form.file.value.name;
      var ext := body.proofUrl[|body.proofUrl| - |Text.AfterLast(name, '.')|..];
      && body.Uploaded?
      && body.proofUrl[..|UploadDir|] == UploadDir
      && body.proofUrl[|body.proofUrl| - |ext| - 1] == '.'
      && '.' !in ext
      && ('.' in name ==> |name| > |ext| && name[|name| - |ext| - 1] == '.' && name[|name| - |ext|..] == ext)
      && ('.' !in name ==> ext == name)
  {
    var name := form.file.value.name;
    var ext := Text.AfterLast(name, '.');
    var url := UploadDir + StoredName(stem, form.file.value);
    assert url == UploadDir + stem + "." + ext;
    assert url[|url| - |ext|..] == ext;
  }

  /** One request against the route. */
  datatype Call =
    | PostCall(form: UploadForm, stem: string, now: int, fault: Fault)
    | GetCall(orderId: Option<int>, fault: Fault)

  /** The server after a sequence of requests; a `GET` leaves it as it was. */
  function Run(s: Server, calls: seq<Call>): Server
    decreases |calls|
  {
    if |calls| == 0 then s
    else
      var next := match calls[0]
        case PostCall(form, stem, now, fault) => Post(s, form, stem, now, fault).0
        case GetCall(_, _) => s;
      Run(next, calls[1..])
  }

  /** A request that is not a `POST` for order `k`. */
  predicate LeavesOrder(call: Call, k: int) {
    !(call.PostCall? && call.form.orderId == Some(k))
  }

  /** A `POST` for an order other than `k` does not change what `GET`
      returns for `k`. */
  lemma PostElsewhereKeepsLookup(s: Server, call: Call, k: int)
    requires call.PostCall? && LeavesOrder(call, k)
    ensures FindOne(Post(s, call.form, call.stem, call.now, call.fault).0.proofs, k) == FindOne(s.proofs, k)
  {
    var r := Post(s, call.form, call.stem, call.now, call.fault);
    if r.1.status == 200 {
      UpsertKeepsOthers(s.proofs, call.form.orderId.value, r.1.body.proofUrl, call.now, k);
    }
  }

  /** Round trip: once a `POST` for order `k` has returned URL `u`, a `GET`
      for `k` returns `u` for as long as no later `POST` names `k`, whatever
      else is requested in between. */
  lemma {:induction false} UploadThenGet(s: Server, form: UploadForm, stem: string, now: int, rest: seq<Call>)
    requires Post(s, form, stem, now, NoFault).1.status == 200
    requires forall i :: 0 <= i < |rest| ==> LeavesOrder(rest[i], form.orderId.value)
    ensures var posted := Post(s, form, stem, now, NoFault);
      Get(Run(posted.0, rest), form.orderId, NoFault)
        == Response(200, Found(posted.1.body.proofUrl, form.orderId.value))
  {
    var posted := Post(s, form, stem, now, NoFault);
    var k := form.orderId.value;
    UpsertThenFind(s.proofs, k, posted.1.body.proofUrl, now);
    KeepsLookup(posted.0, rest, k);
  }

  /** Requests that do not `POST` for order `k` leave its lookup unchanged. */
  lemma {:induction false} KeepsLookup(s: Server, calls: seq<Call>, k: int)
    requires forall i :: 0 <= i < |calls| ==> LeavesOrder(calls[i], k)
    ensures FindOne(Run(s, calls).proofs, k) == FindOne(s.proofs, k)
    decreases |calls|
  {
    if |calls| > 0 {
      var next := match calls[0]
        case PostCall(form, stem, now, fault) => Post(s, form, stem, now, fault).0
        case GetCall(_, _) => s;
      if calls[0].PostCall? {
        PostElsewhereKeepsLookup(s, calls[0], k);
      }
      KeepsLookup(next, calls[1..], k);
    }
  }

  /** Any run of requests from a store with the unique index keeps it: no
      order ever has two proofs. */
  lemma {:induction false} RunKeepsUnique(s: Server, calls: seq<Call>)
    requires UniqueOrderIds(s.proofs)
    ensures UniqueOrderIds(Run(s, calls).proofs)
    decreases |calls|
  {
    if |calls| > 0 {
      var next := match calls[0]
        case PostCall(form, stem, now, fault) => Post(s, form, stem, now, fault).0
        case GetCall(_, _) => s;
      if calls[0].PostCall? {
        var c := calls[0];
        var r := Post(s, c.form, c.stem, c.now, c.fault);
        if r.1.status == 200 {
          UpsertKeepsUnique(s.proofs, c.form.orderId.value, r.1.body.proofUrl, c.now);
        }
      }
      RunKeepsUnique(next, calls[1..]);
    }
  }
}
