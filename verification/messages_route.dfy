/** The `/messages` route: the chat log is append-only; `GET` reads every
    message back newest first, `POST` appends one message stamped with the
    current time. The clock is the parameter `now`. */
module MessagesRoute {
  import opened Web
  import opened MessageSchema

  /** The stored messages in insertion order. */
  type Log = seq<Message>

  /** Ordered by timestamp, newest first (`sort({ timestamp: -1 })`). */
  predicate NewestFirst(s: seq<Message>) {
    forall i, j :: 0 <= i < j < |s| ==> s[i].timestamp >= s[j].timestamp
  }

  /** Place `m` into a list ahead of the first message it is not older
      than. */
  function Insert(m: Message, sorted: seq<Message>): (r: seq<Message>)
    ensures multiset(r) == multiset(sorted) + multiset{m}
    decreases |sorted|
  {
    if |sorted| == 0 then [m]
    else if m.timestamp >= sorted[0].timestamp then [m] + sorted
    else
      assert sorted == [sorted[0]] + sorted[1..];
      [sorted[0]] + Insert(m, sorted[1..])
  }

  /** Inserting a message no newer than `t` into a list no newer than `t`
      gives a list no newer than `t`. */
  lemma {:induction false} InsertBelow(m: Message, sorted: seq<Message>, t: int)
    requires m.timestamp <= t
    requires forall i :: 0 <= i < |sorted| ==> sorted[i].timestamp <= t
    ensures forall i :: 0 <= i < |Insert(m, sorted)| ==> Insert(m, sorted)[i].timestamp <= t
    decreases |sorted|
  {
    if |sorted| > 0 && m.timestamp < sorted[0].timestamp {
      var rest := Insert(m, sorted[1..]);
      InsertBelow(m, sorted[1..], t);
      var r := [sorted[0]] + rest;
      assert Insert(m, sorted) == r;
      forall i | 0 < i < |r|
        ensures r[i].timestamp <= t
      {
        assert r[i] == rest[i - 1];
      }
    }
  }

  /** A message no older than every message of a newest-first list can
      head it. */
  lemma NewestFirstCons(x: Message, rest: seq<Message>)
    requires NewestFirst(rest)
    requires forall i :: 0 <= i < |rest| ==> rest[i].timestamp <= x.timestamp
    ensures NewestFirst([x] + rest)
  {
    var r := [x] + rest;
    forall i, j | 0 <= i < j < |r|
      ensures r[i].timestamp >= r[j].timestamp
    {
      assert r[j] == rest[j - 1];
      if i > 0 {
        assert r[i] == rest[i - 1];
      }
    }
  }

  /** The tail of a newest-first list is newest first. */
  lemma NewestFirstTail(s: seq<Message>)
    requires |s| > 0 && NewestFirst(s)
    ensures NewestFirst(s[1..])
  {
    forall i, j | 0 <= i < j < |s| - 1
      ensures s[1..][i].timestamp >= s[1..][j].timestamp
    {
      assert s[1..][i] == s[i + 1] && s[1..][j] == s[j + 1];
    }
  }

  /** Inserting into a newest-first list keeps it newest first. */
  lemma {:induction false} InsertKeepsOrder(m: Message, sorted: seq<Message>)
    requires NewestFirst(sorted)
    ensures NewestFirst(Insert(m, sorted))
    decreases |sorted|
  {
    if |sorted| == 0 {
      assert Insert(m, sorted) == [m];
    } else if m.timestamp >= sorted[0].timestamp {
      assert Insert(m, sorted) == [m] + sorted;
      NewestFirstCons(m, sorted);
    } else {
      var tail := sorted[1..];
      NewestFirstTail(sorted);
      InsertKeepsOrder(m, tail);
      assert forall i :: 0 <= i < |tail| ==> tail[i] == sorted[i + 1];
      InsertBelow(m, tail, sorted[0].timestamp);
      assert Insert(m, sorted) == [sorted[0]] + Insert(m, tail);
      NewestFirstCons(sorted[0], Insert(m, tail));
    }
  }

  /** Insertion sort, newest first. */
  function SortNewestFirst(s: seq<Message>): (r: seq<Message>)
    ensures NewestFirst(r)
    ensures multiset(r) == multiset(s)
    decreases |s|
  {
    if |s| == 0 then []
    else
      assert s == [s[0]] + s[1..];
      var rest := SortNewestFirst(s[1..]);
      InsertKeepsOrder(s[0], rest);
      Insert(s[0], rest)
  }

  /** `GET`: every stored message exactly once, newest first. The log is
      not changed: `Get` returns only the listing. */
  function Get(log: Log): (r: seq<Message>)
    ensures NewestFirst(r)
    ensures multiset(r) == multiset(log)
  {
    SortNewestFirst(log)
  }

  /** The JSON body of a `POST`; either field may be missing. */
  datatype PostBody = PostBody(senderEmail: Option<string>, content: Option<string>)

  /** `Created` is status 201 with the stored message; a message the model
      rejects throws out of the handler, which answers 500. */
  datatype PostResponse = Created(message: Message) | ServerError

  function Status(r: PostResponse): int {
    if r.Created? then 201 else 500
  }

  /** `POST`: create one message from the body, stamped `now`, and append it. */
  function Post(log: Log, body: PostBody, now: int): (r: (Log, PostResponse))
    ensures Status(r.1) == 201 <==> Truthy(body.senderEmail) && Truthy(body.content)
    ensures r.1.Created? ==>
      && r.1.message == Message(body.senderEmail.value, body.content.value, now)
      && r.0 == log + [r.1.message]
    ensures r.1.ServerError? ==> r.0 == log
    ensures |r.0| <= |log| + 1 && r.0[..|log|] == log
  {
    match Create(MessageDraft(body.senderEmail, body.content, Some(now)), now)
    case Some(m) => (log + [m], Created(m))
    case None => (log, ServerError)
  }

  /** A message posted later than everything stored is the first one the
      next `GET` returns. */
  lemma PostedMessageReadFirst(log: Log, body: PostBody, now: int)
    requires forall i :: 0 <= i < |log| ==> log[i].timestamp < now
    requires Post(log, body, now).1.Created?
    ensures var r := Post(log, body, now);
      |Get(r.0)| > 0 && Get(r.0)[0] == r.1.message
  {
    var r := Post(log, body, now);
    var m := r.1.message;
    var listing := Get(r.0);
    assert m in multiset(r.0);
    assert |listing| > 0;
    var first := listing[0];
    assert first in multiset(r.0);
    var k :| 0 <= k < |listing| && listing[k] == m;
    assert first.timestamp >= m.timestamp;
    assert first in r.0;
    assert first.timestamp >= now;
    assert first !in log;
  }
}
