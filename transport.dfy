/**
 The network as the core sees it. A `Backend` is a calculation server that
 answers successive POSTs with a fixed queue of replies (the oracle for the
 retry loops) and records every payload sent to it. An `Oracle` is a service
 answering each question with a fixed function, and recording the questions
 asked. `FirstStop` is the specification of a bounded retry loop.
 */
module Transport {
  import opened PyJson

  /** An HTTP response: its status code and its body decoded as JSON (None
      when the body is not valid JSON). */
  datatype Response = Response(status: int, body: Option<Json>)

  /** The outcome of one `requests.post`: either the call raised (timeout,
      refused connection) or a response was delivered. */
  datatype Reply = Unreachable | Delivered(response: Response)

  /** The reply to the i-th POST: once the queue is exhausted the server
      is unreachable. */
  function ReplyAt(replies: seq<Reply>, i: nat): Reply {
    if i < |replies| then replies[i] else Unreachable
  }

  /** The queue after k POSTs. */
  function Drop(replies: seq<Reply>, k: nat): seq<Reply> {
    if k <= |replies| then replies[k..] else []
  }

  class Backend {
    var pending: seq<Reply>
    var sent: seq<Json>

    constructor (replies: seq<Reply>)
      ensures pending == replies && sent == []
    {
      pending := replies;
      sent := [];
    }

    method Post(payload: Json) returns (reply: Reply)
      modifies this
      ensures reply == ReplyAt(old(pending), 0)
      ensures pending == Drop(old(pending), 1)
      ensures sent == old(sent) + [payload]
    {
      if pending == [] {
        reply := Unreachable;
      } else {
        reply := pending[0];
        pending := pending[1..];
      }
      sent := sent + [payload];
    }
  }

  class Oracle<Q, A> {
    const answer: Q -> A
    var asked: seq<Q>

    constructor (answer: Q -> A)
      ensures this.answer == answer && asked == []
    {
      this.answer := answer;
      asked := [];
    }

    method Ask(q: Q) returns (a: A)
      modifies this
      ensures a == answer(q)
      ensures asked == old(asked) + [q]
    {
      a := answer(q);
      asked := asked + [q];
    }
  }

  /** The index of the first of at most `limit` attempts whose reply ends a
      retry loop (`stops`), if any. */
  function FirstStop(replies: seq<Reply>, stops: Reply -> bool, limit: nat): (r: Option<nat>)
    ensures r.Some? ==> r.value < limit && stops(ReplyAt(replies, r.value))
    ensures r.Some? ==> forall j :: 0 <= j < r.value ==> !stops(ReplyAt(replies, j))
    ensures r.None? ==> forall j :: 0 <= j < limit ==> !stops(ReplyAt(replies, j))
  {
    FirstStopFrom(replies, stops, 0, limit)
  }

  /** `FirstStop` scanning the attempts `from` .. `limit` - 1. */
  function FirstStopFrom(replies: seq<Reply>, stops: Reply -> bool, from: nat, limit: nat): (r: Option<nat>)
    requires from <= limit
    ensures r.Some? ==> from <= r.value < limit && stops(ReplyAt(replies, r.value))
    ensures r.Some? ==> forall j :: from <= j < r.value ==> !stops(ReplyAt(replies, j))
    ensures r.None? ==> forall j :: from <= j < limit ==> !stops(ReplyAt(replies, j))
    decreases limit - from
  {
    if from == limit then None
    else if stops(ReplyAt(replies, from)) then Some(from)
    else FirstStopFrom(replies, stops, from + 1, limit)
  }

  /** The attempt found by `FirstStop` is the one a loop that stops at the
      first stopping reply finds: any index meeting the same description
      is that index. */
  lemma FirstStopUnique(replies: seq<Reply>, stops: Reply -> bool, limit: nat, i: nat)
    requires i < limit && stops(ReplyAt(replies, i))
    requires forall j :: 0 <= j < i ==> !stops(ReplyAt(replies, j))
    ensures FirstStop(replies, stops, limit) == Some(i)
  {
  }

  /** The number of POSTs a loop bounded by `limit` makes. */
  function AttemptsMade(replies: seq<Reply>, stops: Reply -> bool, limit: nat): (n: nat)
    ensures n <= limit
  {
    var r := FirstStop(replies, stops, limit);
    if r.Some? then r.value + 1 else limit
  }

  /** `log` is `before` followed by `n` copies of `payload`: the same request
      resent, never modified. */
  predicate ResentOnly(log: seq<Json>, before: seq<Json>, payload: Json, n: nat) {
    |log| == |before| + n && log[..|before|] == before
    && forall i :: |before| <= i < |log| ==> log[i] == payload
  }

  /** One more POST takes the next reply and shortens the queue by one. */
  lemma DropStep(replies: seq<Reply>, k: nat)
    ensures ReplyAt(Drop(replies, k), 0) == ReplyAt(replies, k)
    ensures Drop(Drop(replies, k), 1) == Drop(replies, k + 1)
  {
  }

  /** Sending `payload` once more extends a resend log by one. */
  lemma ResentOneMore(log: seq<Json>, before: seq<Json>, payload: Json, n: nat)
    requires ResentOnly(log, before, payload, n)
    ensures ResentOnly(log + [payload], before, payload, n + 1)
  {
    assert (log + [payload])[..|before|] == log[..|before|];
  }
}
