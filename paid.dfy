/**
 * The `/paid` handler: validate the hash and txid, find the first stored
 * record with that hash, stamp it with the txid and the time, and request
 * the mainchain payout. There is no state field and no duplicate check, and
 * the payment verification never stops the payout: the verifiers are async,
 * so `!verify(...)` negates a Promise and is always false.
 */
module PaidHandler {
  import opened Wrappers
  import opened Js
  import opened Records

  datatype Body = Body(hash: Value, txid: Value)

  /** The clock reading for `paid_at`, and the `sendtoaddress` reply (None when it throws). */
  datatype Replies = Replies(paidAt: string, payout: Option<string>)

  datatype PaidError = HashOrTxidMissing | HashOrTxidNotStrings | RequestNotFound

  /**
   * A rejection, or the payout branch: the index of the stamped record, the
   * record as returned, whether the "Invalid L2 chain name" error was sent
   * before falling through, and the payout txid (None when `sendtoaddress`
   * threw after the record was stamped).
   */
  datatype Outcome =
    | Rejected(error: PaidError)
    | PaidOut(index: nat, request: Request, chainNotice: bool, payoutTxid: Option<string>)

  /** The store afterwards, the outcome, and the calls issued. */
  datatype Paid = Paid(requests: seq<Request>, outcome: Outcome, calls: seq<Call>)

  /** `withdrawalRequests.find(req => req.hash === hash)`, as an index. */
  function FirstMatch(requests: seq<Request>, hash: string): (r: Option<nat>)
    ensures r.Some? ==> r.value < |requests| && requests[r.value].hash == hash
    ensures r.Some? ==> forall k :: 0 <= k < r.value ==> requests[k].hash != hash
    ensures r.None? ==> forall k :: 0 <= k < |requests| ==> requests[k].hash != hash
  {
    if |requests| == 0 then None
    else if requests[0].hash == hash then Some(0)
    else
      match FirstMatch(requests[1..], hash)
      case None => None
      case Some(i) => Some(i + 1)
  }

  /** The record with `txid` and `paid_at` written into it. */
  function Stamp(r: Request, txid: string, paidAt: string): Request {
    r.(txid := Some(txid), paidAt := Some(paidAt))
  }

  /** The verification branch answers only for a chain name outside the two known ones. */
  predicate ChainNotice(chainName: string) {
    !KnownChain(chainName)
  }

  /** The whole `/paid` handler on the store `requests`. */
  function Handle(requests: seq<Request>, body: Body, replies: Replies): (p: Paid)
    ensures p.outcome.Rejected? ==> p.requests == requests && p.calls == []
    ensures p.outcome.Rejected? <==>
      || !Truthy(body.hash) || !Truthy(body.txid) || !body.hash.Str? || !body.txid.Str?
      || FirstMatch(requests, body.hash.s).None?
    ensures p.outcome.PaidOut? ==>
      var i := p.outcome.index;
      && FirstMatch(requests, body.hash.s) == Some(i)
      && |p.requests| == |requests|
      && p.requests[i] == p.outcome.request
      && p.outcome.request == Stamp(requests[i], body.txid.s, replies.paidAt)
      && (forall k :: 0 <= k < |requests| && k != i ==> p.requests[k] == requests[k])
      && p.calls == [SendToAddress(requests[i].fields.withdrawalDestination, requests[i].fields.withdrawalAmount)]
      && p.outcome.payoutTxid == replies.payout
  {
    if !Truthy(body.hash) || !Truthy(body.txid) then Paid(requests, Rejected(HashOrTxidMissing), [])
    else if !body.hash.Str? || !body.txid.Str? then Paid(requests, Rejected(HashOrTxidNotStrings), [])
    else
      match FirstMatch(requests, body.hash.s)
      case None => Paid(requests, Rejected(RequestNotFound), [])
      case Some(i) =>
        var stamped := Stamp(requests[i], body.txid.s, replies.paidAt);
        Paid(requests[i := stamped],
             PaidOut(i, stamped, ChainNotice(stamped.fields.layer2ChainName), replies.payout),
             [SendToAddress(stamped.fields.withdrawalDestination, stamped.fields.withdrawalAmount)])
  }

  /** The `error` text of each rejection. */
  function Message(e: PaidError): string {
    match e
    case HashOrTxidMissing => "Both hash and txid are required"
    case HashOrTxidNotStrings => "Both hash and txid must be strings"
    case RequestNotFound => "No withdrawal request found with the provided hash"
  }

  // ---------------------------------------------------------------------
  // Properties of the handler
  // ---------------------------------------------------------------------

  /** Each rejection, in the handler's order; none changes the store or calls out. */
  lemma Rejections(requests: seq<Request>, body: Body, replies: Replies)
    ensures var p := Handle(requests, body, replies);
      && (!Truthy(body.hash) || !Truthy(body.txid) ==> p == Paid(requests, Rejected(HashOrTxidMissing), []))
      && (Truthy(body.hash) && Truthy(body.txid) && (!body.hash.Str? || !body.txid.Str?) ==>
            p == Paid(requests, Rejected(HashOrTxidNotStrings), []))
      && (body.hash.Str? && body.txid.Str? && body.hash.s != "" && body.txid.s != "" ==>
            (p == Paid(requests, Rejected(RequestNotFound), []) <==>
               forall k :: 0 <= k < |requests| ==> requests[k].hash != body.hash.s))
  {
  }

  /**
   * Only the first record with the hash is touched, and only its `txid` and
   * `paid_at`: a later record with the same hash is never reached.
   */
  lemma OnlyFirstMatchStamped(requests: seq<Request>, body: Body, replies: Replies, j: nat)
    requires j < |requests|
    requires body.hash.Str? && requests[j].hash == body.hash.s
    requires Truthy(body.hash) && body.txid.Str? && body.txid.s != ""
    ensures var p := Handle(requests, body, replies);
      && p.outcome.PaidOut? && p.outcome.index <= j
      && (p.outcome.index < j ==> p.requests[j] == requests[j])
      && p.requests[p.outcome.index].fields == requests[p.outcome.index].fields
      && p.requests[p.outcome.index].hash == requests[p.outcome.index].hash
      && p.requests[p.outcome.index].txid == Some(body.txid.s)
      && p.requests[p.outcome.index].paidAt == Some(replies.paidAt)
  {
  }

  /** Stamping keeps every hash, so it does not change what a later find returns. */
  lemma {:induction false} FirstMatchIgnoresStamps(requests: seq<Request>, updated: seq<Request>, hash: string)
    requires |updated| == |requests|
    requires forall k :: 0 <= k < |requests| ==> updated[k].hash == requests[k].hash
    ensures FirstMatch(updated, hash) == FirstMatch(requests, hash)
  {
    if |requests| > 0 && requests[0].hash != hash {
      FirstMatchIgnoresStamps(requests[1..], updated[1..], hash);
    }
  }

  /**
   * A store of well-formed records names only the two known chains, so the
   * verification branch never answers, and the payout goes out all the same.
   */
  lemma PayoutWhateverVerification(requests: seq<Request>, digest: Digest, body: Body, replies: Replies)
    requires AllWellFormed(requests, digest)
    ensures var p := Handle(requests, body, replies);
      p.outcome.PaidOut? ==>
        && !p.outcome.chainNotice
        && |p.calls| == 1 && p.calls[0].SendToAddress?
        && AllWellFormed(p.requests, digest)
  {
  }

  /**
   * A second `/paid` with the same hash and txid stamps the same record again
   * and requests the same payout again.
   */
  lemma RepeatPaysAgain(requests: seq<Request>, body: Body, first: Replies, second: Replies)
    requires Handle(requests, body, first).outcome.PaidOut?
    ensures var p1 := Handle(requests, body, first);
            var p2 := Handle(p1.requests, body, second);
      && p2.outcome.PaidOut?
      && p2.outcome.index == p1.outcome.index
      && p2.calls == p1.calls
      && p2.requests == requests[p1.outcome.index := Stamp(requests[p1.outcome.index], body.txid.s, second.paidAt)]
  {
    var p1 := Handle(requests, body, first);
    FirstMatchIgnoresStamps(requests, p1.requests, body.hash.s);
  }
}
