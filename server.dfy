/**
 * The server's state: the module-level `withdrawalRequests` array, appended
 * to by `/withdraw` and searched and stamped in place by `/paid`.
 */
module Server {
  import opened Wrappers
  import opened Js
  import opened Records
  import WithdrawHandler
  import PaidHandler

  class WithdrawalServer {
    /** `withdrawalRequests`, oldest first. */
    var requests: seq<Request>
    /** SHA-256 over `JSON.stringify` of a record's fields. */
    const digest: Digest
    /** The string reading of `Number.parseFloat`. */
    const parseText: string -> Option<real>

    ghost predicate Valid()
      reads this
    {
      AllWellFormed(requests, digest)
    }

    /** The server starts with no requests. */
    constructor (digest: Digest, parseText: string -> Option<real>)
      ensures Valid()
      ensures requests == [] && this.digest == digest && this.parseText == parseText
    {
      this.digest := digest;
      this.parseText := parseText;
      requests := [];
    }

    /**
     * `POST /withdraw`: a rejection or a call that threw leaves the store as
     * it was; a stored record is pushed onto the end and nothing before it
     * changes.
     */
    method Withdraw(body: WithdrawHandler.Body, replies: WithdrawHandler.Replies) returns (w: WithdrawHandler.Withdrawal)
      requires Valid()
      modifies this
      ensures Valid()
      ensures w == WithdrawHandler.Handle(body, replies, parseText, digest)
      ensures requests == old(requests) + (if w.outcome.Stored? then [w.outcome.request] else [])
    {
      w := WithdrawHandler.Handle(body, replies, parseText, digest);
      if w.outcome.Stored? {
        requests := requests + [w.outcome.request];
      }
    }

    /**
     * `POST /paid`: rejections leave the store as it was; otherwise the first
     * record with the hash gets its `txid`, then its `paid_at`, written in
     * place, and the payout of its destination and amount is requested.
     */
    method Paid(body: PaidHandler.Body, replies: PaidHandler.Replies)
      returns (outcome: PaidHandler.Outcome, calls: seq<Call>)
      requires Valid()
      modifies this
      ensures Valid()
      ensures var p := PaidHandler.Handle(old(requests), body, replies);
              requests == p.requests && outcome == p.outcome && calls == p.calls
      ensures outcome.PaidOut? ==> !outcome.chainNotice
    {
      if !Truthy(body.hash) || !Truthy(body.txid) {
        return PaidHandler.Rejected(PaidHandler.HashOrTxidMissing), [];
      }
      if !body.hash.Str? || !body.txid.Str? {
        return PaidHandler.Rejected(PaidHandler.HashOrTxidNotStrings), [];
      }
      var found := PaidHandler.FirstMatch(requests, body.hash.s);
      if found.None? {
        return PaidHandler.Rejected(PaidHandler.RequestNotFound), [];
      }
      var i := found.value;
      // The verification branch: a Promise is truthy, so only an unknown chain name answers.
      var chainNotice := PaidHandler.ChainNotice(requests[i].fields.layer2ChainName);
      requests := requests[i := requests[i].(txid := Some(body.txid.s))];
      requests := requests[i := requests[i].(paidAt := Some(replies.paidAt))];
      calls := [SendToAddress(requests[i].fields.withdrawalDestination, requests[i].fields.withdrawalAmount)];
      outcome := PaidHandler.PaidOut(i, requests[i], chainNotice, replies.payout);
    }
  }

  /** One request to the server, with the replies its awaited calls get. */
  datatype Op =
    | WithdrawOp(wBody: WithdrawHandler.Body, wReplies: WithdrawHandler.Replies)
    | PaidOp(pBody: PaidHandler.Body, pReplies: PaidHandler.Replies)

  /** The store after one request. */
  function Step(requests: seq<Request>, op: Op, parseText: string -> Option<real>, digest: Digest): seq<Request> {
    match op
    case WithdrawOp(b, r) =>
      var w := WithdrawHandler.Handle(b, r, parseText, digest);
      if w.outcome.Stored? then requests + [w.outcome.request] else requests
    case PaidOp(b, r) => PaidHandler.Handle(requests, b, r).requests
  }

  /** The store after a sequence of requests, handled one after another. */
  function Run(requests: seq<Request>, ops: seq<Op>, parseText: string -> Option<real>, digest: Digest): seq<Request>
    decreases |ops|
  {
    if |ops| == 0 then requests
    else Run(Step(requests, ops[0], parseText, digest), ops[1..], parseText, digest)
  }

  /** The number of payouts a sequence of requests asks for. */
  function Payouts(requests: seq<Request>, ops: seq<Op>, parseText: string -> Option<real>, digest: Digest): nat
    decreases |ops|
  {
    if |ops| == 0 then 0
    else
      var here := if ops[0].PaidOp? then |PaidHandler.Handle(requests, ops[0].pBody, ops[0].pReplies).calls| else 0;
      here + Payouts(Step(requests, ops[0], parseText, digest), ops[1..], parseText, digest)
  }

  /** The store is append-only: no request removes a record or changes its fields or hash. */
  lemma {:induction false} RunAppendOnly(requests: seq<Request>, ops: seq<Op>, parseText: string -> Option<real>, digest: Digest)
    ensures var after := Run(requests, ops, parseText, digest);
      && |requests| <= |after|
      && forall k :: 0 <= k < |requests| ==>
           after[k].fields == requests[k].fields && after[k].hash == requests[k].hash
    decreases |ops|
  {
    if |ops| > 0 {
      var next := Step(requests, ops[0], parseText, digest);
      assert |requests| <= |next|;
      assert forall k :: 0 <= k < |requests| ==> next[k].fields == requests[k].fields && next[k].hash == requests[k].hash;
      RunAppendOnly(next, ops[1..], parseText, digest);
    }
  }

  /** Every record of the store, however it was reached, names a known chain and carries the fee. */
  lemma {:induction false} RunKeepsWellFormed(requests: seq<Request>, ops: seq<Op>, parseText: string -> Option<real>, digest: Digest)
    requires AllWellFormed(requests, digest)
    ensures AllWellFormed(Run(requests, ops, parseText, digest), digest)
    decreases |ops|
  {
    if |ops| > 0 {
      var next := Step(requests, ops[0], parseText, digest);
      if ops[0].PaidOp? {
        PaidHandler.PayoutWhateverVerification(requests, digest, ops[0].pBody, ops[0].pReplies);
      }
      assert AllWellFormed(next, digest);
      RunKeepsWellFormed(next, ops[1..], parseText, digest);
    }
  }

  /**
   * Replaying the same successful `/paid` n times asks for n payouts: nothing
   * keeps a record from being paid out twice.
   */
  lemma {:induction false} RepeatedPaidPaysEachTime(requests: seq<Request>, body: PaidHandler.Body, replies: PaidHandler.Replies,
                                                    n: nat, parseText: string -> Option<real>, digest: Digest)
    requires PaidHandler.Handle(requests, body, replies).outcome.PaidOut?
    ensures Payouts(requests, seq(n, _ => PaidOp(body, replies)), parseText, digest) == n
    decreases n
  {
    if n > 0 {
      var ops := seq(n, _ => PaidOp(body, replies));
      var next := Step(requests, ops[0], parseText, digest);
      PaidHandler.RepeatPaysAgain(requests, body, replies, replies);
      assert ops[1..] == seq(n - 1, _ => PaidOp(body, replies));
      RepeatedPaidPaysEachTime(next, body, replies, n - 1, parseText, digest);
    }
  }

  /**
   * A request of 50,000 on Thunder against a balance of 1,000,000, then the
   * same `/paid` twice: both calls stamp the record and request the same
   * payout of 50,000 to the destination.
   */
  method ScenarioDoublePayout(digest: Digest, parseText: string -> Option<real>, txid: string, stamp: string)
    returns (first: seq<Call>, second: seq<Call>)
    requires forall f :: |digest(f)| == 64
    requires txid != ""
    ensures first == second == [SendToAddress("bc1q", 50000.0)]
  {
    var server := new WithdrawalServer(digest, parseText);
    var w := server.Withdraw(
      WithdrawHandler.Body(Str("bc1q"), Number(50000.0), Str("Thunder")),
      WithdrawHandler.Replies(Some(1000000.0), Some(WithdrawHandler.AddressValidation(true, None)), Some("l2"), Some("l1"), stamp));
    WithdrawHandler.ScenarioRequest(
      WithdrawHandler.Replies(Some(1000000.0), Some(WithdrawHandler.AddressValidation(true, None)), Some("l2"), Some("l1"), stamp),
      parseText, digest);
    var record := w.outcome.request;
    assert server.requests == [record];
    assert |record.hash| == 64;
    var body := PaidHandler.Body(Str(record.hash), Str(txid));
    var replies := PaidHandler.Replies(stamp, Some("payout"));
    assert PaidHandler.FirstMatch([record], record.hash) == Some(0);
    var o1, o2;
    o1, first := server.Paid(body, replies);
    assert first == [SendToAddress(record.fields.withdrawalDestination, record.fields.withdrawalAmount)];
    PaidHandler.RepeatPaysAgain([record], body, replies, replies);
    o2, second := server.Paid(body, replies);
  }
}
