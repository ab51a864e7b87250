/**
 * The `/withdraw` handler: an ordered run of checks on the request body and
 * on the mainchain node's replies, ending in a new record or in the first
 * rejection that applies.
 */
module WithdrawHandler {
  import opened Wrappers
  import opened Js
  import opened Records

  /** The three body fields, in the order the handler tests them. */
  datatype Field = Destination | Amount | ChainName {
    /** The JSON key the error message names. */
    function Key(): string {
      match this
      case Destination => "withdrawal_destination"
      case Amount => "withdrawal_amount"
      case ChainName => "layer_2_chain_name"
    }

    function Rank(): nat {
      match this
      case Destination => 0
      case Amount => 1
      case ChainName => 2
    }
  }

  datatype Body = Body(destination: Value, amount: Value, chainName: Value)

  /** The node's `validateaddress` answer: its `isvalid` and `error` properties. */
  datatype AddressValidation = AddressValidation(isValid: bool, error: Option<string>)

  /**
   * What the awaited calls return, each None when the call throws, and the
   * clock reading `new Date().toISOString()` gives the record.
   */
  datatype Replies = Replies(
    balance: Option<real>,
    validation: Option<AddressValidation>,
    l2Address: Option<string>,
    l1Address: Option<string>,
    timestamp: string)

  datatype WithdrawError =
    | MissingRequiredFields(fields: seq<Field>)
    | NotStrings
    | NotANumber
    | NotPositive
    | AboveMax(max: real)
    | InvalidAddress(reason: Option<string>)
    | InvalidChainName

  /**
   * A 400 rejection, a call that threw (the handler's promise rejects and
   * nothing is stored), or the stored record.
   */
  datatype Outcome = Rejected(error: WithdrawError) | Threw(call: Call) | Stored(request: Request)

  /** The outcome together with the calls the handler issued on the way. */
  datatype Withdrawal = Withdrawal(outcome: Outcome, calls: seq<Call>)

  /** The fields that are falsy, each once, in the handler's order. */
  function MissingFields(body: Body): (r: seq<Field>)
    ensures Destination in r <==> !Truthy(body.destination)
    ensures Amount in r <==> !Truthy(body.amount)
    ensures ChainName in r <==> !Truthy(body.chainName)
    ensures forall i, j :: 0 <= i < j < |r| ==> r[i].Rank() < r[j].Rank()
  {
    (if !Truthy(body.destination) then [Destination] else [])
    + (if !Truthy(body.amount) then [Amount] else [])
    + (if !Truthy(body.chainName) then [ChainName] else [])
  }

  /** The ledger's `error` text, when it supplied a truthy one. */
  function Reason(v: AddressValidation): Option<string> {
    if v.error.Some? && v.error.value != "" then v.error else None
  }

  /** The checks that run before the first ledger call all pass. */
  predicate LocalChecksPass(body: Body, parseText: string -> Option<real>) {
    && MissingFields(body) == []
    && body.destination.Str?
    && body.chainName.Str?
    && ParseFloat(body.amount, parseText).Some?
    && ParseFloat(body.amount, parseText).value > 0.0
  }

  /** The handler from the first ledger call on, after the local checks passed. */
  function LedgerPhase(destination: string, amount: real, chainName: string, replies: Replies, digest: Digest): Withdrawal
  {
    match replies.balance
    case None => Withdrawal(Threw(GetBalance), [GetBalance])
    case Some(balance) =>
      var max := balance * 0.1;
      if amount > max then Withdrawal(Rejected(AboveMax(max)), [GetBalance])
      else
        var checked := [GetBalance, ValidateAddress(destination)];
        match replies.validation
        case None => Withdrawal(Threw(ValidateAddress(destination)), checked)
        case Some(v) =>
          if !v.isValid then Withdrawal(Rejected(InvalidAddress(Reason(v))), checked)
          else if !KnownChain(chainName) then Withdrawal(Rejected(InvalidChainName), checked)
          else
            var minted := checked + [NewL2Address(chainName)];
            match replies.l2Address
            case None => Withdrawal(Threw(NewL2Address(chainName)), minted)
            case Some(l2) =>
              match replies.l1Address
              case None => Withdrawal(Threw(NewL1Address), minted + [NewL1Address])
              case Some(l1) =>
                var fields := RequestFields(destination, amount, chainName, l1, l2, ServerFeeSats, replies.timestamp);
                Withdrawal(Stored(Request(fields, digest(fields), None, None)), minted + [NewL1Address])
  }

  /**
   * The whole `/withdraw` handler. A stored record is well formed, carries
   * exactly the body's values and the replies' addresses, and is reached only
   * after all four calls were issued.
   */
  function Handle(body: Body, replies: Replies, parseText: string -> Option<real>, digest: Digest): (w: Withdrawal)
    ensures w.outcome.Stored? ==>
      var r := w.outcome.request;
      && LocalChecksPass(body, parseText)
      && replies.validation.Some? && replies.validation.value.isValid
      && WellFormed(r, digest)
      && r.txid.None? && r.paidAt.None?
      && body.destination == Str(r.fields.withdrawalDestination)
      && body.chainName == Str(r.fields.layer2ChainName)
      && ParseFloat(body.amount, parseText) == Some(r.fields.withdrawalAmount)
      && replies.balance.Some? && r.fields.withdrawalAmount <= replies.balance.value * 0.1
      && replies.l1Address == Some(r.fields.serverL1Address)
      && replies.l2Address == Some(r.fields.serverL2Address)
      && r.fields.timestamp == replies.timestamp
      && w.calls == [GetBalance, ValidateAddress(r.fields.withdrawalDestination),
                     NewL2Address(r.fields.layer2ChainName), NewL1Address]
    ensures !LocalChecksPass(body, parseText) ==> w.outcome.Rejected? && w.calls == []
  {
    var missing := MissingFields(body);
    if missing != [] then Withdrawal(Rejected(MissingRequiredFields(missing)), [])
    else if !body.destination.Str? || !body.chainName.Str? then Withdrawal(Rejected(NotStrings), [])
    else
      match ParseFloat(body.amount, parseText)
      case None => Withdrawal(Rejected(NotANumber), [])
      case Some(amount) =>
        if amount <= 0.0 then Withdrawal(Rejected(NotPositive), [])
        else LedgerPhase(body.destination.s, amount, body.chainName.s, replies, digest)
  }

  /** The `error` text of each rejection; `show` renders the limit as `toString` does. */
  function Message(e: WithdrawError, show: real -> string): string {
    match e
    case MissingRequiredFields(fields) => MissingMessage(fields)
    case NotStrings => "withdrawal_destination and layer_2_chain_name must be strings"
    case NotANumber => "withdrawal_amount must be a number"
    case NotPositive => "withdrawal_amount must be positive"
    case AboveMax(max) => "withdrawal amount is above max: " + show(max)
    case InvalidAddress(reason) =>
      if reason.Some? then InvalidAddressText + ": " + reason.value else InvalidAddressText
    case InvalidChainName => "Invalid Layer 2 name"
  }

  const MissingPrefix: string := "Missing required fields: "

  function MissingMessage(fields: seq<Field>): string {
    MissingPrefix + Join(Keys(fields), ", ")
  }
  const InvalidAddressText: string := "Invalid L1 BTC address"

  /** The keys of the fields, in order. */
  function Keys(fields: seq<Field>): seq<string>
  {
    seq(|fields|, i requires 0 <= i < |fields| => fields[i].Key())
  }

  // ---------------------------------------------------------------------
  // Properties of the handler
  // ---------------------------------------------------------------------

  /**
   * A falsy field is rejected before any call, and the error lists the falsy
   * fields; a zero amount counts as missing, not as non-positive.
   */
  lemma MissingFieldsRejectFirst(body: Body, replies: Replies, parseText: string -> Option<real>, digest: Digest)
    requires !Truthy(body.destination) || !Truthy(body.amount) || !Truthy(body.chainName)
    ensures Handle(body, replies, parseText, digest) == Withdrawal(Rejected(MissingRequiredFields(MissingFields(body))), [])
    ensures body.amount == Number(0.0) ==> Amount in MissingFields(body)
  {
  }

  /**
   * The message is the fixed prefix followed by every missing key, in order:
   * ", " follows each key but the last, the next key starts right after it,
   * and the message ends with the last key.
   */
  lemma MissingMessageListsFields(fields: seq<Field>, k: nat)
    requires k < |fields|
    ensures StandsAt(MissingMessage(fields), 0, MissingPrefix)
    ensures StandsAt(MissingMessage(fields), |MissingPrefix| + JoinOffset(Keys(fields), ", ", k), fields[k].Key())
    ensures k + 1 < |fields| ==>
              StandsAt(MissingMessage(fields), |MissingPrefix| + JoinOffset(Keys(fields), ", ", k) + |fields[k].Key()|, ", ")
    ensures k + 1 < |fields| ==>
              |MissingPrefix| + JoinOffset(Keys(fields), ", ", k) + |fields[k].Key()| + 2
              == |MissingPrefix| + JoinOffset(Keys(fields), ", ", k + 1)
    ensures k + 1 == |fields| ==>
              |MissingPrefix| + JoinOffset(Keys(fields), ", ", k) + |fields[k].Key()| == |MissingMessage(fields)|
  {
    KeyInMessage(fields, k);
    if k + 1 < |fields| {
      SeparatorAfterKey(fields, k);
    } else {
      MessageEndsAfterKey(fields);
    }
  }

  lemma KeyInMessage(fields: seq<Field>, k: nat)
    requires k < |fields|
    ensures StandsAt(MissingMessage(fields), 0, MissingPrefix)
    ensures StandsAt(MissingMessage(fields), |MissingPrefix| + JoinOffset(Keys(fields), ", ", k), fields[k].Key())
  {
    assert Keys(fields)[k] == fields[k].Key();
    JoinPartAfter(MissingPrefix, Keys(fields), ", ", k);
  }

  lemma SeparatorAfterKey(fields: seq<Field>, k: nat)
    requires k + 1 < |fields|
    ensures StandsAt(MissingMessage(fields), |MissingPrefix| + JoinOffset(Keys(fields), ", ", k) + |fields[k].Key()|, ", ")
    ensures |MissingPrefix| + JoinOffset(Keys(fields), ", ", k) + |fields[k].Key()| + 2
            == |MissingPrefix| + JoinOffset(Keys(fields), ", ", k + 1)
  {
    assert Keys(fields)[k] == fields[k].Key();
    JoinOffsetNext(Keys(fields), ", ", k);
    JoinSeparatesAfter(MissingPrefix, Keys(fields), ", ", k);
  }

  lemma MessageEndsAfterKey(fields: seq<Field>)
    requires 0 < |fields|
    ensures |MissingPrefix| + JoinOffset(Keys(fields), ", ", |fields| - 1) + |fields[|fields| - 1].Key()|
            == |MissingMessage(fields)|
  {
    assert Keys(fields)[|fields| - 1] == fields[|fields| - 1].Key();
    JoinLength(Keys(fields), ", ");
  }

  /**
   * The length of the missing-fields message: the prefix, the missing keys
   * (22, 17 and 18 characters) and ", " between each two of them.
   */
  lemma MissingMessageLength(body: Body)
    requires MissingFields(body) != []
    ensures var d, a, c := !Truthy(body.destination), !Truthy(body.amount), !Truthy(body.chainName);
              |MissingMessage(MissingFields(body))|
              == |MissingPrefix| + (if d then 22 else 0) + (if a then 17 else 0) + (if c then 18 else 0)
                 + 2 * ((if d then 1 else 0) + (if a then 1 else 0) + (if c then 1 else 0) - 1)
  {
    var fields := MissingFields(body);
    var keys := Keys(fields);
    JoinSize(keys, ", ");
    assert |fields| <= 3;
    if |fields| == 1 {
      assert TotalLength(keys) == |keys[0]| + TotalLength(keys[1..]);
    } else if |fields| == 2 {
      assert TotalLength(keys[1..]) == |keys[1]| + TotalLength(keys[1..][1..]);
    } else {
      assert fields == [Destination, Amount, ChainName];
      assert TotalLength(keys[1..][1..]) == |keys[2]| + TotalLength(keys[1..][1..][1..]);
      assert TotalLength(keys[1..]) == |keys[1]| + TotalLength(keys[1..][1..]);
    }
  }

  /**
   * The message determines the missing fields: two requests rejected for
   * missing fields with the same message miss the same fields.
   */
  lemma MessageDeterminesFields(b1: Body, b2: Body)
    requires MissingFields(b1) != [] && MissingFields(b2) != []
    requires MissingMessage(MissingFields(b1)) == MissingMessage(MissingFields(b2))
    ensures MissingFields(b1) == MissingFields(b2)
  {
    MissingMessageLength(b1);
    MissingMessageLength(b2);
  }

  /** With all three fields missing the message lists the three keys in order. */
  lemma AllMissingMessage()
    ensures MissingFields(Body(Undefined, Undefined, Undefined)) == [Destination, Amount, ChainName]
    ensures MissingMessage([Destination, Amount, ChainName])
         == MissingPrefix + Destination.Key() + ", " + Amount.Key() + ", " + ChainName.Key()
  {
    var keys := Keys([Destination, Amount, ChainName]);
    var a, b, c := Destination.Key(), Amount.Key(), ChainName.Key();
    assert keys == [a, b, c];
    assert keys[1..] == [b, c] && [b, c][1..] == [c];
    assert Join([c], ", ") == c;
    assert Join([b, c], ", ") == b + ", " + c;
    assert Join(keys, ", ") == a + ", " + (b + ", " + c);
  }

  /**
   * With every field present, the first failing check decides: a non-string
   * destination or chain name, then an amount that reads as NaN, then one
   * that is not positive; all before any call.
   */
  lemma CheckOrder(body: Body, replies: Replies, parseText: string -> Option<real>, digest: Digest)
    requires MissingFields(body) == []
    ensures var w := Handle(body, replies, parseText, digest);
      && (w.outcome == Rejected(NotStrings) <==> !body.destination.Str? || !body.chainName.Str?)
      && (w.outcome == Rejected(NotANumber) <==>
            body.destination.Str? && body.chainName.Str? && ParseFloat(body.amount, parseText).None?)
      && (w.outcome == Rejected(NotPositive) <==>
            body.destination.Str? && body.chainName.Str? && ParseFloat(body.amount, parseText).Some?
            && ParseFloat(body.amount, parseText).value <= 0.0)
      && (!LocalChecksPass(body, parseText) ==> w.calls == [])
  {
  }

  /**
   * The text "0" is present (a non-empty string) and so is rejected as not
   * positive, unlike the number 0.
   */
  lemma ZeroTextIsNotPositive(destination: string, chainName: string, replies: Replies, parseText: string -> Option<real>, digest: Digest)
    requires destination != "" && chainName != ""
    requires parseText("0") == Some(0.0)
    ensures Handle(Body(Str(destination), Str("0"), Str(chainName)), replies, parseText, digest)
         == Withdrawal(Rejected(NotPositive), [])
  {
  }

  /**
   * Past the local checks, the limit rejects exactly when the amount exceeds
   * a tenth of the balance, so an amount of exactly a tenth passes it; a
   * balance call that throws stores nothing.
   */
  lemma LimitBoundary(body: Body, replies: Replies, parseText: string -> Option<real>, digest: Digest)
    requires LocalChecksPass(body, parseText)
    ensures var w := Handle(body, replies, parseText, digest);
            var amount := ParseFloat(body.amount, parseText).value;
      && (replies.balance.None? ==> w == Withdrawal(Threw(GetBalance), [GetBalance]))
      && (replies.balance.Some? ==>
            ((w.outcome.Rejected? && w.outcome.error.AboveMax?) <==> amount > replies.balance.value * 0.1))
      && (replies.balance.Some? && amount > replies.balance.value * 0.1 ==>
            w == Withdrawal(Rejected(AboveMax(replies.balance.value / 10.0)), [GetBalance]))
  {
  }

  /** For any positive balance, an amount of exactly a tenth of it is stored. */
  lemma TenthOfBalanceIsStored(destination: string, chainName: string, balance: real, replies: Replies, digest: Digest, parseText: string -> Option<real>)
    requires destination != "" && KnownChain(chainName)
    requires balance > 0.0 && replies.balance == Some(balance)
    requires replies.validation.Some? && replies.validation.value.isValid
    requires replies.l1Address.Some? && replies.l2Address.Some?
    ensures var w := Handle(Body(Str(destination), Number(balance * 0.1), Str(chainName)), replies, parseText, digest);
      && w.outcome.Stored?
      && w.outcome.request.fields.withdrawalAmount == balance * 0.1
      && w.outcome.request.fields.serverFeeSats == 1000
  {
  }

  /**
   * An address the ledger does not report valid is rejected; the reason
   * carries the ledger's `error` text exactly when a non-empty one was given.
   */
  lemma AddressRejection(body: Body, replies: Replies, parseText: string -> Option<real>, digest: Digest)
    requires LocalChecksPass(body, parseText)
    requires replies.balance.Some? && ParseFloat(body.amount, parseText).value <= replies.balance.value * 0.1
    requires replies.validation.Some?
    ensures var w := Handle(body, replies, parseText, digest);
            var v := replies.validation.value;
      && ((w.outcome.Rejected? && w.outcome.error.InvalidAddress?) <==> !v.isValid)
      && (!v.isValid ==>
            && w.calls == [GetBalance, ValidateAddress(body.destination.s)]
            && (w.outcome.error.reason.Some? <==> v.error.Some? && v.error.value != "")
            && (w.outcome.error.reason.Some? ==> w.outcome.error.reason == v.error))
  {
  }

  /**
   * The address message starts with the fixed text and runs past it exactly
   * when the ledger supplied error text, which then ends the message.
   */
  lemma AddressMessage(v: AddressValidation, show: real -> string)
    ensures var m := Message(InvalidAddress(Reason(v)), show);
      && |InvalidAddressText| <= |m| && m[..|InvalidAddressText|] == InvalidAddressText
      && (|m| > |InvalidAddressText| <==> v.error.Some? && v.error.value != "")
      && (v.error.Some? && v.error.value != "" ==> m[|m| - |v.error.value|..] == v.error.value)
  {
    var m := Message(InvalidAddress(Reason(v)), show);
    if v.error.Some? && v.error.value != "" {
      assert m == InvalidAddressText + ": " + v.error.value;
      assert m[..|InvalidAddressText|] == InvalidAddressText;
    }
  }

  /**
   * A chain name other than "Thunder" and "BitNames" is rejected only after
   * the balance and address checks, and before any address is minted.
   */
  lemma UnknownChainRejected(body: Body, replies: Replies, parseText: string -> Option<real>, digest: Digest)
    requires LocalChecksPass(body, parseText)
    requires replies.balance.Some? && ParseFloat(body.amount, parseText).value <= replies.balance.value * 0.1
    requires replies.validation.Some? && replies.validation.value.isValid
    requires !KnownChain(body.chainName.s)
    ensures Handle(body, replies, parseText, digest)
         == Withdrawal(Rejected(InvalidChainName), [GetBalance, ValidateAddress(body.destination.s)])
  {
  }

  /**
   * Every check passed and both addresses were minted: the record is stored,
   * whatever hash the fields get, for there is no duplicate check.
   */
  lemma StoredWhenAllPass(body: Body, replies: Replies, parseText: string -> Option<real>, digest: Digest)
    requires LocalChecksPass(body, parseText)
    requires replies.balance.Some? && ParseFloat(body.amount, parseText).value <= replies.balance.value * 0.1
    requires replies.validation.Some? && replies.validation.value.isValid
    requires KnownChain(body.chainName.s)
    requires replies.l2Address.Some? && replies.l1Address.Some?
    ensures Handle(body, replies, parseText, digest).outcome.Stored?
  {
  }

  /**
   * Balance 1,000,000, amount 50,000 on Thunder: stored, unpaid, fee 1000.
   */
  lemma ScenarioRequest(replies: Replies, parseText: string -> Option<real>, digest: Digest)
    requires replies.balance == Some(1000000.0)
    requires replies.validation == Some(AddressValidation(true, None))
    requires replies.l1Address.Some? && replies.l2Address.Some?
    ensures var w := Handle(Body(Str("bc1q"), Number(50000.0), Str("Thunder")), replies, parseText, digest);
      && w.outcome.Stored?
      && w.outcome.request.fields.serverFeeSats == 1000
      && w.outcome.request.fields.withdrawalAmount == 50000.0
      && w.outcome.request.txid.None?
  {
  }
}
