/**
 * The inter-chain communicator that registers a branded token: after the
 * `ProposedBrandedToken` event of the utility chain has matured, its
 * processor registers the token first with the utility registrar and then
 * with the value registrar, and accepts each step only when the step's
 * confirmation event appears in the formatted transaction receipt.
 *
 * The two registrar contracts and the receipt formatter are collaborators
 * whose code is not part of this model; they enter as the function
 * parameters `remote` and `formatter`. The processor records every remote
 * invocation it makes in a call trace, so that its contract can say which
 * calls were made, in which order and with which arguments.
 */
module RegisterBrandedToken {

  type Address = string

  /**
   * The addresses, passphrases and chain id the communicator reads once
   * from its configuration.
   */
  datatype Config = Config(
    openSTValueContractAddr: Address,
    openSTUtilityContractAddr: Address,
    valueRegistrarContractAddr: Address,
    utilityRegistrarContractAddr: Address,
    utilityRegistrarAddr: Address,
    utilityRegistrarPassphrase: string,
    valueRegistrarAddr: Address,
    valueRegistrarPassphrase: string,
    utilityChainId: string)

  /** The `returnValues` of a `ProposedBrandedToken` event. */
  datatype ReturnValues = ReturnValues(
    symbol: string,
    name: string,
    conversionRate: int,
    requester: Address,
    token: Address,
    uuid: string)

  datatype EventObject = EventObject(returnValues: ReturnValues)

  /**
   * One remote invocation: the registrar contract it goes to, then the
   * arguments in the order the contract-interact method takes them.
   */
  datatype Call =
    | RegisterBrandedToken(
        contract: Address,
        senderAddr: Address,
        senderPassphrase: string,
        openSTContractAddr: Address,
        symbol: string,
        name: string,
        conversionRate: int,
        requester: Address,
        token: Address,
        uuid: string)
    | RegisterUtilityToken(
        contract: Address,
        senderAddr: Address,
        senderPassphrase: string,
        openSTContractAddr: Address,
        symbol: string,
        name: string,
        conversionRate: int,
        chainIdUtility: string,
        requester: Address,
        uuid: string)

  datatype Receipt = Receipt(transactionHash: string)

  /**
   * What a contract-interact method resolves with: a success response
   * carrying the formatted transaction receipt, or an error response.
   */
  datatype Response = Success(formattedTransactionReceipt: Receipt) | Error(message: string)

  /** The terminal result of one processor run: resolved, or rejected at a named point. */
  datatype Outcome =
    | Done(response: Response)
    | FailedStep1NotSuccess
    | FailedStep1NoEvent
    | FailedStep2NotSuccess
    | FailedStep2NoEvent

  const RegisteredBrandedToken: string := "RegisteredBrandedToken"
  const UtilityTokenRegistered: string := "UtilityTokenRegistered"

  /**
   * A step is confirmed when its response is a success and the formatted
   * events of its receipt hold the expected confirmation event.
   */
  predicate Confirms(r: Response, formatter: Receipt -> set<string>, eventName: string) {
    r.Success? && eventName in formatter(r.formattedTransactionReceipt)
  }

  const RegisterBrandedTokenMethod: string := "registerBrandedToken"
  const RegisterUtilityTokenMethod: string := "registerUtilityToken"

  predicate StartsWith(s: string, prefix: string) {
    |prefix| <= |s| && s[..|prefix|] == prefix
  }

  /**
   * The message the processor rejects with, one per failure point. Each
   * message begins with the registrar method that failed or with the
   * confirmation event that is missing.
   */
  function RejectionMessage(o: Outcome): (msg: string)
    requires !o.Done?
    ensures o.FailedStep1NotSuccess? ==> StartsWith(msg, RegisterBrandedTokenMethod)
    ensures o.FailedStep1NoEvent? ==> StartsWith(msg, RegisteredBrandedToken)
    ensures o.FailedStep2NotSuccess? ==> StartsWith(msg, RegisterUtilityTokenMethod)
    ensures o.FailedStep2NoEvent? ==> StartsWith(msg, UtilityTokenRegistered)
  {
    match o
    case FailedStep1NotSuccess =>
      RegisterBrandedTokenMethod + " of utilityRegistrar contract ERROR. Something went wrong!"
    case FailedStep1NoEvent =>
      RegisteredBrandedToken + " event not found in receipt. Something went wrong!"
    case FailedStep2NotSuccess =>
      RegisterUtilityTokenMethod + " of valueRegistrar contract ERROR. Something went wrong!"
    case FailedStep2NoEvent =>
      UtilityTokenRegistered + " event not found in receipt. Something went wrong!"
  }

  /** Distinct failure points reject with distinct messages, so a rejection names its failure point. */
  lemma RejectionMessagesDistinct(a: Outcome, b: Outcome)
    requires !a.Done? && !b.Done? && a != b
    ensures RejectionMessage(a) != RejectionMessage(b)
  {
  }

  /**
   * The processor run for one matured `ProposedBrandedToken` event. Step
   * one registers the branded token with the utility registrar; only when
   * it is confirmed does step two register the utility token with the
   * value registrar. Any failure rejects at once, and nothing undoes step
   * one when step two fails.
   */
  method Processor(cfg: Config, eventObj: EventObject,
                   remote: Call -> Response, formatter: Receipt -> set<string>)
    returns (outcome: Outcome, calls: seq<Call>)
    // Step one always runs first, with the event's values passed through unchanged.
    ensures 1 <= |calls| <= 2
    ensures calls[0] == RegisterBrandedToken(
              cfg.utilityRegistrarContractAddr,
              cfg.utilityRegistrarAddr, cfg.utilityRegistrarPassphrase, cfg.openSTUtilityContractAddr,
              eventObj.returnValues.symbol, eventObj.returnValues.name,
              eventObj.returnValues.conversionRate, eventObj.returnValues.requester,
              eventObj.returnValues.token, eventObj.returnValues.uuid)
    // Step one's failures reject without a second call.
    ensures !remote(calls[0]).Success? ==> outcome == FailedStep1NotSuccess && |calls| == 1
    ensures (remote(calls[0]).Success? && !Confirms(remote(calls[0]), formatter, RegisteredBrandedToken))
              ==> outcome == FailedStep1NoEvent && |calls| == 1
    // Step two runs exactly when step one is confirmed, and without the token.
    ensures |calls| == 2 <==> Confirms(remote(calls[0]), formatter, RegisteredBrandedToken)
    ensures |calls| == 2 ==> calls[1] == RegisterUtilityToken(
              cfg.valueRegistrarContractAddr,
              cfg.valueRegistrarAddr, cfg.valueRegistrarPassphrase, cfg.openSTValueContractAddr,
              eventObj.returnValues.symbol, eventObj.returnValues.name,
              eventObj.returnValues.conversionRate, cfg.utilityChainId,
              eventObj.returnValues.requester, eventObj.returnValues.uuid)
    // Step two's failures reject, with no compensating call afterwards.
    ensures |calls| == 2 && !remote(calls[1]).Success? ==> outcome == FailedStep2NotSuccess
    ensures (|calls| == 2 && remote(calls[1]).Success?
              && !Confirms(remote(calls[1]), formatter, UtilityTokenRegistered))
              ==> outcome == FailedStep2NoEvent
    // The run resolves, with step two's response, exactly when both steps are confirmed.
    ensures outcome.Done? <==> |calls| == 2 && Confirms(remote(calls[1]), formatter, UtilityTokenRegistered)
    ensures outcome.Done? ==> outcome.response == remote(calls[1])
  {
    var rv := eventObj.returnValues;
    calls := [];

    var step1 := RegisterBrandedToken(
      cfg.utilityRegistrarContractAddr,
      cfg.utilityRegistrarAddr, cfg.utilityRegistrarPassphrase, cfg.openSTUtilityContractAddr,
      rv.symbol, rv.name, rv.conversionRate, rv.requester, rv.token, rv.uuid);
    calls := calls + [step1];
    var ucRegistrarResponse := remote(step1);

    if ucRegistrarResponse.Success? {
      var ucFormattedEvents := formatter(ucRegistrarResponse.formattedTransactionReceipt);
      if RegisteredBrandedToken !in ucFormattedEvents {
        return FailedStep1NoEvent, calls;
      }
    } else {
      return FailedStep1NotSuccess, calls;
    }

    var step2 := RegisterUtilityToken(
      cfg.valueRegistrarContractAddr,
      cfg.valueRegistrarAddr, cfg.valueRegistrarPassphrase, cfg.openSTValueContractAddr,
      rv.symbol, rv.name, rv.conversionRate, cfg.utilityChainId, rv.requester, rv.uuid);
    calls := calls + [step2];
    var vcRegistrarResponse := remote(step2);

    if vcRegistrarResponse.Success? {
      var vcFormattedEvents := formatter(vcRegistrarResponse.formattedTransactionReceipt);
      if UtilityTokenRegistered !in vcFormattedEvents {
        return FailedStep2NoEvent, calls;
      }
    } else {
      return FailedStep2NotSuccess, calls;
    }

    return Done(vcRegistrarResponse), calls;
  }
}
