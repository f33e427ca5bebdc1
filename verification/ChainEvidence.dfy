/** The step system's view of the chain is what the evidence check reports. */
module ChainEvidence {
  import opened Basics
  import opened Numerals
  import opened SpendEvidence
  import AP = AwardProtocol

  /** How the award executor sorts verdicts. */
  function EvidenceOf(v: Verdict): AP.Evidence {
    match v
    case Valid(_) => AP.Valid
    case Invalid(code, _) =>
      if code == RECEIPT_PENDING || code == PROVIDER_ERROR then AP.Inconclusive
      else if code == TRANSACTION_NOT_FOUND then AP.Missing
      else if code == TRANSACTION_FAILED then AP.Reverted
      else AP.Mismatched
  }

  /** Token units, eighteen decimals, of an amount in hundredths. */
  function TokenUnits(amount: nat): nat { amount * 10000000000000000 }

  /** The transfer that was signed under a hash, and what the chain did with it:
      nothing yet, success or revert. Awards are sent by their own source with
      `transfer`; spends are sent by an operator with `transferFrom`. */
  datatype Transfer = Transfer(txHash: string, token: string, sender: string, direct: bool, from: string, to: string,
                               amount: nat, chainId: int, mined: Option<bool>)

  /** Addresses are in checksum form, which is one text per address. */
  ghost predicate Canonical(codec: Codec, addresses: set<string>) {
    && (forall a :: a in addresses ==> a != "" && codec.address(a) == Some(a))
    && (forall a, b :: a in addresses && b in addresses && SameText(a, b) ==> a == b)
  }

  function CallOf(t: Transfer): Decoded {
    if t.direct then Fields("transfer", [AddressArg(t.to), NumberArg(TokenUnits(t.amount))])
    else Fields("transferFrom", [AddressArg(t.from), AddressArg(t.to), NumberArg(TokenUnits(t.amount))])
  }

  /** The provider tells the truth about the transfer; the chain id of a legacy
      transaction may be zero or missing. */
  predicate Shows(t: Transfer, chain: Chain, codec: Codec) {
    && chain.network == Answer(Some(t.chainId)) && chain.transaction.Answer? && chain.transaction.value.Some?
    && ShowsTransaction(t, chain.transaction.value.value, codec)
    && (t.mined.None? ==> chain.receipt == Answer(None))
    && (t.mined.Some? ==>
          chain.receipt.Answer? && chain.receipt.value.Some? && ShowsReceipt(t, chain.receipt.value.value, codec))
  }

  predicate ShowsTransaction(t: Transfer, tx: Transaction, codec: Codec) {
    && tx.hash.Some? && Lower(tx.hash.value) == t.txHash && tx.chainId in {ChainId(t.chainId), ChainId(0), NoChainId}
    && tx.to == Some(t.token) && tx.from == Some(t.sender) && codec.call(tx.data) == CallOf(t)
  }

  predicate ShowsReceipt(t: Transfer, receipt: Receipt, codec: Codec)
    requires t.mined.Some?
  {
    && receipt.hash.Some? && Lower(receipt.hash.value) == t.txHash && receipt.to == Some(t.token)
    && receipt.from == Some(t.sender)
    && receipt.status == Some(if t.mined.value then 1 else 0)
    && (t.mined.value ==> exists i :: 0 <= i < |Logs(receipt)| && IsTransferOf(t, Logs(receipt)[i], codec))
  }

  /** The event that the token contract emits for the transfer. */
  predicate IsTransferOf(t: Transfer, log: Log, codec: Codec) {
    && log.Log? && log.address == t.token && |log.topics| > 0 && log.topics[0].Some? && log.topics[0].value != ""
    && Lower(log.topics[0].value) == TRANSFER_TOPIC
    && codec.event(log.topics, log.data)
       == Fields("Transfer", [AddressArg(t.from), AddressArg(t.to), NumberArg(TokenUnits(t.amount))])
  }

  /** The request made for a saved hash: the award executor expects its own signer
      as the source and the owner's wallet as the recipient, the spend executor
      the owner's wallet as the source and the treasury as the recipient. */
  function RequestFor(t: Transfer, source: string, recipient: string, amount: nat): Request {
    Request(t.txHash, Some(t.token), Some(source), Some(recipient), BigInt(t.chainId), BigInt(TokenUnits(amount)))
  }

  predicate WellFormed(t: Transfer, codec: Codec) {
    IsTxHash(t.txHash) && Lower(t.txHash) == t.txHash && t.chainId >= 0 && (t.direct ==> t.sender == t.from)
  }

  /** All addresses of a transfer and of what is expected of it. */
  function Addresses(t: Transfer, source: string, recipient: string): set<string> {
    {t.token, t.sender, t.from, t.to, source, recipient}
  }

  lemma EventProves(t: Transfer, e: Expected, log: Log, codec: Codec)
    requires IsTransferOf(t, log, codec) && Canonical(codec, Addresses(t, e.source, e.treasury))
    requires e.token == t.token && e.source == t.from && e.treasury == t.to && e.amount == TokenUnits(t.amount)
    ensures Proves(e, log, codec)
  {
    hide Lower;
    assert t.from in Addresses(t, e.source, e.treasury) && t.to in Addresses(t, e.source, e.treasury);
  }

  lemma RequestExpects(t: Transfer, source: string, recipient: string, amount: nat, codec: Codec)
    requires WellFormed(t, codec) && Canonical(codec, Addresses(t, source, recipient))
    ensures Expect(RequestFor(t, source, recipient, amount), codec)
              == Some(Expected(t.txHash, t.token, source, recipient, t.chainId, TokenUnits(amount)))
  {
    hide IsTxHash, Lower;
    assert t.token in Addresses(t, source, recipient) && source in Addresses(t, source, recipient);
    assert recipient in Addresses(t, source, recipient);
  }

  lemma TransferIdentified(t: Transfer, e: Expected, chain: Chain, codec: Codec)
    requires Shows(t, chain, codec) && Canonical(codec, Addresses(t, e.source, e.treasury))
    requires e.txHash == t.txHash && e.token == t.token && e.chainId == t.chainId
    ensures TransactionIdentified(e, chain)
    ensures t.mined.Some? ==> ReceiptIdentified(e, chain, codec)
  {
    hide Lower, IsTransferOf;
    assert t.token in Addresses(t, e.source, e.treasury) && t.sender in Addresses(t, e.source, e.treasury);
  }

  /** What the calldata say of the expectation. */
  lemma CallFits(t: Transfer, e: Expected, tx: Transaction, codec: Codec)
    requires WellFormed(t, codec) && Canonical(codec, Addresses(t, e.source, e.treasury))
    requires tx.from == Some(t.sender) && codec.call(tx.data) == CallOf(t)
    ensures CallAgrees(e, tx, codec) <==> t.from == e.source && t.to == e.treasury && TokenUnits(t.amount) == e.amount
    ensures forall code :: CallFailure(e, tx, codec, code) <==>
              code == if t.from != e.source then WRONG_SENDER
                      else if t.to != e.treasury then WRONG_RECIPIENT
                      else WRONG_AMOUNT
  {
    hide Lower;
    var all := Addresses(t, e.source, e.treasury);
    assert t.sender in all && t.from in all && t.to in all && e.treasury in all && e.source in all;
    assert SameText(t.to, e.treasury) <==> t.to == e.treasury;
    assert SameText(t.from, e.source) <==> t.from == e.source;
  }

  /** The whole verdict on a transfer of which the provider tells the truth. */
  predicate Reports(t: Transfer, source: string, recipient: string, amount: nat, verdict: Verdict) {
    match t.mined
    case None => verdict == Invalid(RECEIPT_PENDING, true)
    case Some(false) => verdict == Invalid(TRANSACTION_FAILED, false)
    case Some(true) =>
      if t.from != source then verdict == Invalid(WRONG_SENDER, false)
      else if t.to != recipient then verdict == Invalid(WRONG_RECIPIENT, false)
      else if t.amount != amount then verdict == Invalid(WRONG_AMOUNT, false)
      else
        && verdict.Valid? && verdict.proof.source == t.from && verdict.proof.treasury == t.to
        && verdict.proof.amount == TokenUnits(t.amount) && verdict.proof.transactionFrom == t.sender
        && verdict.proof.transferMethod == (if t.direct then "transfer" else "transferFrom")
        && verdict.proof.txHash == t.txHash && verdict.proof.chainId == t.chainId && verdict.proof.token == t.token
  }

  /** Shown the truth about a transfer of either kind, the check pronounces
      exactly this: pending until mined, failed when reverted, and after a success
      valid for the expected source, recipient and amount only, else the first of
      the three that is wrong. */
  lemma TruthIsJudged(t: Transfer, source: string, recipient: string, amount: nat, chain: Chain, codec: Codec,
                      verdict: Verdict)
    requires WellFormed(t, codec) && Canonical(codec, Addresses(t, source, recipient)) && Shows(t, chain, codec)
    requires Judged(RequestFor(t, source, recipient, amount), chain, codec, verdict)
    ensures Reports(t, source, recipient, amount, verdict)
  {
    hide Lower, ProofFits, LogFailure, CallAgrees, TransactionIdentified, IsTransferOf, Proves, CallFailure;
    hide WellFormed, ShowsReceipt, Canonical, IdentityFailure, RequestFailure;
    var e := Expected(t.txHash, t.token, source, recipient, t.chainId, TokenUnits(amount));
    RequestExpects(t, source, recipient, amount, codec);
    TransferIdentified(t, e, chain, codec);
    CallFits(t, e, chain.transaction.value.value, codec);
    assert TokenUnits(t.amount) == TokenUnits(amount) <==> t.amount == amount;
    if t.mined.Some? {
      ReceiptStatus(t, chain.receipt.value.value, codec);
      if t.mined.value && CallAgrees(e, chain.transaction.value.value, codec) {
        ReceiptProves(t, e, chain.receipt.value.value, codec);
        ProofIs(t, e, chain, codec, verdict.proof);
      }
    } else {
      PendingIsPending(t, e, chain, codec, verdict);
    }
    NoReadFails(e, t, chain, codec);
  }

  lemma PendingIsPending(t: Transfer, e: Expected, chain: Chain, codec: Codec, verdict: Verdict)
    requires t.mined.None? && Shows(t, chain, codec) && TransactionIdentified(e, chain)
    ensures !ReceiptIdentified(e, chain, codec) && chain.receipt == Answer(None)
  {}

  lemma ProofIs(t: Transfer, e: Expected, chain: Chain, codec: Codec, proof: Proof)
    requires Shows(t, chain, codec) && ReceiptIdentified(e, chain, codec) && ProofFits(e, chain, codec, proof)
    requires Canonical(codec, Addresses(t, e.source, e.treasury))
    ensures proof.txHash == e.txHash && proof.chainId == e.chainId && proof.token == e.token
            && proof.source == e.source && proof.treasury == e.treasury && proof.amount == e.amount
    ensures proof.transactionFrom == t.sender
    ensures proof.transferMethod == if t.direct then "transfer" else "transferFrom"
  {
    hide Lower, IsTransferOf, FirstProof;
    assert t.sender in Addresses(t, e.source, e.treasury);
  }

  lemma NoReadFails(e: Expected, t: Transfer, chain: Chain, codec: Codec)
    requires Shows(t, chain, codec)
    ensures !ReadFails(e, chain)
  {}

  lemma ReceiptStatus(t: Transfer, receipt: Receipt, codec: Codec)
    requires t.mined.Some? && ShowsReceipt(t, receipt, codec)
    ensures receipt.status == Some(if t.mined.value then 1 else 0)
  {}

  lemma ReceiptProves(t: Transfer, e: Expected, receipt: Receipt, codec: Codec)
    requires t.mined == Some(true) && ShowsReceipt(t, receipt, codec)
    requires Canonical(codec, Addresses(t, e.source, e.treasury))
    requires e.token == t.token && e.source == t.from && e.treasury == t.to && e.amount == TokenUnits(t.amount)
    ensures SomeProves(e, Logs(receipt), codec)
  {
    hide Proves, IsTransferOf;
    var i :| 0 <= i < |Logs(receipt)| && IsTransferOf(t, Logs(receipt)[i], codec);
    EventProves(t, e, Logs(receipt)[i], codec);
  }

  // ----- awards -----

  /** Shown the truth about an award transfer, the evidence check gives the
      verdict that the step system's `Observe` gives for a true answer. */
  lemma TruthIsReported(t: Transfer, wallet: string, amount: nat, chain: Chain, codec: Codec, verdict: Verdict,
                        h: nat, mined: map<nat, AP.Receipt>)
    requires t.direct && WellFormed(t, codec) && Canonical(codec, Addresses(t, t.from, wallet))
    requires Shows(t, chain, codec) && Judged(RequestFor(t, t.from, wallet, amount), chain, codec, verdict)
    requires h in mined <==> t.mined.Some?
    requires h in mined ==> mined[h].ok == t.mined.value && mined[h].amount == t.amount && mined[h].wallet == t.to
    ensures EvidenceOf(verdict) == AP.Observe(mined, AP.Truth, h, amount, wallet)
  {
    hide Shows, Judged, Canonical, WellFormed;
    TruthIsJudged(t, t.from, wallet, amount, chain, codec, verdict);
  }

  // ----- spends -----

  /** Shown the truth about a spend, sent by any operator with `transferFrom`: it
      is valid exactly when mined with success from the expected wallet, to the
      treasury and of the expected amount, and the proof then names the call, the
      operator and all three; a revert failed, and what is not mined is pending. */
  lemma SpendIsReported(t: Transfer, wallet: string, treasury: string, amount: nat, chain: Chain, codec: Codec,
                        verdict: Verdict)
    requires !t.direct && WellFormed(t, codec) && Canonical(codec, Addresses(t, wallet, treasury))
    requires Shows(t, chain, codec) && Judged(RequestFor(t, wallet, treasury, amount), chain, codec, verdict)
    ensures verdict.Valid? <==> t.mined == Some(true) && t.from == wallet && t.to == treasury && t.amount == amount
    ensures verdict.Valid? ==>
              && verdict.proof.transferMethod == "transferFrom" && verdict.proof.transactionFrom == t.sender
              && verdict.proof.source == wallet && verdict.proof.treasury == treasury
              && verdict.proof.amount == TokenUnits(amount)
    ensures verdict == Invalid(TRANSACTION_FAILED, false) <==> t.mined == Some(false)
    ensures verdict == Invalid(RECEIPT_PENDING, true) <==> t.mined == None
    ensures verdict == Invalid(WRONG_SENDER, false) <==> t.mined == Some(true) && t.from != wallet
  {
    hide Shows, Judged, Canonical, WellFormed;
    TruthIsJudged(t, wallet, treasury, amount, chain, codec, verdict);
  }
}
