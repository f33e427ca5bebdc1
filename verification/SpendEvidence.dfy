/** Whether a mined transaction is the ERC-20 transfer that was expected. */
module SpendEvidence {
  import opened Basics
  import opened Numerals

  datatype Code =
    | INVALID_TX_HASH | INVALID_ADDRESS | INVALID_AMOUNT | INVALID_CHAIN_ID | TRANSACTION_NOT_FOUND | RECEIPT_PENDING
    | TRANSACTION_FAILED | TRANSACTION_IDENTITY_MISMATCH | RECEIPT_IDENTITY_MISMATCH | WRONG_CHAIN
    | WRONG_TOKEN_CONTRACT
    | MALFORMED_CALL | UNSUPPORTED_TOKEN_CALL | WRONG_SENDER | WRONG_RECIPIENT | WRONG_AMOUNT
    | MISSING_TRANSFER_EVENT | MALFORMED_TRANSFER_LOG | MALFORMED_RECEIPT | PROVIDER_ERROR

  /** A loosely typed input value; `Number` holds the whole numbers. */
  datatype Value = BigInt(n: int) | Number(n: int) | Text(text: string) | Other

  /** Addresses are `None` when they are not texts. */
  datatype Request = Request(txHash: string, token: Option<string>, source: Option<string>, treasury: Option<string>,
                             chainId: Value, amount: Value)

  /** A provider read that fails or answers. */
  datatype Read<T> = Failed | Answer(value: T)

  datatype TxChain = NoChainId | BadChainId | ChainId(id: int)

  datatype Transaction = Transaction(hash: Option<string>, chainId: TxChain, to: Option<string>, from: Option<string>,
                                     data: string)

  /** A log entry; `BadLog` lacks an address, topics or data. */
  datatype Log = BadLog | Log(address: string, topics: seq<Option<string>>, data: string, index: Option<nat>)

  datatype Receipt = Receipt(hash: Option<string>, to: Option<string>, from: Option<string>, status: Option<int>,
                             logs: Option<seq<Log>>, blockNumber: nat)

  datatype Chain = Chain(network: Read<Option<int>>, transaction: Read<Option<Transaction>>,
                         receipt: Read<Option<Receipt>>)

  datatype Arg = AddressArg(text: string) | NumberArg(n: int) | BadArg

  datatype Decoded = Throws | Nothing | Fields(name: string, args: seq<Arg>)

  /** Checksum addresses and ABI decoding, as functions. */
  datatype Codec = Codec(address: string -> Option<string>, call: string -> Decoded,
                         event: (seq<Option<string>>, string) -> Decoded)

  datatype Proof = Proof(txHash: string, chainId: int, token: string, source: string, treasury: string, amount: int,
                         transferMethod: string, transactionFrom: string, blockNumber: nat, logIndex: nat)

  datatype Verdict = Valid(proof: Proof) | Invalid(code: Code, pending: bool)

  /** The Transfer event of EIP-20. */
  const TRANSFER_TOPIC := "0xddf252ad1be2c89b69c2b068fc378daa952ba7f163c4a11628f55a4df523b3ef"

  predicate IsTxHash(s: string) {
    |s| == 66 && s[0] == '0' && s[1] == 'x' && forall i :: 2 <= i < 66 ==> IsHexDigit(s[i])
  }

  function CanonicalAddress(codec: Codec, value: Option<string>): Option<string> {
    if value.Some? then codec.address(value.value) else None
  }

  const SAFE: int := 9007199254740991

  function ParseChainId(v: Value): Option<int> {
    match v
    case BigInt(n) => if n >= 0 then Some(n) else None
    case Number(n) => if 0 <= n <= SAFE then Some(n) else None
    case Text(t) => if t != "" && AllDigits(t) then Some(NatValue(t)) else None
    case Other => None
  }

  /** Floating numbers are not accepted as amounts. */
  function ParseAmount(v: Value): Option<int> {
    match v
    case BigInt(n) => if n >= 0 then Some(n) else None
    case Text(t) => if t != "" && AllDigits(t) then Some(NatValue(t)) else None
    case _ => None
  }

  predicate SameText(a: string, b: string) { Lower(a) == Lower(b) }

  // ----- what is expected, and what identifies the transaction -----

  datatype Expected = Expected(txHash: string, token: string, source: string, treasury: string, chainId: int,
                               amount: int)

  function Expect(q: Request, codec: Codec): Option<Expected> {
    var token, source := CanonicalAddress(codec, q.token), CanonicalAddress(codec, q.source);
    var treasury := CanonicalAddress(codec, q.treasury);
    if IsTxHash(q.txHash) && token.Some? && source.Some? && treasury.Some? && ParseChainId(q.chainId).Some?
        && ParseAmount(q.amount).Some?
    then Some(Expected(Lower(q.txHash), token.value, source.value, treasury.value, ParseChainId(q.chainId).value,
                       ParseAmount(q.amount).value))
    else None
  }

  /** A whole number that is exact: a big integer, or a text of digits. Numbers are
      exact for chain ids only, up to the largest safe one. */
  predicate Spells(v: Value, n: int, numbers: bool) {
    || (n >= 0 && v == BigInt(n))
    || (numbers && 0 <= n <= 9007199254740991 && v == Number(n))
    || (v.Text? && v.text != "" && AllDigits(v.text) && n == NatValue(v.text))
  }

  /** A request is taken up exactly when its hash is one, its three addresses have
      a checksum form, and chain id and amount are spelled exactly; a floating
      number is never an amount. */
  lemma ExpectsExactly(q: Request, codec: Codec, e: Expected)
    ensures Expect(q, codec) == Some(e)
            <==> && IsTxHash(q.txHash) && e.txHash == Lower(q.txHash)
                 && q.token.Some? && codec.address(q.token.value) == Some(e.token)
                 && q.source.Some? && codec.address(q.source.value) == Some(e.source)
                 && q.treasury.Some? && codec.address(q.treasury.value) == Some(e.treasury)
                 && Spells(q.chainId, e.chainId, true) && Spells(q.amount, e.amount, false)
  {
    hide IsTxHash, Lower;
    SpellsIs(q.chainId, e.chainId);
    SpellsIs(q.amount, e.amount);
  }

  lemma SpellsIs(v: Value, n: int)
    ensures Spells(v, n, true) <==> ParseChainId(v) == Some(n)
    ensures Spells(v, n, false) <==> ParseAmount(v) == Some(n)
  {}

  predicate IsText(value: Option<string>, expected: string) { value.Some? && SameText(value.value, expected) }

  /** The transaction read from the expected chain is the expected one, sent to
      the token contract. */
  predicate TransactionIdentified(e: Expected, chain: Chain) {
    && chain.network == Answer(Some(e.chainId))
    && chain.transaction.Answer? && chain.transaction.value.Some?
    && var tx := chain.transaction.value.value;
       && tx.hash.Some? && Lower(tx.hash.value) == e.txHash
       && (tx.chainId == NoChainId || tx.chainId == ChainId(0) || tx.chainId == ChainId(e.chainId))
       && tx.to.Some? && tx.to.value != "" && SameText(tx.to.value, e.token)
  }

  /** So is its receipt, and both name one sender. */
  predicate ReceiptIdentified(e: Expected, chain: Chain, codec: Codec) {
    && TransactionIdentified(e, chain)
    && chain.receipt.Answer? && chain.receipt.value.Some?
    && var tx, receipt := chain.transaction.value.value, chain.receipt.value.value;
       && receipt.hash.Some? && Lower(receipt.hash.value) == e.txHash
       && receipt.to.Some? && receipt.to.value != "" && SameText(receipt.to.value, e.token)
       && CanonicalAddress(codec, tx.from).Some? && CanonicalAddress(codec, receipt.from).Some?
       && SameText(CanonicalAddress(codec, tx.from).value, CanonicalAddress(codec, receipt.from).value)
  }

  function AddressAt(codec: Codec, args: seq<Arg>, i: nat): Option<string> {
    if i < |args| && args[i].AddressArg? then codec.address(args[i].text) else None
  }

  function NumberAt(args: seq<Arg>, i: nat): Option<int> {
    if i < |args| && args[i].NumberArg? then Some(args[i].n) else None
  }

  /** The call moves the expected amount from the expected source. */
  predicate CallAgrees(e: Expected, tx: Transaction, codec: Codec) {
    var call := codec.call(tx.data);
    && call.Fields?
    && (call.name == "transfer" || call.name == "transferFrom")
    && var at := if call.name == "transfer" then 0 else 1;
       var source := if call.name == "transfer" then CanonicalAddress(codec, tx.from)
                     else AddressAt(codec, call.args, 0);
       && source.Some? && SameText(source.value, e.source)
       && AddressAt(codec, call.args, at).Some? && SameText(AddressAt(codec, call.args, at).value, e.treasury)
       && NumberAt(call.args, at + 1) == Some(e.amount)
  }

  /** Everything but the event. */
  predicate Checked(e: Expected, chain: Chain, codec: Codec) {
    && ReceiptIdentified(e, chain, codec)
    && chain.receipt.value.value.status == Some(1)
    && CallAgrees(e, chain.transaction.value.value, codec)
  }

  // ----- logs -----

  /** A Transfer event of the token contract. */
  predicate IsTransferLog(e: Expected, log: Log) {
    && log.Log? && SameText(log.address, e.token)
    && |log.topics| > 0 && log.topics[0].Some? && log.topics[0].value != ""
    && Lower(log.topics[0].value) == TRANSFER_TOPIC
  }

  predicate Decodes(log: Log, codec: Codec)
    requires log.Log?
  {
    var event := codec.event(log.topics, log.data);
    && event.Fields? && AddressAt(codec, event.args, 0).Some? && AddressAt(codec, event.args, 1).Some?
    && NumberAt(event.args, 2).Some?
  }

  datatype Movement = Movement(source: string, recipient: string, amount: int)

  function MovementOf(log: Log, codec: Codec): Movement
    requires log.Log? && Decodes(log, codec)
  {
    var args := codec.event(log.topics, log.data).args;
    Movement(AddressAt(codec, args, 0).value, AddressAt(codec, args, 1).value, NumberAt(args, 2).value)
  }

  /** The entry proves the expected transfer. */
  predicate Proves(e: Expected, log: Log, codec: Codec) {
    && IsTransferLog(e, log) && Decodes(log, codec)
    && var m := MovementOf(log, codec);
       SameText(m.source, e.source) && SameText(m.recipient, e.treasury) && m.amount == e.amount
  }

  predicate Malformed(e: Expected, log: Log, codec: Codec) {
    log == BadLog || (IsTransferLog(e, log) && !Decodes(log, codec))
  }

  predicate Another(e: Expected, log: Log, codec: Codec) { IsTransferLog(e, log) && Decodes(log, codec) }

  predicate OtherSource(e: Expected, log: Log, codec: Codec) {
    Another(e, log, codec) && !SameText(MovementOf(log, codec).source, e.source)
  }

  predicate OtherRecipient(e: Expected, log: Log, codec: Codec) {
    Another(e, log, codec) && !SameText(MovementOf(log, codec).recipient, e.treasury)
  }

  predicate OtherAmount(e: Expected, log: Log, codec: Codec) {
    Another(e, log, codec) && MovementOf(log, codec).amount != e.amount
  }

  function Logs(receipt: Receipt): seq<Log> { if receipt.logs.Some? then receipt.logs.value else [] }

  predicate SomeProves(e: Expected, logs: seq<Log>, codec: Codec) {
    exists i :: 0 <= i < |logs| && Proves(e, logs[i], codec)
  }

  /** The reason given when no entry proves the transfer: malformed entries
      first, then a missing event, then the first field that differs. */
  predicate LogFailure(e: Expected, logs: seq<Log>, codec: Codec, code: Code) {
    if exists l :: l in logs && Malformed(e, l, codec) then code == MALFORMED_TRANSFER_LOG
    else if forall l :: l in logs ==> !IsTransferLog(e, l) then code == MISSING_TRANSFER_EVENT
    else if exists l :: l in logs && OtherSource(e, l, codec) then code == WRONG_SENDER
    else if exists l :: l in logs && OtherRecipient(e, l, codec) then code == WRONG_RECIPIENT
    else code == WRONG_AMOUNT
  }

  /** What one entry shows. */
  method InspectLog(e: Expected, log: Log, codec: Codec)
    returns (proves: bool, transfer: bool, malformed: bool, wrongSender: bool, wrongRecipient: bool, wrongAmount: bool)
    ensures proves == Proves(e, log, codec) && transfer == IsTransferLog(e, log)
              && malformed == Malformed(e, log, codec)
    ensures wrongSender == OtherSource(e, log, codec) && wrongRecipient == OtherRecipient(e, log, codec)
    ensures wrongAmount == OtherAmount(e, log, codec)
    ensures transfer ==> proves || malformed || wrongSender || wrongRecipient || wrongAmount
  {
    hide SameText, Decodes, MovementOf;
    proves, transfer, malformed, wrongSender, wrongRecipient, wrongAmount := false, false, false, false, false, false;
    if log == BadLog {
      malformed := true;
      return;
    }
    if !IsTransferLog(e, log) { return; }
    transfer := true;
    if !Decodes(log, codec) {
      malformed := true;
      return;
    }
    var m := MovementOf(log, codec);
    wrongSender, wrongRecipient := !SameText(m.source, e.source), !SameText(m.recipient, e.treasury);
    wrongAmount := m.amount != e.amount;
    proves := !wrongSender && !wrongRecipient && !wrongAmount;
  }

  /** The scan: the first proving entry, or the reason there is none. The
      fallback failure at its end is never reached. */
  method ScanLogs(e: Expected, logs: seq<Log>, codec: Codec) returns (found: bool, index: nat, code: Code)
    ensures found <==> SomeProves(e, logs, codec)
    ensures found ==> index < |logs| && Proves(e, logs[index], codec)
    ensures found ==> forall j :: 0 <= j < index ==> !Proves(e, logs[j], codec)
    ensures !found ==> LogFailure(e, logs, codec, code)
  {
    hide Proves, Malformed, IsTransferLog, OtherSource, OtherRecipient, OtherAmount;
    found, code := false, MALFORMED_TRANSFER_LOG;
    var sawTransfer, malformed, wrongSender, wrongRecipient, wrongAmount := false, false, false, false, false;
    index := 0;
    while index < |logs|
      invariant index <= |logs| && forall j :: 0 <= j < index ==> !Proves(e, logs[j], codec)
      invariant malformed <==> exists l :: l in logs[..index] && Malformed(e, l, codec)
      invariant sawTransfer <==> exists l :: l in logs[..index] && IsTransferLog(e, l)
      invariant wrongSender <==> exists l :: l in logs[..index] && OtherSource(e, l, codec)
      invariant wrongRecipient <==> exists l :: l in logs[..index] && OtherRecipient(e, l, codec)
      invariant wrongAmount <==> exists l :: l in logs[..index] && OtherAmount(e, l, codec)
      invariant sawTransfer ==> malformed || wrongSender || wrongRecipient || wrongAmount
    {
      assert logs[..index + 1] == logs[..index] + [logs[index]];
      var proves, transfer, bad, sender, recipient, amount := InspectLog(e, logs[index], codec);
      if proves {
        found := true;
        return;
      }
      sawTransfer, malformed := sawTransfer || transfer, malformed || bad;
      wrongSender, wrongRecipient := wrongSender || sender, wrongRecipient || recipient;
      wrongAmount := wrongAmount || amount;
      index := index + 1;
    }
    assert logs[..index] == logs;
    if malformed { return false, index, MALFORMED_TRANSFER_LOG; }
    if !sawTransfer { return false, index, MISSING_TRANSFER_EVENT; }
    if wrongSender { return false, index, WRONG_SENDER; }
    if wrongRecipient { return false, index, WRONG_RECIPIENT; }
    assert wrongAmount;
    code := WRONG_AMOUNT;
  }

  // ----- the verification -----

  /** Entries that prove nothing can stand anywhere without masking one that does. */
  lemma OthersDoNotMask(e: Expected, before: seq<Log>, log: Log, after: seq<Log>, codec: Codec)
    requires !Proves(e, log, codec)
    ensures SomeProves(e, before + [log] + after, codec) <==> SomeProves(e, before + after, codec)
  {
    hide Proves;
    var with, without := before + [log] + after, before + after;
    if i :| 0 <= i < |with| && Proves(e, with[i], codec) {
      assert i != |before|;
      assert without[if i < |before| then i else i - 1] == with[i];
    }
    if i :| 0 <= i < |without| && Proves(e, without[i], codec) {
      assert with[if i < |before| then i else i + 1] == without[i];
    }
  }

  /** A read that the verification needs fails. */
  predicate ReadFails(e: Expected, chain: Chain) {
    || chain.network.Failed? || chain.transaction.Failed? || chain.network == Answer(None)
    || (TransactionIdentified(e, chain) && chain.receipt.Failed?)
  }

  /** The reason given when transaction or receipt are not as they must be: the
      first check that fails, in the order of the reads. */
  predicate IdentityFailure(e: Expected, chain: Chain, codec: Codec, code: Code) {
    if chain.network.Failed? || chain.transaction.Failed? || chain.network.value == None then code == PROVIDER_ERROR
    else if chain.network.value.value != e.chainId then code == WRONG_CHAIN
    else if chain.transaction.value == None then code == TRANSACTION_NOT_FOUND
    else
      var tx := chain.transaction.value.value;
      if tx.hash.None? || Lower(tx.hash.value) != e.txHash || tx.chainId == BadChainId then
        code == TRANSACTION_IDENTITY_MISMATCH
      else if tx.chainId.ChainId? && tx.chainId.id != 0 && tx.chainId.id != e.chainId then code == WRONG_CHAIN
      else if tx.to.None? || tx.to.value == "" || !SameText(tx.to.value, e.token) then code == WRONG_TOKEN_CONTRACT
      else if chain.receipt.Failed? then code == PROVIDER_ERROR
      else if chain.receipt.value == None then code == RECEIPT_PENDING
      else
        var receipt := chain.receipt.value.value;
        if receipt.hash.None? || Lower(receipt.hash.value) != e.txHash then code == RECEIPT_IDENTITY_MISMATCH
        else if receipt.to.None? || receipt.to.value == "" || !SameText(receipt.to.value, e.token) then
          code == WRONG_TOKEN_CONTRACT
        else if CanonicalAddress(codec, tx.from).None? then code == INVALID_ADDRESS
        else if !ReceiptIdentified(e, chain, codec) then code == RECEIPT_IDENTITY_MISMATCH
        else if receipt.status == Some(0) then code == TRANSACTION_FAILED
        else code == MALFORMED_RECEIPT
  }

  /** What the transaction and its receipt must say; the calldata comes after. */
  method Identify(e: Expected, chain: Chain, codec: Codec) returns (failure: Option<Verdict>)
    ensures failure.None? <==> ReceiptIdentified(e, chain, codec) && chain.receipt.value.value.status == Some(1)
    ensures failure.Some? ==> failure.value.Invalid? && IdentityFailure(e, chain, codec, failure.value.code)
    ensures failure.Some? ==> (failure.value.code == TRANSACTION_FAILED
                               <==> ReceiptIdentified(e, chain, codec) && chain.receipt.value.value.status == Some(0))
    ensures failure.Some? ==>
              (failure.value.pending <==> TransactionIdentified(e, chain) && chain.receipt == Answer(None))
    ensures failure.Some? ==> (failure.value.code == RECEIPT_PENDING <==> failure.value.pending)
    ensures failure.Some? ==> (failure.value.code == TRANSACTION_NOT_FOUND
                               <==> chain.network == Answer(Some(e.chainId)) && chain.transaction == Answer(None))
    ensures failure.Some? ==> (failure.value.code == PROVIDER_ERROR <==> ReadFails(e, chain))
  {
    hide SameText, CanonicalAddress;
    if chain.network.Failed? || chain.transaction.Failed? { return Some(Invalid(PROVIDER_ERROR, false)); }
    if chain.network.value == None { return Some(Invalid(PROVIDER_ERROR, false)); }
    if chain.network.value.value != e.chainId { return Some(Invalid(WRONG_CHAIN, false)); }
    if chain.transaction.value == None { return Some(Invalid(TRANSACTION_NOT_FOUND, false)); }
    var tx := chain.transaction.value.value;
    if tx.hash == None || Lower(tx.hash.value) != e.txHash {
      return Some(Invalid(TRANSACTION_IDENTITY_MISMATCH, false));
    }
    if tx.chainId == BadChainId { return Some(Invalid(TRANSACTION_IDENTITY_MISMATCH, false)); }
    if tx.chainId.ChainId? && tx.chainId.id != 0 && tx.chainId.id != e.chainId {
      return Some(Invalid(WRONG_CHAIN, false));
    }
    if tx.to == None || tx.to.value == "" || !SameText(tx.to.value, e.token) {
      return Some(Invalid(WRONG_TOKEN_CONTRACT, false));
    }
    if chain.receipt.Failed? { return Some(Invalid(PROVIDER_ERROR, false)); }
    if chain.receipt.value == None { return Some(Invalid(RECEIPT_PENDING, true)); }
    var receipt := chain.receipt.value.value;
    if receipt.hash == None || Lower(receipt.hash.value) != e.txHash {
      return Some(Invalid(RECEIPT_IDENTITY_MISMATCH, false));
    }
    if receipt.to == None || receipt.to.value == "" || !SameText(receipt.to.value, e.token) {
      return Some(Invalid(WRONG_TOKEN_CONTRACT, false));
    }
    var from, receiptFrom := CanonicalAddress(codec, tx.from), CanonicalAddress(codec, receipt.from);
    if from == None { return Some(Invalid(INVALID_ADDRESS, false)); }
    if receiptFrom == None { return Some(Invalid(RECEIPT_IDENTITY_MISMATCH, false)); }
    if !SameText(from.value, receiptFrom.value) { return Some(Invalid(RECEIPT_IDENTITY_MISMATCH, false)); }
    if receipt.status == Some(0) { return Some(Invalid(TRANSACTION_FAILED, false)); }
    if receipt.status != Some(1) { return Some(Invalid(MALFORMED_RECEIPT, false)); }
    failure := None;
  }

  /** The reason given when the calldata is not the expected transfer. */
  predicate CallFailure(e: Expected, tx: Transaction, codec: Codec, code: Code) {
    var call := codec.call(tx.data);
    if !call.Fields? then code == MALFORMED_CALL
    else if call.name != "transfer" && call.name != "transferFrom" then code == UNSUPPORTED_TOKEN_CALL
    else
      var direct := call.name == "transfer";
      var source := if direct then CanonicalAddress(codec, tx.from) else AddressAt(codec, call.args, 0);
      var recipient := AddressAt(codec, call.args, if direct then 0 else 1);
      var amount := NumberAt(call.args, if direct then 1 else 2);
      if source.None? || recipient.None? || amount.None? then code == MALFORMED_CALL
      else if !SameText(source.value, e.source) then code == WRONG_SENDER
      else if !SameText(recipient.value, e.treasury) then code == WRONG_RECIPIENT
      else code == WRONG_AMOUNT
  }

  /** The calldata must be the expected transfer. */
  method CheckCall(e: Expected, tx: Transaction, codec: Codec) returns (failure: Option<Code>)
    requires CanonicalAddress(codec, tx.from).Some?
    ensures failure.None? <==> CallAgrees(e, tx, codec)
    ensures failure.Some? ==>
              failure.value in {MALFORMED_CALL, UNSUPPORTED_TOKEN_CALL, WRONG_SENDER, WRONG_RECIPIENT, WRONG_AMOUNT}
    ensures failure.Some? ==> CallFailure(e, tx, codec, failure.value)
  {
    hide SameText, CanonicalAddress;
    var call := codec.call(tx.data);
    if !call.Fields? { return Some(MALFORMED_CALL); }
    if call.name != "transfer" && call.name != "transferFrom" { return Some(UNSUPPORTED_TOKEN_CALL); }
    var source, recipient, amount;
    if call.name == "transfer" {
      source, recipient := CanonicalAddress(codec, tx.from), AddressAt(codec, call.args, 0);
      amount := NumberAt(call.args, 1);
    } else {
      source, recipient := AddressAt(codec, call.args, 0), AddressAt(codec, call.args, 1);
      amount := NumberAt(call.args, 2);
    }
    if source == None || recipient == None || amount == None { return Some(MALFORMED_CALL); }
    if !SameText(source.value, e.source) { return Some(WRONG_SENDER); }
    if !SameText(recipient.value, e.treasury) { return Some(WRONG_RECIPIENT); }
    if amount.value != e.amount { return Some(WRONG_AMOUNT); }
    failure := None;
  }

  /** The reason given for a request that is not well formed. */
  predicate RequestFailure(q: Request, codec: Codec, code: Code) {
    if !IsTxHash(q.txHash) then code == INVALID_TX_HASH
    else if exists a :: a in [q.token, q.source, q.treasury] && CanonicalAddress(codec, a).None? then
      code == INVALID_ADDRESS
    else if ParseChainId(q.chainId).None? then code == INVALID_CHAIN_ID
    else code == INVALID_AMOUNT
  }

  /** The input checks, in order. */
  method CheckRequest(q: Request, codec: Codec) returns (expected: Option<Expected>, code: Code)
    ensures expected == Expect(q, codec)
    ensures expected.None? ==> RequestFailure(q, codec, code)
  {
    expected, code := None, INVALID_TX_HASH;
    if !IsTxHash(q.txHash) { return; }
    var token, source := CanonicalAddress(codec, q.token), CanonicalAddress(codec, q.source);
    var treasury := CanonicalAddress(codec, q.treasury);
    if token == None || source == None || treasury == None { return None, INVALID_ADDRESS; }
    var chainId := ParseChainId(q.chainId);
    if chainId == None { return None, INVALID_CHAIN_ID; }
    var amount := ParseAmount(q.amount);
    if amount == None { return None, INVALID_AMOUNT; }
    expected := Some(Expected(Lower(q.txHash), token.value, source.value, treasury.value, chainId.value, amount.value));
  }

  /** The verdict on a request: valid exactly when the request is well formed,
      all checks pass and some entry proves the transfer, the proof then naming
      the first such entry. Only an identified receipt with status 0 counts as a
      failed transaction, only a missing receipt as pending, only an absent
      transaction as not found. */
  predicate Judged(q: Request, chain: Chain, codec: Codec, verdict: Verdict) {
    var expected := Expect(q, codec);
    if expected == None then
      verdict.Invalid? && !verdict.pending && RequestFailure(q, codec, verdict.code)
    else
      var e := expected.value;
      && (verdict.Valid? <==> Checked(e, chain, codec) && SomeProves(e, Logs(chain.receipt.value.value), codec))
      && (verdict.Valid? ==> ProofFits(e, chain, codec, verdict.proof))
      && (verdict.Invalid? ==>
            && (verdict.code == TRANSACTION_FAILED
                <==> ReceiptIdentified(e, chain, codec) && chain.receipt.value.value.status == Some(0))
            && (verdict.pending <==> verdict.code == RECEIPT_PENDING)
            && (verdict.code == RECEIPT_PENDING <==> TransactionIdentified(e, chain) && chain.receipt == Answer(None))
            && (verdict.code == TRANSACTION_NOT_FOUND
                <==> chain.network == Answer(Some(e.chainId)) && chain.transaction == Answer(None))
            && (verdict.code == PROVIDER_ERROR <==> ReadFails(e, chain))
            && (if ReceiptIdentified(e, chain, codec) && chain.receipt.value.value.status == Some(1) then
                  !CallAgrees(e, chain.transaction.value.value, codec) ==>
                    CallFailure(e, chain.transaction.value.value, codec, verdict.code)
                else IdentityFailure(e, chain, codec, verdict.code))
            && (Checked(e, chain, codec) ==> LogFailure(e, Logs(chain.receipt.value.value), codec, verdict.code)))
  }

  /** `verifySpendEvidence`. */
  method VerifySpendEvidence(q: Request, chain: Chain, codec: Codec) returns (verdict: Verdict)
    ensures Judged(q, chain, codec, verdict)
  {
    hide Expect, CallAgrees, SomeProves, Proves, LogFailure;
    var expected, bad := CheckRequest(q, codec);
    if expected == None { return Invalid(bad, false); }
    var e := expected.value;
    var failure := Identify(e, chain, codec);
    if failure.Some? { return failure.value; }
    var tx, receipt := chain.transaction.value.value, chain.receipt.value.value;
    var callFailure := CheckCall(e, tx, codec);
    if callFailure.Some? { return Invalid(callFailure.value, false); }
    var logs := Logs(receipt);
    var found, index, code := ScanLogs(e, logs, codec);
    if !found {
      LogFailureCodes(e, logs, codec, code);
      return Invalid(code, false);
    }
    var log := logs[index];
    ProvesLog(e, log, codec);
    NamedCall(e, tx, codec);
    verdict := Valid(Proof(e.txHash, e.chainId, e.token, e.source, e.treasury, e.amount, codec.call(tx.data).name,
                           CanonicalAddress(codec, tx.from).value, receipt.blockNumber,
                           if log.index.Some? then log.index.value else index));
  }

  /** The proof names the first proving entry, by its own index if it has one. */
  predicate ProofFits(e: Expected, chain: Chain, codec: Codec, proof: Proof)
    requires ReceiptIdentified(e, chain, codec)
  {
    var tx, receipt := chain.transaction.value.value, chain.receipt.value.value;
    && proof.txHash == e.txHash && proof.chainId == e.chainId && proof.token == e.token
    && proof.source == e.source && proof.treasury == e.treasury && proof.amount == e.amount
    && codec.call(tx.data).Fields? && proof.transferMethod == codec.call(tx.data).name
    && (proof.transferMethod == "transfer" || proof.transferMethod == "transferFrom")
    && CanonicalAddress(codec, tx.from) == Some(proof.transactionFrom) && proof.blockNumber == receipt.blockNumber
    && exists i :: 0 <= i < |Logs(receipt)| && FirstProof(e, Logs(receipt), codec, i)
                   && proof.logIndex == (if Logs(receipt)[i].index.Some? then Logs(receipt)[i].index.value else i)
  }

  predicate FirstProof(e: Expected, logs: seq<Log>, codec: Codec, i: nat) {
    i < |logs| && Proves(e, logs[i], codec) && logs[i].Log? && forall j :: 0 <= j < i ==> !Proves(e, logs[j], codec)
  }

  lemma ProvesLog(e: Expected, log: Log, codec: Codec)
    requires Proves(e, log, codec)
    ensures log.Log?
  {}

  lemma NamedCall(e: Expected, tx: Transaction, codec: Codec)
    requires CallAgrees(e, tx, codec)
    ensures codec.call(tx.data).Fields?
              && (codec.call(tx.data).name == "transfer" || codec.call(tx.data).name == "transferFrom")
  {}

  lemma LogFailureCodes(e: Expected, logs: seq<Log>, codec: Codec, code: Code)
    requires LogFailure(e, logs, codec, code)
    ensures code in {MALFORMED_TRANSFER_LOG, MISSING_TRANSFER_EVENT, WRONG_SENDER, WRONG_RECIPIENT, WRONG_AMOUNT}
  {}
}
