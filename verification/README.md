# A model of the NEVERFLAT reward ledger

The repository pays one reward per charging record. It must do so across
crashes, lost RPC replies, failing database calls, concurrent retries and a
reward policy that changes while records are in flight. Around that protocol
stand the administrator's evidence report, the ERC-20 evidence check, receipt
signing, the charging-record normaliser and the recovery snapshot. This project
models those parts in Dafny and proves what they promise.

`dafny verify dfyconfig.toml` checks everything.

## How the model is laid out

**The award protocol.** `OperationTables` holds the durable rows and every
single-statement update as a function. `AwardProtocol` makes each process that
runs `processAwardFromCDR` or `recoverAwardOperation` a value standing at the
awaited call it makes next. One step is one awaited call of one process, which
may succeed, fail without effect, or take effect and lose its reply. Any
process may start, crash and be retried, and any broadcast transfer may be
mined or reverted, at any time. `AwardSafety` proves what all runs keep,
`AwardLedger` what the careful runs keep key by key, `AwardReplay` what one
fault-free replay or recovery does from any reachable state, `AwardEnds` what
each of their ends leaves, said of the row and the chain alone, `AwardClaims`
what becomes of records before anything is signed, `AwardAnswers` what a
reported success is worth, `AwardBalances` what each owner was awarded in total. `TokenOperationStore` and `AwardExecutor`
are the imperative form: tables updated in place, and the orchestrators with
their early returns, each proved to be the step system's process.
`ChainEvidence` shows that the evidence check of `SpendEvidence`, shown the
truth about a transfer, gives the verdict the step system assumes.

**The evidence report.** `EvidenceRows`, `EvidenceDedup` (the loops),
`EvidenceLaws`, `EvidenceOrder`, `EvidenceWarnings`, `EvidenceMirror`,
`EvidenceTotals`, `EvidencePaging`, and `Csv` with `EvidenceReport` for the text
form. `EvidenceMeaning` and `EvidenceRemarks` say what the merge reports of each
hash in terms of the rows' own fields.

**The codecs.** `OperationKeys`, `Decimals`, `Energy`, `Json`, `KeyOrder`,
`Receipts`, `Cdr`, `CdrIdentity`, `TokenMetadata`, `Normaliser`, `RecoverySnapshot` and
`AdminRecovery`. `OwnerReading`, `TokenReading` and `NormaliserReading` say which
field of a record becomes which field of the session. `Basics`, `Numerals` and
`Rows` are shared helpers.

## Where the code and its promises part

Each of these is a lemma about the code as it is, with the exact condition.

1. *A saved hash is no longer `submitting`.* Not so: preparing a transfer saves
   its hash and leaves the row in `submitting` (src/database/service.ts:560-580).
   A replay of the record, or a recovery that does not demand fresh evidence,
   then skips the evidence check (src/awardExecutor.ts:598) and writes a ledger
   row. `ReplayKeepsLedgerBacked` and `RecoveryKeepsLedgerBacked`: with careful
   calls so far, the whole ledger is backed afterwards if and only if the row was
   not such a row or its transfer had succeeded. `LedgerRowWithoutTransfer` gives
   a run with a ledger row and no broadcast. A recovery that demands fresh
   evidence is not affected (`FreshRecoveryIsExact`).
2. *A success carries the amount first claimed.* The award fingerprint takes the
   amount as a parameter and does not hash it, and a claim that failed before
   broadcast is handed out again without comparing amounts
   (src/database/tokenOperation.ts:206-226, src/database/service.ts:1700-1707).
   `TakeoverReportsTheClaimIff`: from any reachable state, a process whose claim
   is acquired reports the amount of the row if and only if it claims that
   amount. `StalePriceIsPaid` gives a run that ends with a success, a transfer
   and a ledger row of another amount than was first claimed.
   Calls that avoid 2, and where evidence matters also 1, are called careful
   (`AwardLedger.CarefulCall`). Care is asked for one operation key at a time:
   what was done to other keys never matters to a key's results.
3. *The counters of the evidence report do not depend on row order.* All but
   one: `UnknownCountStable` says exactly when the count of rows without a known
   asset is the same in every order, `AwardAndSpendOfOneId` shows two orders
   that differ.
4. *Canonical receipt JSON drops only undefined members.* It also drops a member
   called `__proto__`, because the copy is built by assignment
   (`PrototypeMemberIsLost`); `CanonicalTextExact` says exactly what is kept.
5. *Decimal texts read back as printed.* For every scale but zero
   (`FormatRoundTrip`).
6. *Dots separate thousands.* The last dot never does: a whole number of one
   thousand or more printed with separators and no fraction reads a thousand
   times too small, `1.234` as 1.234 and `1.234.567` as 1234.567
   (`LastSeparatorIsThePoint`).

## Model

| member | source | states |
|---|---|---|
| OperationKeys.TupleRoundTrip | src/database/tokenOperation.ts:200-204 | the length-prefixed tuple can be decoded back for every pair of strings, lengths counted in UTF-16 units |
| OperationKeys.TupleInjective | scripts/seed-local-admin-recovery-fixture.js:20-27 | two records share a tuple if and only if provider and session agree |
| OperationKeys.LegacyKeyCollision | src/awardExecutor.ts:901 | the legacy key collides exactly when one dashed text splits in two ways |
| OperationKeys.LegacyKeyNotInjective | scripts/verify-token-operation-db.js:282-289 | the colliding pair of the database script, told apart by the tuple |
| AwardSafety.AdvanceKeeps | src/awardExecutor.ts:486-782 | every awaited call at every program point, however it ends, keeps the table, log and process invariants and undoes no claim, hash or transfer |
| AwardSafety.RunKeeps | src/awardExecutor.ts:1057-1612 | every interleaving of any number of processes with crashes and faults keeps the whole invariant |
| AwardSafety.AtMostOneBroadcastPerKey | src/awardExecutor.ts:1320-1582 | in every run at most one transfer is broadcast for an operation key |
| AwardSafety.AtMostOneBroadcastPerPhysicalSession | src/database/service.ts:1711-1748 | nor two for one provider and physical session, nor for one legacy key |
| AwardSafety.NoBroadcastAboveCap | src/awardExecutor.ts:1138-1147 | no transfer above the cap of 200 tokens is broadcast |
| AwardSafety.AtMostOneAwardPerKey | src/database/integration.ts:1242-1360 | no operation key has two ledger rows, in any run |
| AwardSafety.ClaimsAreImmutable | src/database/service.ts:1633-1792 | a claim keeps its session, wallet, amount and saved hash through every continuation |
| AwardSafety.NoMovementIsFinal | src/awardExecutor.ts:637-701 | failed with `no_movement`: nothing was ever sent, or the only transfer was mined, reverted, and stays so in every continuation |
| AwardSafety.OnlyTheLeaseHolderBroadcasts | src/awardExecutor.ts:793-1040 | a step that broadcasts belongs to the holder of the signed transfer, and nothing was broadcast for the key before |
| AwardSafety.BroadcastingFromClaim | src/database/service.ts:456-615 | the broadcast point is reached only from a held claim on a row without hash or lease, never by replay or recovery |
| AwardLedger.CarefulRunKeeps | src/awardExecutor.ts:598-757 | runs careful about one key keep its signed transfer, ledger rows and pending projections at the claimed amount, and backed if its evidence is watched, whatever is done to other keys |
| AwardLedger.LedgerRowIsBacked | src/awardExecutor.ts:703-757 | a ledger row of a key whose own calls were careful matches a successful transfer of its own claim, amount and wallet |
| AwardLedger.LedgerIsBacked | src/awardExecutor.ts:703-757 | where all calls were careful this holds of the whole ledger |
| AwardLedger.LedgerHashesDiffer | src/database/integration.ts:1261-1279 | different ledger rows match different transfers, in every run |
| AwardLedger.SuccessCarriesClaim | src/awardExecutor.ts:1077-1117 | a success carries the amount first claimed in every run without a takeover of that key with another amount, skipped evidence or not |
| AwardLedger.Conservation | src/database/integration.ts:1242-1360 | chain credit is ledger credit plus the moved transfers not yet recorded |
| AwardLedger.LedgerGap | src/awardExecutor.ts:703-757 | where all calls were careful the ledger never credits more than the chain moved, and the gap is the moved transfers not yet recorded |
| AwardBalances.TotalsMatchLedger | src/database/integration.ts:1337-1358 | in every run each owner's awarded total is exactly the sum of the owner's ledger rows |
| AwardBalances.RecordingTwice | scripts/verify-token-operation-db.js:231-240 | recording the same award again changes neither ledger nor total |
| AwardReplay.RecordingExact | src/database/integration.ts:1242-1292 | a ledger write succeeds exactly when no row of the same hash has another amount, and leaves exactly one row for the hash |
| AwardReplay.ReplayIsExact | src/awardExecutor.ts:1057-1416 | from any reachable state and saved hash, one fault-free replay projects and reports the claimed amount exactly when the stated condition on row, chain and ledger holds, and broadcasts nothing |
| AwardReplay.ReplayConverges | src/awardExecutor.ts:1364-1416 | no takeover of the key with another amount, transfer mined, row not failed: one replay projects it and reports the claimed amount, with exactly one ledger row of it if it was not projected before |
| AwardReplay.ReplayAgainChangesNothing | src/awardExecutor.ts:546-560 | every further replay of a projected record reports the same success and changes nothing |
| AwardReplay.FreshRecoveryIsExact | src/awardExecutor.ts:967-1040 | from any reachable state, a recovery with fresh evidence ends projected exactly when the row has not failed and, unless projected already, chain and ledger agree with the claim |
| AwardReplay.UnprovenReplayAsksNothing | src/awardExecutor.ts:598-608 | the replay of a signed row left in `submitting` writes a ledger row and reports success in every run, whatever the chain says |
| AwardReplay.ReplayKeepsBacking | src/awardExecutor.ts:598-608 | the ledger rows of a carefully treated key are backed after its replay if and only if the row was not left in `submitting` with its hash or its transfer succeeded |
| AwardReplay.RecoveryKeepsBacking | src/awardExecutor.ts:598-608 | the same after a recovery that does not demand fresh evidence |
| AwardReplay.ReplayKeepsLedgerBacked | src/awardExecutor.ts:598-757 | where all calls were careful, the whole ledger is backed after a replay under exactly that condition |
| AwardReplay.RecoveryKeepsLedgerBacked | src/awardExecutor.ts:598-757 | and after a recovery that does not demand fresh evidence |
| AwardReplay.LedgerRowWithoutTransfer | src/database/service.ts:560-580 | for every session, wallet and payable amount, a run that ends with a ledger row and a success but no broadcast |
| AwardReplay.TakeoverReportsItsOwnAmount | src/database/service.ts:1699-1707 | from any reachable state, an acquired claim of a payable amount, left alone and mined, ends with a broadcast, a ledger row and a success of the taker's amount against a row that keeps its own |
| AwardReplay.TakeoverReportsTheClaimIff | src/database/service.ts:1699-1707 | the success carries the amount of the row if and only if that amount was claimed, zero awards included |
| AwardReplay.StalePriceIsPaid | src/database/tokenOperation.ts:206-226 | for every two payable amounts, a run that ends with a transfer, a ledger row and a success of the second against a row of the first |
| AwardEnds.ReplayEnds | src/awardExecutor.ts:508-757 | from any reachable state and saved hash, every status of the row and everything the chain can say: what one fault-free replay leaves of the row, of the ledger and of all else, and what it answers: not mined is left `unknown` and pending, reverted fails as `no_movement` and is rejected, another payment fails for `review` and is pending, a paid one is projected or waits as `confirmed` |
| AwardEnds.RecoveryEnds | src/awardExecutor.ts:793-1040 | the same for a recovery that does not demand fresh evidence |
| AwardEnds.FreshRecoveryEnds | src/awardExecutor.ts:967-1040 | the same for one that does: a failed row stays as it is, an unproven one is never recorded, a rejected transfer is left for an operator |
| AwardEnds.LostReplyIsUnknown | src/awardExecutor.ts:1478-1532 | any reachable state, a broadcast that fails or loses its reply, its doubt written and a chain read that settles nothing: lease and row are left `unknown`, the answer is pending, nothing else changes but the log |
| AwardEnds.LostReplyReplays | src/awardExecutor.ts:598-757 | and however the chain goes on, one fault-free replay of the record then pays exactly when the transfer paid the claim and the ledger agrees |
| AwardEnds.SubmissionUnpaid | src/awardExecutor.ts:1534-1582 | a submission whose broadcast was accepted, left alone: not mined leaves the row `unknown` and pending, reverted leaves it failed as `no_movement` and rejected, without a ledger row |
| AwardClaims.ClaimExactly | src/database/service.ts:1690-1792 | in every reachable state: a new claim unless the session is taken elsewhere, a claim that failed unsigned again, any other claim as it is, and a refusal for a record of the key that differs |
| AwardClaims.NewRecordIsPriced | src/awardExecutor.ts:1062-1147 | a new record priced above the cap is rejected and leaves nothing behind; any other price, the cap included, is claimed |
| AwardClaims.NewRecordIsPaid | src/awardExecutor.ts:1320-1612 | from any reachable state a new record within the cap whose session is not taken elsewhere is paid, recorded and reported once at its price when nothing goes wrong |
| AwardClaims.UnsignedReplay | src/awardExecutor.ts:560-597 | from any reachable state, the replay of a record without a transfer completes a zero award, leaves an award of something waiting, and touches nothing else |
| AwardClaims.UnsignedFailure | src/awardExecutor.ts:1442-1476 | a failure before anything is signed is written and rejected; a signer that cannot send leaves the row `unknown` |
| AwardClaims.FailedClaimIsPaid | src/database/service.ts:1699-1707 | the record of a claim that failed unsigned is paid by its next replay at the claimed amount, when nothing goes wrong then |
| AwardAnswers.SuccessIsInLedger | src/awardExecutor.ts:703-782 | in every run, whatever fails and whoever else works on the key: a process that reports a success with a transfer has its ledger row |
| AwardAnswers.EmptySuccessIsDone | src/awardExecutor.ts:560-588 | a success without a transfer has completed the award, if it is one of nothing |
| AwardAnswers.ProjectedIsInLedger | src/database/service.ts:1883-1908 | in every run a projected row with a transfer has its ledger row, and a zero award is never signed and never fails |
| AwardAnswers.OutcomesStay | src/database/service.ts:1927-1932 | what became of a row is never undone in any continuation of any run: projected stays projected, confirmed is at most projected, failed with a transfer stays failed with its outcome |
| AwardAnswers.FailedCall | src/awardExecutor.ts:486-1612 | a call that fails changes neither tables nor log and never ends in a success; which answer or doubt it leads to, at every point |
| AwardAnswers.LostReplyIsBoth | src/awardExecutor.ts:486-1612 | a lost reply has the effect of a success and the answer of a failure, at every point |
| TokenOperationStore.Store.Claim | src/database/service.ts:1633-1792 | the claim of a key under its unique indexes: new, reclaimed after a preflight failure, existing or refused |
| TokenOperationStore.Store.MarkSubmitted | src/database/service.ts:1794-1834 | saves the hash once, refuses another |
| TokenOperationStore.Store.MarkUnknown | src/database/service.ts:1836-1853 | only open rows become unknown |
| TokenOperationStore.Store.MarkConfirmed | src/database/service.ts:1855-1870 | only rows with a hash that have not ended become confirmed |
| TokenOperationStore.Store.MarkProjectionError | src/database/service.ts:1872-1881 | a failed projection leaves the row confirmed |
| TokenOperationStore.Store.MarkProjected | src/database/service.ts:1883-1908 | projection of a row with a hash or of a zero award, never of a failed row |
| TokenOperationStore.Store.MarkFailed | src/database/service.ts:1910-1943 | only open rows with a hash fail |
| TokenOperationStore.Store.MarkPreflightFailed | src/database/service.ts:1945-1962 | a failure before broadcast on a row without a hash |
| TokenOperationStore.Store.Prepare | src/database/service.ts:456-615 | one signed transfer per key: a new lease, the lease there is, or a refusal |
| TokenOperationStore.Store.RecordAward | src/database/integration.ts:1242-1360 | the ledger write, idempotent per hash and per legacy key |
| AwardExecutor.ProjectAwardOperation | src/awardExecutor.ts:486-782 | for every outcome of its calls, tables and result are those of the step system's process |
| AwardExecutor.RecoverAwardOperation | src/awardExecutor.ts:793-1040 | the same for recovery, with and without fresh evidence, when snapshot and asset are accepted; otherwise the tables are untouched and only a projected row is a success |
| AwardExecutor.SubmitAward | src/awardExecutor.ts:1418-1582 | the same for the submission of a held claim |
| AwardExecutor.DoubtLease | src/awardExecutor.ts:1478-1532 | the same for a broadcast whose reply was lost |
| AwardExecutor.ClaimAndSubmit | src/awardExecutor.ts:1320-1416 | the same from the claim on |
| AwardExecutor.ProcessAwardFromCdr | src/awardExecutor.ts:1057-1612 | the same for the whole pipeline from the key lookup on |
| AwardExecutor.PlayIsRun | src/awardExecutor.ts:1057-1612 | what an orchestrator does alone is a run of the step system |
| AwardExecutor.OrchestratorsAreSafe | src/awardExecutor.ts:486-782 | so it keeps the invariant of all runs and undoes nothing, whatever its calls do |
| SpendEvidence.VerifySpendEvidence | src/spendEvidence.ts:185-444 | valid if and only if request, identity, chain, status and calldata checks pass and some log proves the transfer; the proof names the first and the call made; the exact failure code in every other case, the first check that fails |
| SpendEvidence.ScanLogs | src/spendEvidence.ts:375-443 | the log loop finds the first proving entry or the right reason; the last fallback is unreachable |
| SpendEvidence.OthersDoNotMask | src/spendEvidence.ts:381-431 | malformed or foreign entries anywhere never mask one that proves the transfer |
| SpendEvidence.ExpectsExactly | src/spendEvidence.ts:97-215 | a request is taken up exactly when its hash is one, its three addresses have a checksum form, and chain id and amount are spelled exactly; a floating number is never an amount |
| ChainEvidence.TruthIsReported | src/awardExecutor.ts:637-701 | shown the truth about a transfer, the check gives the verdict of the step system's observation: success is valid exactly for the expected wallet and amount, a revert a revert, not mined inconclusive |
| ChainEvidence.TruthIsJudged | src/spendEvidence.ts:185-444 | shown the truth about a `transfer` or a `transferFrom`, the whole verdict: pending until mined, failed when reverted, then valid for the expected source, recipient and amount only, with the proof naming them, the call and its sender, else the first of the three that is wrong |
| ChainEvidence.SpendIsReported | src/spendExecutor.ts:78-89 | so a spend sent by any operator is valid exactly when mined with success from the expected wallet to the treasury in the expected amount, failed exactly when reverted, pending exactly until mined |
| EvidenceRows.AssetKeyInjective | src/adminEvidence.ts:273-287 | the asset key names the asset, and no other |
| EvidenceRows.AssetExactly | src/adminEvidence.ts:273-283 | an asset is known exactly from a context with a chain id of at most 80 digits and a hexadecimal address of 20 bytes, and is one asset exactly when chain and address agree in any case of letters |
| EvidenceRows.SameMovementNotTransitive | src/adminEvidence.ts:486-503 | around every parseable row without a user id, "same movement" fails to be transitive |
| EvidenceDedup.DedupeRows | src/adminEvidence.ts:513-602 | the grouping loops compute the merge of the specification: rows, all four counters and the set of warnings |
| EvidenceMeaning.DisputedIsReviewed | src/adminEvidence.ts:536-590 | the report on a hash whose rows are in dispute, said of their own direction, amount, owner, asset and source: all of them under review, bare rows beside stored ones without their context |
| EvidenceMeaning.UndisputedIsLed | src/adminEvidence.ts:536-590 | the report on any other hash: its leading row as it came, token operations before table rows, and its bare rows under review only if they quarrel among themselves |
| EvidenceMeaning.ConfirmedExactly | src/adminEvidence.ts:486-590 | a confirmed row of the report is exactly a confirmed input row that leads its hash, while all kept rows agree with it in direction, amount and owner, store one asset, are at most one token operation, and each bare row agrees with a stored one |
| EvidenceMeaning.ConfirmedSpeaksForAll | src/adminEvidence.ts:486-503 | so every other row of its hash has its direction and amount, its asset if it stores one, and no owner field against it or against the stored row it mirrors |
| EvidenceMeaning.CountersAre | src/adminEvidence.ts:513-602 | the four counters: two count positions of the input, the disputes count assets hash by hash, the unknown assets count bare confirmed rows without a hash and hashes led by one |
| EvidenceMeaning.HashlessAsTheyCame | src/adminEvidence.ts:521-536 | rows without a hash are reported as they came |
| EvidenceRemarks.RemarksMean | src/adminEvidence.ts:561-577 | which remarks are made on a hash: several assets, rows of unresolved asset beside stored ones, and for each asset in dispute several token operations or else a conflict |
| EvidenceRemarks.WarningsMean | src/adminEvidence.ts:561-602 | the warnings are the remarks on the hashes of the input and one for each of the first three counters that is not zero |
| EvidenceWarnings.RemarkedIffReviewed | src/adminEvidence.ts:563-589 | a hash without a warning leaves rows as they came, a hash with one leaves some row under review |
| EvidenceWarnings.WarningsPermuted | src/adminEvidence.ts:513-602 | with unique ids the warnings do not depend on the order of the rows, but for the one of the order-dependent counter |
| EvidenceLaws.NothingUpgraded | src/adminEvidence.ts:513-602 | every output row is an input row of the same amount, direction, asset and hash, its outcome kept or lowered to review |
| EvidenceLaws.AtMostOneConfirmed | src/adminEvidence.ts:536-590 | at most one confirmed row per transaction hash, for every input |
| EvidenceLaws.NoHashDropped | src/adminEvidence.ts:536-590 | every transaction hash of the input is in the output |
| EvidenceOrder.OrderIndependent | src/adminEvidence.ts:486-602 | with unique ids, permuted input gives the same multiset of rows and the same conflict, invalid-hash and unknown-movement counts |
| EvidenceOrder.UnknownCountStable | src/adminEvidence.ts:563-583 | the unknown-asset count is the same in every order if and only if no hash without a known asset has tied preferred rows of different outcome |
| EvidenceOrder.AwardAndSpendOfOneId | src/adminEvidence.ts:563-583 | two orders of two rows that count differently |
| EvidenceMirror.MirrorChangesNothing | src/adminEvidence.ts:535-590 | adding, anywhere, a row without an asset that agrees with a row holding one leaves the confirmed rows as they are |
| EvidenceTotals.SourceTotals | src/adminEvidence.ts:657-692 | the loop over decimal texts computes, per asset, exactly the integer sums, and the movement counts |
| EvidenceTotals.TotalsAreExact | src/adminEvidence.ts:249-267 | read back, awarded and spent are the sums and net is awarded minus spent |
| EvidenceTotals.TotalsBySource | src/adminEvidence.ts:374-385 | read back, awarded is what the award rows and award operations of the asset in the report moved, spent is what its spend rows and spend operations moved, net the difference |
| EvidenceTotals.CountsBySource | src/adminEvidence.ts:657-692 | the issued, returned and confirmed counts as counts of positions by source |
| EvidenceTotals.TotalsAddUp | src/adminEvidence.ts:657-692 | totals and counts add up over any split of the rows |
| EvidenceTotals.MirrorKeepsTotals | src/adminEvidence.ts:535-692 | a mirror row changes no total and no count |
| EvidenceTotals.CountAtMostHashes | src/adminEvidence.ts:513-692 | the confirmed count is at most the number of distinct hashes of the input |
| EvidencePaging.PagesCoverEverything | src/adminEvidence.ts:949-995 | following the next offsets gives every row once and in order exactly when there are no more rows than the largest permitted multiple of the limit and one page more |
| EvidencePaging.NextPageHasRows | src/adminEvidence.ts:949-995 | a page names a next offset exactly when rows remain and a query may ask for it, and the next page is not empty |
| Decimals.FormatRoundTrip | src/adminEvidence.ts:249-267 | printing and parsing back returns every integer, negative ones included, if and only if the scale is at least one |
| Decimals.ParseIsExact | src/adminEvidence.ts:249-258 | a decimal text means its sign times the number its digits spell, or nothing when it has too many fraction digits |
| Csv.FileReadBack | src/adminEvidence.ts:818-842 | any file of non-empty records reads back, by section 2 of RFC 4180, as their neutralised texts |
| Csv.NeutralIsInert | src/adminEvidence.ts:818-822 | no field read back starts, after white space, with one of the four formula characters, and no other field is changed |
| Csv.NeutralCollision | src/adminEvidence.ts:818-822 | two texts read back alike exactly when they are one, or one is the other, a formula, with an apostrophe |
| EvidenceReport.RenderAdminEvidenceCsv | src/adminEvidence.ts:824-917 | the report text reads back as the header and one record per row, one for the report when it has none, each as wide as the header |
| EvidenceReport.RowRecord | src/adminEvidence.ts:824-893 | the record of a row, field by field in the order of the header |
| EvidenceReport.EmptyRecord | src/adminEvidence.ts:895-914 | without rows the columns of the whole report hold what they hold beside any row, and the others are empty |
| Json.WriteReadBack | src/receipt.ts:63-65 | what is written for a value reads back, by the grammar of RFC 8259, as that value and nothing more |
| Json.WriteInjective | src/receipt.ts:63-65 | no two JSON values are written as one text |
| KeyOrder.UnitsLessIsUtf16 | src/receipt.ts:48-50 | the key order of the model is the code unit order of the default sort |
| KeyOrder.KeyLessExactly | src/receipt.ts:48-57 | members are listed array indices first, by value, then the other keys by UTF-16 code units |
| Receipts.CanonicalTextExact | src/receipt.ts:43-65 | two receipts have one canonical text if and only if they say the same, at every depth: key order, undefined members and `__proto__` members aside |
| Receipts.CanonicalReadsBack | src/receipt.ts:43-65 | the canonical text reads back as JSON that means what the value means and lists the keys of every object in order |
| Receipts.FieldsReordered | src/receipt.ts:48-57 | an object with its keys in another order says the same |
| Receipts.CanonicalIdempotent | src/receipt.ts:43-65 | canonicalising canonical data gives the same text |
| Receipts.PrototypeMemberIsLost | src/receipt.ts:51-57 | a member called `__proto__` does not reach the signed text |
| Receipts.SignedReceiptVerifies | src/receipt.ts:108-205 | a signed receipt is trusted exactly when claimed and trusted signer are one account, that account signed it, and the payload shown says what was signed; otherwise the failure named is that of the first check that fails |
| Receipts.SignedReceiptIsValid | src/receipt.ts:124-131 | the plain check accepts a signature for its own signer and payload and for no other |
| Energy.ParseIsExact | src/normaliser.ts:112-149 | a signed list of digit groups is read exactly when it is well grouped, as the number its digits spell |
| Energy.GroupedReading | src/normaliser.ts:112-149 | every number with dots as thousands separators and a fraction reads as itself, with its sign, and as without separators |
| Energy.WrongGroupRejected | src/normaliser.ts:130-140 | more than one dot and a group of the wrong length is rejected |
| Energy.LastSeparatorIsThePoint | src/normaliser.ts:127-143 | every whole number printed with separators and no fraction, with its sign: it reads as itself exactly below one thousand and otherwise a thousand times too small |
| CdrIdentity.CollectEmaidCandidates | src/normaliser.ts:290-328 | the collecting loops give the candidates of all owner fields in order, or the first malformed one |
| CdrIdentity.ResolveEmaid | src/normaliser.ts:437-476 | the comparing loop gives the resolution of the specification |
| CdrIdentity.ResolvesExactly | src/normaliser.ts:437-476 | success exactly when the owner fields are well formed, name an owner and all name the same, which is the result, from the field it reports |
| CdrIdentity.ErrorsExactly | src/normaliser.ts:258-290 | a malformed field is reported as such, no owner field at all as missing or UID-only, in no other case |
| OwnerReading.OwnerExactly | src/normaliser.ts:290-476 | a record resolves to an owner, from a field, exactly when all owner fields that are not blank, by their paths, hold that very text unpadded, and that field is the first of them |
| OwnerReading.ProtocolExactly | src/normaliser.ts:462-470 | the protocol of the owner is mixed if owner fields of both protocols are filled, else that of the record |
| OwnerReading.ProtocolTold | src/normaliser.ts:217-256 | the protocol of a record by the fields it holds |
| CdrIdentity.CollectUidSourceFields | src/normaliser.ts:340-371 | the loops list every field that holds a UID, in order |
| TokenReading.UidsExactly | src/normaliser.ts:340-371 | the diagnostics name every UID field that holds a value, by its path and in order, and no other |
| CdrIdentity.UidNeverMatters | src/normaliser.ts:437-476 | adding any UID field, with the records around it where they are missing, removing or changing it leaves the resolution alone: resolved or not, owner, source field, malformed field or conflict |
| TokenMetadata.CollectTokenMetadata | src/normaliser.ts:373-428 | the loops with their breaks give the metadata of the specification: first texts, first telling variant |
| TokenReading.MetadataFields | src/normaliser.ts:390-405 | type, country and party are the first value present, if it is a text |
| TokenReading.MetadataExactly | src/normaliser.ts:383-428 | the variant is the first that tells of a token, in both identification objects in turn, and gives its upper-case UID if the token has none |
| TokenMetadata.CustomUidIsNotKept | src/normaliser.ts:415-420 | a lower-case UID anywhere outside the token object never enters the metadata |
| CdrIdentity.OwnerDependsOnOwnerFields | src/normaliser.ts:290-328 | records with the same owner fields, a missing record counting as one without fields, have the same candidates and resolve alike |
| Normaliser.StrictIgnoresTheClock | src/normaliser.ts:710-748 | the strict path gives the same session or failure at every two moments |
| Normaliser.LenientReadsTheClock | src/normaliser.ts:634-641 | the lenient path depends on the moment exactly for records without a start time |
| Normaliser.StrictIsComplete | src/normaliser.ts:599-748 | every strict session has non-empty identities, ordered times and a non-negative energy |
| NormaliserReading.StrictExactly | src/normaliser.ts:506-748 | the strict path accepts a record as a session if and only if the session reads the record: ids and times from the first alias present, energy the size of the reading, direction the one named or else `DISCHARGE` exactly for a negative reading, the optional ids in exactly their cases, owner and zone, and no credit or correction |
| RecoverySnapshot.SessionSurvives | src/awardExecutor.ts:177-298 | a complete session comes back from storage as it went in |
| RecoverySnapshot.SnapshotSurvives | src/awardExecutor.ts:223-366 | every strict session and its record survive creation, storage and parsing, and validation accepts them for the operation that stored them at any later moment |
| RecoverySnapshot.SameRecordRecovers | src/awardExecutor.ts:369-421 | the same record presented again recovers the claimed session, and no column disagrees |
| RecoverySnapshot.AcceptedIsOriginal | src/awardExecutor.ts:332-366 | whatever a stored snapshot says, an accepted session has every field of the claimed financial intent, and so has its stored record, unless the claimed fingerprint has a collision |
| RecoverySnapshot.PresentedAgainExactly | src/awardExecutor.ts:391-418 | another record presented for a claimed operation is refused exactly when it differs in a field of the financial intent or is bound to another charging session |
| RecoverySnapshot.ParsedExactly | src/awardExecutor.ts:241-322 | parsing accepts version one, a well-formed fingerprint and a readable session, and changes nothing of what the session says |
| RecoverySnapshot.AcceptedBelongs | src/awardExecutor.ts:332-366 | an accepted session belongs to the operation's owner and fingerprint, whatever the operation, and so does its stored record |
| RecoverySnapshot.ResolvedIsStored | src/awardExecutor.ts:369-390 | a record presented for a stored snapshot is recovered as the stored session, and only if bound to the same charging session |
| AdminRecovery.ProjectsExactly | src/awardExecutor.ts:793-1040 | in any reachable state a recovery with fresh evidence newly projects a row exactly when it is admitted and chain and ledger agree, on a row that has not failed |
| AdminRecovery.AdmittedIsTheRow | src/awardExecutor.ts:866-897 | what is admitted and not yet projected is the award that was claimed: its snapshot reads as a session of the row's key, owner and fingerprint |
| AdminRecovery.EligibleExactly | src/adminOperations.ts:396-473 | who is listed as eligible: a canonical hash, not failed, and projected already or neither under review nor, for an award, without its snapshot |
| AdminRecovery.ReasonsExactly | src/adminOperations.ts:396-473 | each of the nine reasons has exactly its case, spends included |
| AdminRecovery.RetryIsSafe | src/adminOperations.ts:425-432 | a row listed for a retry after a failed dependency has moved nothing, in any reachable state, and never will by what was sent for it |
| AdminRecovery.NotEligibleNeverProjects | src/adminOperations.ts:386-473 | a row that a recovery turned into a projected one was listed as not eligible exactly when its outcome was `review` |
| AdminRecovery.NotEligibleIsUntouched | src/awardExecutor.ts:793-1040 | a row not yet projected, listed as not eligible and not saved as `review`: a recovery with fresh evidence leaves tables and log alone and reports no success, whichever of its calls fail, lose their reply or read the chain wrongly |
| AdminRecovery.EligibleProjectsOnEvidence | src/awardExecutor.ts:793-1040 | an eligible award ends projected exactly when its snapshot validates, the asset matches, and chain and ledger agree with the claim |
| AdminRecovery.EligibleProjectsWhenMoved | src/awardExecutor.ts:793-1040 | where the key was never taken over with another amount: exactly when snapshot and asset are accepted and the transfer moved |
| AdminRecovery.ProjectedIsCompleteIffEligible | src/adminOperations.ts:396-424 | a recovery of a projected award changes neither tables nor log, and reports it complete exactly when it is listed as eligible |

## Left out

- AwardReplay.ReplayConverges: asks that no failed claim of the key was taken over with another amount, because finding 2 makes it false otherwise; `ReplayIsExact` is the statement for all runs.
- AwardLedger.LedgerRowIsBacked: asks for careful calls on its own key, because findings 1 and 2 make it false otherwise.
- AwardExecutor.ProcessAwardFromCdr: the calls before the key lookup (normalisation, policy calculation, wallet lookup, the optional caller-supplied deduplication check) are one pricing outcome; a change of the asset context after the claim is a crash at that point; the claim of an award from before the operation table existed is not modelled.
- AwardExecutor.RecoverAwardOperation: whether snapshot and asset are accepted are parameters (`AdminRecovery.SnapshotValidates` says when), and a missing verifier is covered by the parameter of `ProjectAwardOperation` (an award executor without a provider fails earlier, at the asset context).
- TokenOperationStore.Store.Prepare: nonce allocation and signing are one step that yields a hash never seen before.
- TokenOperationStore.Store.RecordAward: of the user and balance rows written in the same transaction only the awarded total of each owner is modelled; the spendable balance, which spends lower, is not.
- TokenOperationStore.Store.Claim: an award from before the operation table existed is not modelled; wallets are compared as canonical texts; spend capacity checks belong to spends.
- Mined transfers stay mined: chain reorganisations are not modelled.
- Operation keys and fingerprints are compared by the text that is hashed, as if SHA-256 were injective; ABI decoding, checksum addresses and signatures are functions with stated contracts.
- EvidenceDedup.DedupeRows: warnings are a set of kinds, without their wording and order; lower-casing of wallets covers ASCII letters; ids stand for their place in the locale's order, a strict total order.
- EvidenceTotals.SourceTotals: amounts held as JavaScript numbers enter as their text.
- EvidencePaging.PagesCoverEverything: the presentation filter, `sortRows`, masking and the annotation counts are left out; they only add easy members.
- EvidenceReport.RenderAdminEvidenceCsv: the JSON text of the totals column is an input.
- Receipts.CanonicalTextExact: a receipt is an object; for a bare `undefined`, which JSON gives no text, the model has the text of null that it takes inside arrays; numbers are whole numbers, the only kind a receipt payload holds; lone surrogates cannot be written as Dafny characters.
- Energy.ParseIsExact: values are exact decimals; the rounding of `Number` and its overflow to infinity are not modelled.
- Normaliser.StrictIsComplete: date parsing and IANA time zones are functions with stated contracts.
- RecoverySnapshot.SnapshotSurvives: records are JSON data, so cloning them is the identity; ISO text reads back as the same instant.
- HTTP routers, SQL text, schema checks, RPC retry and failover, alerts, reconciliation, reservations, approval of managed wallets after an award, the spend protocol, policy calculation, audit wording and the front end.
