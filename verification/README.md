# Formal model of an escrow marketplace

A Dafny model of the marketplace's two central components and of its one-time codes.

**Anchoring** (`Hashing`, `Merkle`, `MerkleProofs`, `MerkleTree`, `Unicode`, `Canonical`,
`CanonicalParse`, `CanonicalMeaning`, `CanonicalShape`, `Encoder`, `Chain`, `WireFormat`, `Batches`,
`Recorder`, `RecorderProofs`, `Recorded`, `AnchorLog`): facts become canonical text, text becomes a
salted leaf of a hash chain, and leaves become Merkle batches. The digest is a parameter of every
definition and nothing assumes that it is injective. Each binding theorem says "equal, or this pair
is a collision", and a function of the inputs computes the pair. The event log is a transition
system of any number of sessions that record, flush, commit and roll back under chain locks, and of
the batcher's one-time updates.

**Money** (`Rounding`, `Ledger`, `Domain`, `Payouts`, `Actions`, `CaseInvariant`, `Outcomes`,
`RepairRules`, `Market`, `MarketInvariant`, `MarketRuns`, `MarketHistory`, `MarketEnds`,
`FinalAwards`, `CustodyTables`, `PayoutTables`, `RailReports`, `Races`, `Claims`, `Marketplace`,
`Repairs`): a double-entry ledger, escrow counters, the payout outbox and its executor, and the
transaction and dispute states that feed them. The rows of one transaction are kept together as a
*case*; a *world* is all cases and the ledger. `Market` gives every service call as one step, with
the rail, the provider and the callers as arbitrary inputs; `MarketRuns` proves what holds after
every run and `MarketHistory` what a case keeps from one moment of a run to any later one;
`MarketEnds` traces how a case ended and was funded to the step that decided it; `RailReports` sets
what the rail confirms against what is booked; `Races` drops the one-call-at-a-time rule for two
calls; `Marketplace` is the same services as methods of a class that assign rows one by one, record
transitions, queue payouts, commit and roll back, each proved to be its step.

**Codes and limiters** (`Limiter`, `PhoneCodes`, `Lockouts`, `PhoneAuth`): sliding-window limiters
and one-time SMS codes, under a clock that does not go back.

What the steps do is said twice, independently. The step functions follow the code; `Outcomes`,
`CustodyTables`, `PayoutTables`, `Lockouts`, `Recorded`, `WireFormat` and `CanonicalShape` give the design's
tables, column by column and with every constant written out, and each step is proved to follow them.

How to read it: the specification functions and the theorems about them come first in each component,
the imperative class last. Amounts are whole cents, ratios ten-thousandths, times integers in seconds.
Every lemma switches automatic induction off, so each proof uses only the induction written in its
body. Checking everything: `dafny verify dfyconfig.toml`.

## Where a promise fails

- **Guess bound.** The number of compared guesses per hour is bounded only for guesses that leave a
  trace. A right code whose caller is then refused (not a buyer, or not active) is rolled back and can
  be compared again without limit (`app/services/phone_auth.py:264-270`). `BoundHoldsExactly` says
  that the bound covers every comparison if and only if no caller rolls back, and `BoundedIffMaySignIn`
  that it covers a phone if and only if its account may sign in by code.
- **Escalation.** An issue in the category "other" opens the dispute already escalated while the
  transaction is only disputed (`app/services/transaction.py:1613-1641`), so agreement goes one way;
  `OtherCategoryEscalatesAlone` is the counterexample. `OnlyOtherParts` is the exact condition for one
  action, and `TogetherWithoutOther` carries it over every run.
- **Disputes of finished cases.** After such a report the missed send-back deadline releases the money
  and leaves the dispute escalated, where no admin can decide it (`ReleasedWithEscalatedDispute`). The
  guard is the sweep's own (`app/services/transaction.py:2454`): `TimeoutSettles` and `ActionSettles`
  are the exact conditions before a step, `FinalDisputesSettled` the one over every run.
- **Ledger repair.** A replayed movement is accepted whatever its amount
  (`app/services/ledger.py:79-95`), so an escrow whose repair key was used before keeps its gap
  (`UsedRepairKeyKeepsGap`); `RepairRestoresEquality` gives the exact condition.
- **Seller's share of zero** counts as absent and means one half (`app/services/dispute.py:295`):
  `ZeroSharePaysHalf` is the input, and `SplitPaysAsAskedExactly` says that a committed split pays the
  share it was asked for if and only if that share is not zero. The API's bounds of 0.01 and 0.99
  (`app/schemas/dispute.py:75-80`) are the caller's check: `AcceptedShareIsNotZero`.
- **Two calls at once.** A status is read before the chain lock and written without being read again
  (`app/services/transitions.py:23-46`). When two calls both read an undecided case and both commit,
  the recorded transitions are no path (`RaceNeverReplays`), and twice the amount is queued if and only
  if the inputs of each call say that it decides the case, for different purposes (`RaceQueues`, with
  `ConfirmAndWithhold` as an input).
- **Paid but not booked.** The executor asks the rail first and checks the funded balance after
  (`app/services/escrow_service.py:560-650`), so the counters stay within the funding
  (`CountersWithinFunding`) while the rail may have paid more. After a race that queued twice it pays
  both (`PaidTwiceBookedOnce`). Without any race it pays from an unfunded escrow where a production
  callback locked the transaction (`app/services/transaction.py:1119-1151`): `BookedIffFunded` is the
  exact condition for one payout, `PaysWithinFunding` the one over every run, and
  `UnfundedSalePaidManyTimes` the input.

## Model

| member | source | states |
|---|---|---|
| Merkle.SplitPointIsLargestPowerBelow | app/services/anchoring/merkle.py:35-39 | the bit-length formula gives the largest power of two strictly below the size (section 2.1 of RFC 6962) |
| MerkleProofs.PathVerifies | app/services/anchoring/merkle.py:59-74 | every audit path is accepted against the real root, with and without index and size, and has the sides its position must have |
| MerkleProofs.PathIsShort | app/services/anchoring/merkle.py:59-74 | a path has at most ceil(log2 n) steps |
| MerkleProofs.SidesAreShort | app/services/anchoring/merkle.py:91-106 | so has the list of sides for any index and size |
| MerkleProofs.InclusionSound | app/services/anchoring/merkle.py:91-141 | whatever is accepted at (index, size) against the real root is the leaf at that index, or a function of the inputs returns a digest collision |
| MerkleProofs.MembershipSound | app/services/anchoring/merkle.py:109-141 | without index and size, an accepted leaf hash is one of the tree's, or a collision is returned |
| MerkleProofs.RootBinds | app/services/anchoring/merkle.py:31-88 | two lists of leaf hashes of any two lengths with one root are the same list down to the hashed bytes, or a collision is returned; this needs the 0x00/0x01 prefixes |
| MerkleProofs.PositionsCannotBeSwapped | app/services/anchoring/merkle.py:123-141 | one proof accepted at two positions with different leaves yields a collision |
| MerkleTrees.MerkleTree.Create | app/services/anchoring/merkle.py:43-50 | a tree is built exactly from a non-empty list of 32-byte leaves; anything else is refused |
| MerkleTrees.MerkleTree.SubtreeRoot | app/services/anchoring/merkle.py:76-84 | the memoised recursion returns the plain recursive root of the span and leaves every table entry correct |
| MerkleTrees.MerkleTree.TreeRoot | app/services/anchoring/merkle.py:55-57 | the root after any sequence of calls is the Merkle tree hash of the leaves |
| MerkleTrees.MerkleTree.Proof | app/services/anchoring/merkle.py:59-74 | the loop from the root down returns the recursive audit path, or an index error outside the tree |
| MerkleTrees.ProofSides | app/services/anchoring/merkle.py:91-106 | the loop returns the recursive side list, or an index error |
| MerkleTrees.RootFromProof | app/services/anchoring/merkle.py:109-120 | the loop climbs exactly as the recursive definition, and refuses siblings of another length and unknown sides |
| MerkleTrees.VerifyInclusion | app/services/anchoring/merkle.py:123-141 | index and size only together; then acceptance is exactly positional verification, otherwise exactly plain verification |
| MerkleTrees.RoundTrip | app/services/anchoring/merkle.py:42-141 | a tree's own proofs are accepted at their position, and any other accepted claim is that leaf or hands over a collision |
| WireFormat.RootIs | app/services/anchoring/merkle.py:31-40 | a root is the leaf, or the digest of the byte 0x01, the left child and the right child, where the left child covers a power of two of the leaves and at least half |
| WireFormat.StepIs | app/services/anchoring/merkle.py:109-120 | a left sibling is digested before the running hash, a right one after it |
| WireFormat.ClimbIs | app/services/anchoring/merkle.py:109-120 | a proof is climbed from the leaf up |
| Unicode.Utf8Injective | app/services/anchoring/canonical.py:59-62 | two encodable texts with one UTF-8 encoding are the same text |
| Unicode.Utf8Table | app/services/anchoring/canonical.py:59-62 | the bytes of every code point, by the table of section 3 of RFC 3629: the shortest length and the bits of each byte |
| Unicode.UnitsAre | app/services/anchoring/canonical.py:86-93 | the UTF-16 units of every code point: itself, or a high and a low surrogate |
| Unicode.BigEndianKeepsOrder | app/services/anchoring/canonical.py:86-93 | comparing UTF-16BE bytes orders keys as comparing UTF-16 code units does (section 3.2.3 of RFC 8785) |
| Unicode.Utf16Injective | app/services/anchoring/canonical.py:86-93 | two encodable names with one UTF-16 encoding are the same name |
| Unicode.SortKeyOrders | app/services/anchoring/canonical.py:86-93 | two different names are strictly ordered, one way only |
| CanonicalParse.ParsePrint | app/services/anchoring/canonical.py:73-125 | a reader for the emitted grammar, stopped by what follows, gives back the printed value |
| CanonicalParse.RoundTrip | app/services/anchoring/canonical.py:65-125 | reading a whole printed text gives the value back |
| CanonicalParse.CanonicalTextReadsBack | app/services/anchoring/canonical.py:65-125 | every text canonical_json returns reads back as the value's normal form |
| CanonicalMeaning.EncodableIsCanon | app/services/anchoring/canonical.py:65-132 | canonical_json raises exactly on values that are not built from null, booleans, safe integers, encodable text and mappings and lists of these |
| CanonicalMeaning.SortDependsOnMembers | app/services/anchoring/canonical.py:86-93 | two member lists with distinct names and the same members sort to the same list |
| CanonicalMeaning.CanonicalTextDecidesSame | app/services/anchoring/canonical.py:65-125 | two values have one canonical text if and only if they are the same when read as nested maps and arrays, tuples as lists |
| CanonicalShape.EscapingIs | app/services/anchoring/canonical.py:115-125 | the escaping rule with its code points: the short forms one by one, other controls as a lower-case \u escape, everything else itself (section 3.2.2.2 of RFC 8785) |
| CanonicalShape.CanonicalIsShortest | app/services/anchoring/canonical.py:65-125 | of all texts that a JSON reader reads as the same value none is shorter than the canonical one: no needless escape, space or digit |
| CanonicalShape.MembersInOrder | app/services/anchoring/canonical.py:86-93 | the members of an object stand in ascending order of their names, by the first UTF-16 unit in which two names differ |
| CanonicalShape.SafeIntegers | app/services/anchoring/canonical.py:73-85 | integers are written up to 9007199254740991 either way and refused beyond |
| Encoder.EncodeString | app/services/anchoring/canonical.py:115-125 | the character loop produces the escaped, quoted text, or refuses text UTF-8 cannot encode |
| Encoder.EncodeItems | app/services/anchoring/canonical.py:102-108 | the list loop appends exactly the array's text |
| Encoder.SortEntriesCanon | app/services/anchoring/canonical.py:86-93 | sorting entries and then encoding them is encoding them and then sorting the members |
| Encoder.EncodeMapping | app/services/anchoring/canonical.py:86-101 | the mapping loop appends exactly the object's text, keys in order |
| Encoder.Encode | app/services/anchoring/canonical.py:73-112 | the appending encoder produces the printed normal form, and fails exactly where there is none |
| Encoder.CanonicalText | app/services/anchoring/canonical.py:65-70 | the returned text is canonical, is returned for exactly the encodable values, and reads back |
| Chain.LeafBytesInjective | app/services/anchoring/canonical.py:59-62 | the framing of prefix, salt, predecessor and payload is unambiguous |
| WireFormat.LeafIs | app/services/anchoring/canonical.py:59-62 | a leaf is the digest of the byte 0x00, the 32-byte salt, the 32-byte previous leaf and the UTF-8 text; other lengths and lone surrogates are refused |
| Chain.HeadBinds | app/services/anchoring/recorder.py:84-100 | two well-linked chains of any lengths with one last leaf are the same chain, or a collision or a preimage of the zero hash is returned |
| Chain.NoFork | app/models/anchor_event.py:36-51 | two events of one chain naming one predecessor give away a collision or a preimage of the zero hash |
| Batches.BatchRootBinds | app/services/anchoring/merkle.py:31-88 | two batches of events, of any sizes, whose trees have one root hold the same salts, predecessors and payload texts in the same order, or a collision is returned |
| RecorderProofs.NextKeeps | app/services/anchoring/recorder.py:73-105 | one record, flush, commit, rollback or batch assignment of any session keeps the log's invariant |
| RecorderProofs.RunsKeepInv | app/services/anchoring/recorder.py:73-105 | so does every interleaving of any number of sessions |
| RecorderProofs.ChainsStayLinear | app/services/anchoring/recorder.py:207-229 | after any run each chain's committed events, in id order, link each to the one before and the first to the zero hash |
| RecorderProofs.CachedHeadIsNewest | app/services/anchoring/recorder.py:207-229 | a session's cached head is the newest leaf it can see or has added, and it holds that chain's lock |
| RecorderProofs.CommittedHeadBinds | app/services/anchoring/recorder.py:84-100 | two histories whose chains end in one leaf hold the same salts and payloads, or evidence against the digest is returned |
| RecorderProofs.CommittedRowsKept | app/db/immutability.py:61-92 | one step never loses or edits a committed row; its batch columns are set at most once |
| RecorderProofs.HistoryIsAppendOnly | app/db/immutability.py:61-92 | neither does any run, from any moment of it to its end |
| Recorded.RecordIs | app/services/anchoring/recorder.py:73-105 | one record adds one row exactly when the payload can be encoded and no other session holds the chain; the row has the given chain, type and salt, the payload's own canonical text, the chain's head and their digest |
| Recorded.HeadIs | app/services/anchoring/recorder.py:207-229 | a chain's head is the leaf of its newest row, or 32 zero bytes |
| Recorded.CommittedEventsAre | app/services/anchoring/recorder.py:73-105 | over every run each chain refines a plain list with one writer at a time: its committed events, in id order, are those of the list |
| Recorded.CommittedEventsSurvive | app/services/anchoring/recorder.py:288-291 | over every run the committed events of a chain are exactly those recorded on it by a session that next committed, with their types, salts and canonical texts, in the order of the record steps |
| Recorded.AssignIs | app/db/immutability.py:61-92 | a batch update sets the three batch columns of a committed row that has none; any other update changes nothing |
| AnchorLogs.AnchorLog.NewestLeaf | app/services/anchoring/recorder.py:218-229 | the search from the newest id down finds the chain's newest visible leaf, or the zero hash |
| AnchorLogs.AnchorLog.RecordAnchorEvent | app/services/anchoring/recorder.py:73-105 | refines the record step; raises exactly where the payload cannot be encoded, waits exactly where another session holds the chain, and otherwise adds an honest row with the given chain, type, salt and the payload's text |
| AnchorLogs.AnchorLog.FlushSession | app/services/anchoring/recorder.py:194-200 | the insert loop gives the unflushed rows the next ids, in order |
| AnchorLogs.AnchorLog.Commit | app/services/anchoring/recorder.py:288-291 | publishes the session's rows, releases its locks and drops its cached heads |
| AnchorLogs.AnchorLog.Rollback | app/services/anchoring/recorder.py:288-291 | drops rows, locks and cached heads and leaves committed rows alone |
| AnchorLogs.AnchorLog.AssignBatch | app/db/immutability.py:61-92 | sets a committed row's three batch columns once; every other update is refused |
| Rounding.NearestEven | app/services/escrow_service.py:409-430 | the rounding picks a nearest integer and, on a tie, the even one; no other integer qualifies |
| Rounding.RatioIs | app/services/escrow_service.py:409-430 | a share in ten-thousandths is the nearest one, the even one on a tie |
| Rounding.SplitConserves | app/services/escrow_service.py:113-118 | release and refund add up to the amount, both stay in [0, amount], and the release is within half a cent of the exact share |
| Rounding.SplitMonotone | app/services/escrow_service.py:113-118 | a larger ratio never releases less |
| Rounding.SplitPositive | app/services/escrow_service.py:120-154 | exactly when each share is positive, as a split payout requires |
| Ledger.PostKeepsSound | app/services/ledger.py:58-144 | whatever is posted, the entries under every idempotency key balance and keep to one escrow |
| Ledger.PostDecision | app/services/ledger.py:68-110 | on a sound ledger an acceptable movement is posted exactly when its key is unused, replayed for the same escrow whatever its amount, and refused for another escrow |
| Ledger.PostingIs | app/services/ledger.py:58-144 | what a movement is refused for outright, and that a posted one adds one debit and one credit, each to its account |
| Ledger.PostedHeld | app/services/ledger.py:112-144 | what one movement does to the held account of every escrow |
| Ledger.EscrowLedger.IsBalanced | app/services/ledger.py:188-199 | the loop decides whether debits equal credits |
| Ledger.EscrowLedger.EntriesByKey | app/services/ledger.py:167-174 | the entries under a key, in order |
| Ledger.EscrowLedger.PostMovement | app/services/ledger.py:58-144 | the outcome and the new entries for every movement; soundness is kept |
| Ledger.EscrowLedger.HeldBalanceOf | app/services/ledger.py:146-165 | the loop returns held debits minus held credits |
| CaseInvariant.QueueFull | app/services/escrow_service.py:225-323 | queueing the full amount at a final state leaves exactly one waiting attempt, for the escrow's own rail |
| CaseInvariant.QueueSplitPlan | app/services/escrow_service.py:120-154 | a split queues two positive shares that add up, release first |
| CaseInvariant.DecidedKeeps | app/services/escrow_service.py:95-111 | a move to a final state with its payout either commits consistently or is undone as a whole |
| CaseInvariant.WithheldTrail | app/services/transaction.py:1065-1117 | the withheld flow records its three transitions as a path |
| CaseInvariant.OtpConfirmedKeeps | app/services/transaction.py:1405-1490 | confirming the code keeps the case invariant on every branch |
| CaseInvariant.IssueReportedKeeps | app/services/transaction.py:1579-1686 | opening a dispute keeps it, for every rejection count the evidence claims |
| CaseInvariant.SellerResolvedKeeps | app/services/transaction.py:1811-1927 | the seller's resolution keeps it |
| CaseInvariant.RejectedKeeps | app/services/transaction.py:1930-2064 | a rejected replacement goes back once and then to support, and keeps it |
| CaseInvariant.ForceResolvedKeeps | app/services/dispute.py:212-375 | every admin decision keeps it |
| CaseInvariant.PerformKeeps | app/services/transaction.py:1307-2064 | every party action and admin decision, committed or refused, keeps it and moves no money |
| CaseInvariant.TimeoutKeeps | app/services/transaction.py:2314-2532 | so does every timeout rule |
| Outcomes.PerformFollows | docs/anchoring-design.md:132-142 | every party action and admin decision commits exactly when the table admits it (caller, state, inputs, payable parties), leaves the case that the table gives column by column, and is refused for the reason the table gives |
| Outcomes.DecisionFollows | app/services/dispute.py:212-375 | so for the admin's decision: the status, the dispute's status, decision and ratio, the stamps, and who is paid |
| Outcomes.DecidedCallPays | docs/m13_transition_ledger_mapping.md:5-17 | exactly the calls of the payout table end a case, and they queue its whole amount to the seller, to the buyer, or in the two shares of a split |
| Outcomes.DeadlinesAre | app/services/deadlines.py:38-57 | the five deadlines in seconds, and the rule each sets off |
| Outcomes.SweepFollows | docs/anchoring-design.md:143-147 | a sweep leaves a case alone until its time is over and then does what the table says, or fails where the payout has no destination or no rail |
| MarketInvariant.FundedKeepsMoney | app/services/ledger.py:202-229 | posting the funding keeps held debits equal to the funded amount |
| MarketInvariant.CallbackKeeps | app/services/transaction.py:1154-1262 | a payment callback keeps case and ledger consistent, and never locks an eConfirm transaction |
| MarketInvariant.PollKeeps | app/services/custody/econfirm_orchestration.py:218-297 | a polled escrow is funded and locked together |
| MarketInvariant.OpenKeeps | app/services/custody/econfirm_orchestration.py:60-155 | the three answers to opening an escrow keep the custody rules |
| MarketInvariant.PromptKeeps | app/services/custody/econfirm_orchestration.py:158-203 | a prompt goes out only for a referenced, unflagged eConfirm escrow |
| MarketInvariant.PaidKeepsMoney | app/services/escrow_service.py:628-669 | a settled payout moves ledger and counters by the same amount |
| MarketInvariant.SettleKeeps | app/services/escrow_service.py:477-677 | one executor attempt keeps case and ledger consistent whatever the rail answers |
| PayoutTables.SettleIs | app/services/escrow_service.py:477-677 | one attempt of a reachable case, column by column: reference and outcome, the counter of its direction, the derived status, and the two ledger rows of a booked payout |
| PayoutTables.EnqueueIs | app/services/escrow_service.py:225-323 | queueing a payout on an arbitrary case: when it raises, when an earlier attempt stands in, and otherwise the one new attempt with its payee, amount and rail |
| PayoutTables.AskedOneWay | app/services/escrow_service.py:520-590 | an attempt with a provider reference is only inquired about, one without only requested |
| PayoutTables.StatusMeans | app/services/escrow_service.py:156-223 | what each payout status says about the newest attempts |
| CustodyTables.CreateIs | app/services/transaction.py:294-395 | who may create a sale, for what, and the rows it starts with |
| CustodyTables.OpenIs | app/services/custody/econfirm_orchestration.py:60-155 | the three answers to opening, column by column |
| CustodyTables.PromptsAre | app/services/custody/econfirm_orchestration.py:172-189 | a first or repeated prompt is recorded exactly for an unflagged eConfirm escrow with a reference |
| CustodyTables.CallbackIs | app/services/transaction.py:1154-1262 | a callback locks exactly a sale that awaits a simulated payment and reports success; outside production it funds and books it in full |
| CustodyTables.PollIs | app/services/custody/econfirm_orchestration.py:241-294 | a polled escrow is funded, booked and locked exactly when it is reported funded within the payment window |
| CustodyTables.BatchIs | app/services/custody/econfirm_orchestration.py:241-255 | a poll run takes the oldest waiting escrows up to its budget |
| MarketInvariant.WithCaseKeeps | app/services/ledger.py:58-144 | a step on one case cannot disturb another case's money |
| MarketRuns.NextKeeps | app/services/transaction.py:1154-2532 | every service call, sweep, poll and executor run keeps the whole system's invariant |
| MarketRuns.RunsKeepInv | app/services/transaction.py:1154-2532 | it holds after every run from the empty system |
| MarketRuns.PaidOutExactlyOnce | app/services/escrow_service.py:95-154 | in every reachable state the queued payouts total zero before a transaction is final and its amount once it is; never a full release and a full refund, never two for one purpose |
| MarketRuns.EscrowConserved | app/services/ledger.py:146-165 | in every reachable state every key balances, held debits are the funding (at most the amount), held credits what was released and refunded, and the balance is the difference and not negative |
| MarketRuns.AccountsConserved | docs/m13_transition_ledger_mapping.md:5-17 | in every reachable state, per escrow: SELLER_PAYABLE is debited what was released, BUYER_REFUNDABLE what was refunded, BUYER_CLEARING credited what was funded, ESCROW_HELD debited the one and credited the others; no row uses any other account or side |
| MarketRuns.SucceededIsSettled | app/services/escrow_service.py:156-223 | against any rail, a payout status of succeeded means released plus refunded is the amount, as queued, and the ledger holds nothing |
| MarketRuns.TransactionAndDisputeAgree | app/services/dispute.py:233-319 | at most one dispute; escalated with its transaction; resolutions match pairwise; none left in progress behind an escalated or final transaction |
| MarketEnds.TimeoutSettles | app/services/transaction.py:2442-2515 | what can be read before a sweep: a timeout that ends a case settles its dispute unless the rule is the missed send-back and the dispute already stands escalated |
| MarketEnds.ActionSettles | app/services/transaction.py:1405-2064 | every action or admin decision that ends a case settles its dispute, without exception |
| MarketEnds.FinalDisputesSettled | app/services/transaction.py:2442-2515 | over every run: the dispute of a final case is resolved or canceled if and only if no sweep of the run selected the case by the missed send-back query while its dispute stood escalated |
| MarketEnds.FinalDisputesSettledWithoutOther | app/services/transaction.py:1613-1641 | without a report under "other" it always is |
| FinalAwards.FinalStateTraced | docs/anchoring-design.md:129-147 | over every run: a case is in a final state if and only if a step of the run ended it there by the tables |
| FinalAwards.RefundedIffOrdered | app/services/dispute.py:259-319 | over every run: resolved by refund if and only if an admin's refund decision committed, and by split if and only if a split decision did |
| FinalAwards.PayoutsStayRight | app/services/escrow_service.py:90-111 | from any moment of a run to its end the parties and the amount never change, and payouts keep going to the party their direction names |
| FinalAwards.FinalStatesPay | docs/m13_transition_ledger_mapping.md:5-17 | in every reachable state: what each final state pays the seller and the buyer, to the cent, and nothing before |
| MarketEnds.ReleasedWithEscalatedDispute | app/services/transaction.py:2442-2515 | the input: from any case in hold, a report under "other" and then the missed send-back deadline release the money; no admin can decide the dispute and the repair does not list it |
| MarketRuns.EscalatedCanBeResolved | app/services/dispute.py:233-292 | an escalated reachable case passes both state checks, so a routable release or refund commits |
| MarketRuns.OtherCategoryEscalatesAlone | app/services/transaction.py:1613-1641 | the converse fails: the category "other" leaves an escalated dispute on a transaction that is only disputed, and an admin decision is refused there |
| MarketRuns.OnlyOtherParts | app/services/transaction.py:1613-1641 | per step: a committed party action or decision on a case whose transaction and dispute are escalated together keeps them so if and only if it is not a report under "other" |
| MarketHistory.NextStays | app/services/transaction.py:1154-2532 | every step of any kind, timeouts and settlement included, keeps reference and custody of every case, and keeps transaction and dispute escalated together unless it commits a report under "other" |
| MarketHistory.TogetherWithoutOther | app/services/transaction.py:1613-1641 | over every run without a committed report under "other", every case is escalated together |
| MarketRuns.CommittedSplitPays | app/services/dispute.py:293-319 | a committed split pays the rounded shares of the ratio in force, the release being positive |
| MarketRuns.SplitPaysAsAskedExactly | app/services/dispute.py:293-319 | it pays the share that was asked for if and only if that share is not zero |
| MarketRuns.ZeroSharePaysHalf | app/services/dispute.py:293-319 | the failing input: a share of zero commits and pays the seller half |
| Rounding.AcceptedShareIsNotZero | app/schemas/dispute.py:75-80 | a share within the bounds of the API is not zero and its ratio lies strictly between zero and one |
| MarketRuns.StatusReplays | app/services/transitions.py:23-76 | recorded transitions form a path from awaiting_payment to the row's status, at most twelve long |
| MarketRuns.ActionsMakeProgress | app/services/transaction.py:860-873 | every action that changes the status lowers a measure, whatever rejection count the evidence starts with |
| MarketRuns.TerminalIsFinal | app/services/transaction.py:1307-2532 | nothing changes a final case |
| MarketRuns.CustodyHonoured | app/services/transaction.py:217-291 | first and repeated prompts only for referenced, unflagged escrows; no reference on simulated custody; an eConfirm transaction past awaiting_payment is fully funded, on the ledger too, and pays out only through eConfirm |
| MarketRuns.SwitchOnlyBeforeReference | app/services/custody/econfirm_orchestration.py:86-155 | one returning call: it changes custody only when rejected, while the opening call is out and no provider reference exists, and never drops a reference |
| MarketHistory.CustodyIsSticky | app/services/custody/econfirm_orchestration.py:86-155 | over every run, from any moment of it to its end: a provider reference stays and fixes the custody; custody differs at the end only if the transaction then still awaited payment, on eConfirm, with its opening call out and no reference |
| MarketRuns.SweepMovesExactlyTheDue | app/services/transaction.py:2237-2532 | a sweep, selecting by its own queries, moves exactly the transactions whose deadline is at or before now, each by the rule of its state |
| Actions.QueriesMirrorDeadlines | app/services/transaction.py:2237-2311 | each of the five queries (status, column present, column at or before its cutoff) returns exactly the transactions of its state whose deadline, computed separately, is at or before now; no two queries return one row |
| Marketplaces.ListedIffDeadlinePassed | app/services/deadlines.py:38-57 | a transaction is in a list selected by its query if and only if it is in that state and its deadline is at or before now |
| MarketRuns.SecondSweepChangesNothing | app/services/transaction.py:2314-2532 | a second sweep at the same moment changes nothing |
| MarketRuns.WatchedStatesHaveDeadlines | app/services/deadlines.py:38-57 | a reachable transaction has a deadline exactly in the five watched states |
| Marketplaces.LatestByPurpose | app/services/escrow_service.py:172-190 | the walk from the newest attempt keeps exactly the last attempt of each purpose |
| Marketplaces.DerivePayoutStatus | app/services/escrow_service.py:156-223 | the derived status is the one the latest attempts give |
| Marketplaces.Marketplace.Commit | app/services/anchoring/recorder.py:245-285 | the flush guard catches exactly the rows whose status changed without being recorded |
| Marketplaces.Marketplace.TransitionTransaction | app/services/transitions.py:23-46 | sets the status and records the transition from the previous one |
| Marketplaces.Marketplace.RefreshPayoutStatus | app/services/escrow_service.py:156-223 | stores the derived payout status |
| Marketplaces.Marketplace.EnqueuePayoutIntent | app/services/escrow_service.py:225-323 | adds one intent, or only refreshes when one that has not definitely failed exists, or fails |
| Marketplaces.Marketplace.DispatchTransaction | app/services/transaction.py:1307-1349 | refines the dispatch step; errors leave everything as it was |
| Marketplaces.Marketplace.MarkArrived | app/services/transaction.py:1352-1402 | refines the arrival step |
| Marketplaces.Marketplace.ConfirmDeliveryOtp | app/services/transaction.py:1405-1490 | refines code confirmation, with the wrong-code commit and the payout rollback |
| Marketplaces.Marketplace.ApplyWithheldFlow | app/services/transaction.py:1065-1117 | assigns and records the three moves in order |
| Marketplaces.Marketplace.WithholdDeliveryOtp | app/services/transaction.py:1518-1576 | refines the withheld code |
| Marketplaces.Marketplace.ReportFunctionalIssue | app/services/transaction.py:1579-1686 | refines opening a dispute |
| Marketplaces.Marketplace.MarkSentBack | app/services/transaction.py:1689-1748 | refines the buyer sending the item back |
| Marketplaces.Marketplace.MarkSellerReceived | app/services/transaction.py:1751-1808 | refines the seller receiving it |
| Marketplaces.Marketplace.ApplySellerResolution | app/services/transaction.py:1811-1927 | refines the seller's resolution |
| Marketplaces.Marketplace.SubmitReconfirmation | app/services/transaction.py:1930-2064 | refines the buyer's reconfirmation and its retry count |
| Marketplaces.Marketplace.EscalateCase | app/services/dispute_escalation.py:42-128 | refines escalation by a party |
| Marketplaces.Marketplace.ForceResolveCase | app/services/dispute.py:212-375 | refines the admin decision |
| Marketplaces.Marketplace.QueueShares | app/services/escrow_service.py:120-154 | queues both shares of a split, or fails |
| Marketplaces.Marketplace.Perform | app/services/transaction.py:1307-2064 | each call is one step of the transition system, answers with its error, keeps the invariant, and never trips the flush guard |
| Marketplaces.AnswersAre | app/services/transaction.py:1307-2064 | what a call answers, by the tables; for a missing transaction after the role check |
| Marketplaces.CallbackAnswersAre | app/services/transaction.py:1154-1262 | what a callback answers, by what it finds |
| Marketplaces.ResendAnswersAre | app/services/payment_prompts.py:218-291 | each answer to a resend exactly when it applies |
| Marketplaces.SweepCountsAre | app/services/transaction.py:2516-2532 | a sweep's five counts are the overdue transactions of the five timed states |
| Marketplaces.TallyIs | app/services/escrow_service.py:679-686 | an executor run's counts are the final outcomes of the claimed attempts |
| Marketplaces.CreationKeeps | app/services/transaction.py:294-395 | creation is the steps create, open, prompt, and keeps the invariant |
| Marketplaces.Marketplace.CreateTransaction | app/services/transaction.py:217-395 | refines creation on both custody paths, with its refusals, and raises exactly where payment did not start: an unclear open, a rejected prompt, a failing gateway |
| Marketplaces.Marketplace.OpenEscrow | app/services/custody/econfirm_orchestration.py:60-155 | refines the three answers to opening an escrow |
| Marketplaces.Marketplace.RequestFunding | app/services/custody/econfirm_orchestration.py:158-203 | refines the prompt request |
| Marketplaces.Marketplace.ResendPaymentPrompt | app/services/payment_prompts.py:185-291 | refines the resend step: not the buyer's, not unpaid, too soon and not ready are refused in that order, and an eConfirm prompt goes out only for a ready escrow |
| Marketplaces.Marketplace.PostEscrowFunding | app/services/ledger.py:202-229 | posts what is not funded yet and sets the funded amount with it; raises, unchanged, exactly where the ledger refuses |
| Marketplaces.Marketplace.LockTransaction | app/services/transaction.py:1265-1304 | locks a funded transaction and records it |
| Marketplaces.Marketplace.ConfirmPaymentCallback | app/services/transaction.py:1154-1262 | refines the callback: a missing transaction raises, a ledger refusal raises (in no reachable state), a caller told "locked" finds it locked |
| Marketplaces.Marketplace.SelectPollable | app/services/custody/econfirm_orchestration.py:241-255 | exactly the escrows awaiting funding, oldest first |
| Marketplaces.Marketplace.RunFundingPoll | app/services/custody/econfirm_orchestration.py:218-297 | refines a poll run over the oldest escrows up to its budget and counts what it polled, funded and skipped; a ledger refusal undoes the run (in no reachable state) |
| Marketplaces.Marketplace.SettleAttempt | app/services/escrow_service.py:477-677 | refines one attempt of the executor |
| Marketplaces.Marketplace.RunPayoutExecutor | app/services/escrow_service.py:446-686 | refines an executor run: it claims the oldest attempts with unknown outcome that are not locked, up to the batch, and its counts are their final outcomes |
| Claims.SelectClaims | app/services/escrow_service.py:457-467 | the claiming query: distinct unlocked attempts with unknown outcome, oldest first, up to the batch; none left out is older than one claimed, or would still fit |
| Marketplaces.Marketplace.SelectDue | app/services/transaction.py:2237-2311 | exactly the rows that meet the query as written: status, column present, column at or before the cutoff |
| Marketplaces.DueIdsAreDue | app/services/transaction.py:2237-2311 | the list of a query holds every row that meets its conditions, no other, and none twice |
| Marketplaces.NextRule | app/services/transaction.py:2237-2334 | the next rule's list is disjoint from what the earlier rules moved |
| Marketplaces.Marketplace.ApplyTimeout | app/services/transaction.py:2344-2515 | refines the rule of one selected transaction |
| Marketplaces.Marketplace.RunTimeoutJobs | app/services/transaction.py:2314-2532 | refines a sweep: all lists first, then all rules, counted per rule; a payout that cannot be queued undoes the whole sweep |
| Repairs.NothingStranded | app/services/return_case_repair.py:54-85 | no reachable state has a stranded return case |
| RepairRules.RepairIs | app/services/return_case_repair.py:54-126 | the repair of a return case, state by state and column by column |
| Repairs.SecondRepairOnlyReviews | app/services/return_case_repair.py:88-126 | on arbitrary rows, what a second repair finds is exactly the review cases of the first |
| Repairs.RepairIsConfined | app/services/return_case_repair.py:88-126 | a repair changes only the newest dispute of a stranded case; an escalated one becomes decidable |
| RepairRules.FundingRepairIs | app/services/funding_ledger_repair.py:58-115 | what is a funding gap, and the two rows that repairing one posts |
| Repairs.RepairRestoresEquality | app/services/funding_ledger_repair.py:58-128 | one run makes held debits equal the funding if and only if they were equal or under-posted with an unused repair key; over-posted escrows and credits are left alone |
| Repairs.NoGaps | app/services/funding_ledger_repair.py:58-80 | no reachable state has a funding gap |
| MarketRuns.RepairsFindNothing | app/services/funding_ledger_repair.py:58-128 | in no reachable state does either repair find or change anything, so runs may contain them anywhere |
| Repairs.UsedRepairKeyKeepsGap | app/services/funding_ledger_repair.py:83-128 | the failing input: one cent under the repair key of an under-posted escrow, and the repair replays it and leaves the gap |
| Repairs.RepairSession.FindStrandedReturnCases | app/services/return_case_repair.py:54-85 | the loop lists exactly the stranded cases with their action |
| Repairs.RepairSession.RepairStrandedReturnCases | app/services/return_case_repair.py:88-126 | refines the repair, or only lists |
| Repairs.RepairSession.FindFundingGaps | app/services/funding_ledger_repair.py:58-80 | the loop lists exactly the gaps |
| Repairs.RepairSession.RepairFundingLedger | app/services/funding_ledger_repair.py:83-128 | refines the repair, or only lists; a refused posting undoes the run |
| Limiter.NeverOverLimit | app/services/phone_auth.py:94-105 | over a limiter's whole history no window, ending at any moment, holds more admissions than the limit |
| Limiter.NoBurst | app/services/phone_auth.py:94-105 | by the clock: any limit + 1 admissions in a row span at least one window, strictly more where the edge counts |
| Limiter.RefusedOnlyWhenFull | app/services/auth.py:114-133 | a refusal means that limit admissions are less than a window old |
| Limiter.AdmitKeepsSpread | app/services/auth.py:114-133 | admitting into a pruned bucket with room keeps it so |
| Limiter.PrunedIsWindow | app/services/auth.py:120-127 | a pruned bucket holds exactly the history's admissions of the last window |
| Limiter.RateLimiter.Check | app/services/phone_auth.py:94-105 | the deque loop admits exactly when the last window has room, and records the admission |
| Limiter.RateLimiter.Clear | app/services/auth.py:136-139 | a successful log-in forgets one key and no other |
| Limiter.RateLimiter.Bounded | app/services/auth.py:114-133 | the rate bound in every state a limiter can reach |
| PhoneCodes.RunsKeepInv | app/services/phone_auth.py:132-251 | the invariant of codes and guesses holds after every run of requests and checks |
| PhoneCodes.OneUnused | app/services/phone_auth.py:173-194 | at most one code of a phone and purpose is unused |
| PhoneCodes.SucceedsOnce | app/services/phone_auth.py:222-251 | a code succeeds at most once and nothing is compared with it afterwards |
| PhoneCodes.HourlyLimitHolds | app/services/phone_auth.py:155-169 | no rolling hour issues a phone more codes than the limit |
| PhoneCodes.GuessBound | app/services/phone_auth.py:222-251 | in any rolling hour the guesses that leave a trace, per phone and purpose, are at most (hourly limit + 1) times the attempts of a code |
| PhoneCodes.ComparedSplits | app/services/phone_auth.py:222-270 | every comparison is either such a guess or a right one its caller rolls back |
| PhoneCodes.RolledBackIsUnbounded | app/services/phone_auth.py:264-270 | rolled back comparisons have no bound: a run with n of them on one unchanged code, for every n |
| PhoneCodes.BoundHoldsExactly | app/services/phone_auth.py:222-270 | the guess bound covers every comparison, over all runs, if and only if callers never roll a right guess back |
| PhoneCodes.LockoutHolds | app/services/phone_auth.py:145-153 | until a lockout ends, no run compares anything with that phone and purpose, rolled back or not, or replaces the locked code |
| Lockouts.RunsKeepTimes | app/services/phone_auth.py:173-194 | in every reachable state a code expires ttl seconds after its creation and is locked exactly when its tries are used up, for the lockout's length |
| Lockouts.RequestsAre | app/services/phone_auth.py:132-204 | in every reachable state: exactly when a request is granted, by lockout, resend interval, hour and quota, and the rows it leaves |
| Lockouts.ChecksAre | app/services/phone_auth.py:222-251 | in every reachable state: what a guess is answered and changes, before and after the code's time, at the last try and during the lockout |
| Lockouts.LockoutLasts | app/services/phone_auth.py:237-251 | after the last allowed wrong guess at t, in every run before t + lockout: nothing is compared, every guess is answered LockedOut, every request refused |
| Lockouts.TriesAreCounted | app/services/phone_auth.py:237-251 | a fresh code takes exactly as many wrong guesses as it has tries, and the last one locks it |
| PhoneAuths.SignInIs | app/services/phone_auth.py:254-282 | who may sign in by code, how each account is answered, and the client's twenty codes per hour |
| PhoneAuths.PhoneAuth.LatestCode | app/services/phone_auth.py:80-86 | the newest code of a phone and purpose |
| PhoneAuths.PhoneAuth.RequestPhoneCode | app/services/phone_auth.py:132-204 | refines the request; the client's quota is spent only when everything else allows a code |
| PhoneAuths.PhoneAuth.ConsumePhoneCode | app/services/phone_auth.py:222-251 | refines the check: wrong tries are durable at once, success only when the caller commits |
| PhoneAuths.PhoneAuth.VerifyPhoneCode | app/services/phone_auth.py:254-282 | a buyer who may sign in uses the code up; anyone else is refused and the row is as before |
| PhoneAuths.BoundedIffMaySignIn | app/services/phone_auth.py:254-270 | the check a caller can make: over all runs, sign-in comparisons at a phone stay within that bound in every hour if and only if its account may sign in by code |
| Races.CommitsMove | app/services/transaction.py:1405-2532 | whether, and for what, a call will have decided the payout if it commits is a table of its inputs; every committed call also leaves the status it read |
| Races.RaceQueues | app/services/escrow_service.py:225-323 | two calls that read one undecided case before either locks and that both commit queue twice the amount if and only if, by that table, each decides the case and for different purposes; otherwise the amount, or nothing while undecided |
| Races.SecondSplitRaises | app/models/payout_attempt.py:17-24 | of two racing splits only the first commits: a split queues before it locks, and the index of one live intent per purpose refuses the second |
| Races.RaceNeverReplays | app/services/transitions.py:23-46 | when both commit, the recorded transitions are no path |
| Races.ConfirmAndWithhold | app/services/transaction.py:1405-1576 | the input: the buyer confirms and withholds the code at once, and a full release and a full refund are queued |
| Races.CountersWithinFunding | app/services/escrow_service.py:628-669 | whatever is queued, one settled attempt keeps the counters, released plus refunded, within what was funded |
| Races.PaidTwiceBookedOnce | app/services/escrow_service.py:560-650 | but not the rail: asked for two full payouts it pays both, the first is booked, and the second is left as it was to be asked for again |
| MarketEnds.FundedUnlessProductionLocked | app/services/transaction.py:1119-1151 | over every run: past awaiting payment a transaction is funded in full if and only if no production callback locked it; unfunded otherwise |
| RailReports.BookedIffFunded | app/services/escrow_service.py:560-669 | a payout the rail confirms is booked, on the attempt, the counters and the ledger, if and only if the escrow is funded; otherwise it stays undecided and nothing is booked |
| RailReports.ReportsAreBooked | app/services/escrow_service.py:477-677 | over every run: everything the rail confirmed for a funded transaction is exactly what the counters hold; for an unfunded one they hold nothing |
| RailReports.PaysWithinFunding | app/services/escrow_service.py:560-650 | over every run: the rail confirms no more than was funded if and only if it confirmed nothing or no production callback locked the transaction |
| RailReports.PaysAgainAndAgain | app/services/escrow_service.py:560-650 | from any reachable state with an unbooked payout waiting in an unfunded case, n executor runs make a rail that gives no reference pay it n times and change nothing |
| RailReports.UnfundedSalePaidManyTimes | app/services/transaction.py:1119-1151 | the input: a sale locked by a production callback and confirmed at the door; for every n, n runs pay n times the price with nothing booked |

## Left out

- Routers, schemas, migrations, HTTP transports and provider wire formats, notifications, audit texts and retry-after hints: no effect on the proved state. Rails and providers are arbitrary answers.
- Keccak, HMAC, Fernet and password hashing: the digest is a parameter, a code check is an arbitrary yes or no.
- Anchor payload builders (`plain_json`, money, ratio and timestamp texts), the backfill and links between events: the recorder takes any payload.
- `anchoring_ready` on partial schemas, uniqueness of source rows, savepoints, the SQLite path without locks and the guard's non-strict mode.
- `RecorderProofs.RunsKeepInv`: every chain is assumed lockable; a transaction row that another session has not committed yet cannot be locked in the database and is not modelled.
- `MarketRuns.RunsKeepInv`: each service call is one atomic step. `Races` takes two calls that read before either locks, with the status, transitions and intents they leave; a split that has to open the escrow as well is taken to fail against the other call's escrow. The dispute and timestamp columns after such a race, and three calls at once, are not modelled.
- Crash points inside an executor run and concurrent executors: a run is one step, so `MarketRuns.EscrowConserved` speaks of states between runs.
- `Claims.SelectClaims`: attempts created at the very same time come in any order. Exceptions raised by a status inquiry are not modelled.
- `Marketplaces.Marketplace.SettleAttempt`: a payout movement the ledger refuses; `MarketInvariant.PaidKeepsMoney` shows that no reachable state has one.
- `Marketplaces.Marketplace.SelectPollable`: escrows are ordered by their transaction's creation.
- Escrow rows without a transaction and attempts without an escrow: an escrow is identified with its transaction.
- Currencies other than KES, text stripping in the ledger and entry group ids.
- Idempotency keys and payout purposes are constructors of a datatype, one per text pattern; two patterns never spell the same key.
- `Encoder.EncodeMapping`: keys are sorted together with their values rather than looked up after sorting.
- Payment prompt rows, their lifetime and the resend cooldown: whether a resend comes too soon is an arbitrary input, and only prompts through eConfirm are recorded.
- Counters that move no money: failed delivery codes, door rejection notes, mutual resolution confirmations, account lockout after failed log-ins.
- `run_payout_reconciliation` alerts, breaker state, the simulated provider's admin tools, search, lists, analytics and profiles.
- `PhoneCodes.RunsKeepInv`: the newest code is the last one inserted; two codes created at the very same moment are not told apart by time. The clock does not go back.
- `Limiter.NeverOverLimit`: for log-ins the history starts at the key's last successful log-in, which clears it.
