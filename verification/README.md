# Inter-colony trade platform: model and proofs

The platform lets colonies trade although messages between them may take days. A seller's colony writes an offer into
its outbox; a relay carries bundles of signed envelopes; the buyer's colony debits the buyer when the offer is accepted
and the seller's colony credits the seller, or decides a refund, when the acceptance arrives. The relay may drop,
repeat, reorder or re-wrap messages. Every colony keeps an append-only hash-chained ledger, a mint policy and
dual-control proposals. The state is held in a JSON file or in PostgreSQL.

## How the project is organised

| modules | content |
|---|---|
| `Basics`, `TradeTable`, `Model` | 64-bit arithmetic, sums, the status table, the rows of the state, the ledger, and `Post`, the one way a step changes a state |
| `Handlers` | the specification: `Plan...` functions decide the effect of a request or an envelope, or its error |
| `Invariant`, `Preserve`, `Lawfulness`, `Runs` | the inductive invariant, why a lawful effect keeps it, why every handler's effect is lawful, and arbitrary runs |
| `Theorems`, `Authority`, `Decisions` | what the invariant means for whole runs, who can move money and decide proposals, and that the decisions which leave are the ones recorded |
| `Rights`, `Promises`, `AdminPromises` | who is calling and what their roles allow; for every request, exactly when it succeeds and the whole state it leaves, told from the request and the state alone |
| `Provenance`, `Evidence`, `Answers` | the same for bundles: every message looked at is signed by its colony, every trade that changed is as one of them says, none is left waiting, and the answer is true |
| `Mandates` | over every operation: what a policy or a trade may become, and who or what may make it so |
| `Honest`, `Delivery` | that honest delivery fails only by overflow, and exactly when it does |
| `Service`, `Store` | the handlers step by step on a mutable working state (`AppState`), each proved equal to its specification, and the file-backed store |
| `Scopes`, `Simulation`, `ScopedImports`, `ScopedRequests`, `ScopedSweeps` | which rows a scope discovers, and that working on those rows alone is working on the whole state |
| `BlankTrades`, `BlankBundles`, `StoredBundles`, `Refinement`, `Examples` | exactly when it is not, over every run, with two small examples |
| `Tables`, `Statements`, `Persist`, `Loading`, `Working`, `Transactions`, `ImportCommits`, `Database` | the relational tables, loading, writing back only differences, and the whole transaction |
| `Integrity`, `Paging` | the state integrity check, the backfills, what a head hash determines, ledger pages |

Every state-changing handler is written twice on purpose: as a function that says what the caller may rely on, and as a
method on the mutable state. The method's contract is equality with the function on the old state, and every theorem
is proved about the function, so a method that swapped a branch or a balance would not verify. What the function itself
must be is said without it in `Promises`, `AdminPromises`, `Provenance`, `Evidence`, `Answers` and `Mandates`: those statements
speak of the request or bundle, the session, the rows before and the rows after, and of no other definition of a handler.

The environment is a parameter: hashing, JSON text, RFC 3339 text, signing and verifying are arbitrary functions
(`Platform`), and clock readings and drawn ids come from an arbitrary `Oracle`. Safety results assume nothing about
them except that `Fresh` drawn ids are unused. Only `Honest` and `Delivery` assume that time text reads back and that a signature
made with a key pair verifies; only `Integrity.HeadDeterminesLedger` assumes a collision-free hash. The transaction
results (`Database`) assume that the envelope ids a handler draws are unused and that the session lookup reads the
clock before the handler does; otherwise a session could expire between the two readings.

## Model

| member | source | states |
|---|---|---|
| Basics.AddChecked | backend/internal/domain/trade_state.go:144-149 | the sum is returned exactly when it fits 64 bits, and an overflow is a conflict |
| Basics.Wrap | backend/internal/storage/pg_migrate.go:40-49 | an unchecked 64-bit sum is the true sum up to a multiple of 2^64 |
| TradeTable.Reachable | backend/internal/domain/trade_state.go:65-82 | for any finite table the search terminates and answers whether a path of one or more steps exists |
| TradeTable.ClassifyStep | backend/internal/domain/trade_state.go:102-111 | apply, too early or duplicate, decided by the existence of a path |
| TradeTable.DuplicateStaysDuplicate | backend/internal/domain/trade_state.go:102-125 | a step that is a duplicate stays one in every status the trade can still reach |
| TradeTable.AppliedBecomesDuplicate | backend/internal/domain/trade_state.go:113-125 | a step is applied at most once: afterwards it is a duplicate for good |
| TradeTable.AtMostFourChanges | backend/internal/domain/trade_state.go:37-47 | no path of the actual table has more than four transitions |
| Model.TrimIdempotent | backend/internal/service/trade.go:21-31 | a trimmed asset is accepted unchanged by the receiving colony |
| Preserve.LawfulKeepsInv | backend/internal/service/trade.go:21-461 | any effect obeying the money, claim, ledger and dual-control rules keeps the whole invariant |
| Lawfulness.CreateOfferLawful | backend/internal/service/trade.go:21-91 | an offer obeys the rules |
| Lawfulness.AcceptLawful | backend/internal/service/trade.go:92-160 | an acceptance debits exactly the price and obeys the rules |
| Lawfulness.CancelLawful | backend/internal/service/trade_lifecycle.go:167-229 | cancelling moves no money and obeys the rules |
| Lawfulness.ExpireLawful | backend/internal/service/trade_lifecycle.go:260-277 | expiring an offer touches no escrowed trade |
| Lawfulness.ImportOfferLawful | backend/internal/service/trade.go:294-335 | an imported offer, whatever its payload, obeys the rules |
| Lawfulness.DecideRefundLawful | backend/internal/service/trade_lifecycle.go:40-66 | deciding a refund of an escrowed acceptance moves no balance |
| Lawfulness.CreditLawful | backend/internal/service/trade.go:395-434 | crediting the seller books equal claims and obligations |
| Lawfulness.ImportAcceptanceLawful | backend/internal/service/trade.go:337-435 | an imported acceptance obeys the rules in every status of its trade |
| Lawfulness.ImportSettlementLawful | backend/internal/service/trade.go:437-461 | a settlement only completes the trade |
| Lawfulness.ImportCancelLawful | backend/internal/service/trade_lifecycle.go:70-101 | a cancel request obeys the rules |
| Lawfulness.RefundLawful | backend/internal/service/trade_lifecycle.go:105-131 | a refund gives the buyer exactly the price back |
| Lawfulness.ImportRefundLawful | backend/internal/service/trade_lifecycle.go:134-159 | an imported refund obeys the rules |
| Lawfulness.EnvelopeLawful | backend/internal/service/trade.go:272-292 | any of the five envelope types, with any payload, obeys the rules |
| Lawfulness.MintLawful | backend/internal/service/admin.go:157-233 | a mint stays under the cap, or is only proposed under dual control |
| Lawfulness.SetPolicyLawful | backend/internal/service/approvals.go:36-105 | a policy change never drops the cap below what was minted |
| Lawfulness.ProposeLawful | backend/internal/service/approvals.go:110-138 | a proposal records the trade's own colony and price |
| Lawfulness.DecideLawful | backend/internal/service/approvals.go:161-218 | a decision is made once, in time, by someone else, and matches what it executes |
| Lawfulness.FoundKeepsInv | backend/internal/service/admin.go:10-43 | founding a colony keeps the invariant |
| Lawfulness.EnrolKeepsInv | backend/internal/service/admin.go:73-132 | a new user with an empty account keeps the invariant |
| Runs.StepGood | backend/internal/service/trade.go:202-270 | every operation on any input keeps the invariant and only extends the past |
| Runs.EveryStateIsGood | backend/internal/service/trade.go:21-461 | the invariant holds in every state of every run |
| Runs.PastIsKept | backend/internal/service/common.go:198-213 | ledgers, accounts, processed envelopes, decisions and deals are never rewritten |
| Theorems.BalancesAreExact | backend/internal/service/trade.go:126-155 | each balance is mints minus live purchases plus credited sales, and never negative |
| Theorems.MoneyIsConserved | backend/internal/storage/pg_migrate.go:44-51 | balances plus escrow equal the minted total |
| Theorems.OneOutcomePerTrade | backend/internal/service/trade_lifecycle.go:40-66 | the ledgers record at most one debit, credit, refund and decision per trade, and never both credit and refund |
| Decisions.EnvelopeHonours | backend/internal/service/trade.go:272-292 | an imported envelope queues as many settlements and refunds of a trade as its entry records |
| Decisions.RequestUndecided | backend/internal/service/trade.go:21-160 | no request queues a settlement or a refund, or records one |
| Decisions.StepEmits | backend/internal/service/trade.go:202-270 | in every operation the decisions that enter the outboxes number those that enter the ledgers |
| Decisions.OneDecisionLeaves | backend/internal/service/trade_lifecycle.go:40-66 | over a whole run at most one settlement or refund envelope of a trade ever enters an outbox |
| Theorems.ClaimsMirrorObligations | backend/internal/service/trade.go:400-424 | claims of A on B equal obligations of B to A and the sum of credited prices |
| Theorems.LedgerReplaysBalances | backend/internal/service/common.go:198-213 | folding a colony's ledger gives its balances, and each recorded balance is the one right after its entry |
| Theorems.ClosedOffersStayClosed | backend/internal/service/trade.go:382-388 | an expired or cancelled offer is never reopened and never carries an acceptance |
| Theorems.DuplicateForGood | backend/internal/domain/trade_state.go:113-125 | a duplicate step of a trade is a duplicate in every later state of the run |
| Theorems.AtMostFourStatusChanges | backend/internal/domain/trade_state.go:85-91 | over a whole run a trade changes status at most four times |
| Theorems.LedgersOnlyGrow | backend/internal/service/common.go:210-211 | every earlier ledger is a prefix of every later one |
| Theorems.SupplyStaysBounded | backend/internal/service/admin.go:207-224 | minted total is the fold of the mints, each within the cap then in force, under any interleaving of proposals |
| Theorems.DecidedOnce | backend/internal/service/approvals.go:178-185 | a decision is final and was made by another admin |
| Authority.OnlyOthersDecide | backend/internal/service/approvals.go:161-188 | whatever happens, a pending action is decided only by another manager, before it expires by the clock that handler read |
| Theorems.ApprovalsMatchExecutions | backend/internal/service/approvals.go:190-208 | as many approvals as executions for every force refund and every approved mint |
| Theorems.BalanceAndEscrowFit | backend/internal/service/trade_lifecycle.go:114-121 | a balance and an escrowed price together stay within the minted total |
| Theorems.EscrowAdditionsFit | backend/internal/service/trade.go:395-399 | while the supply fits 64 bits, neither a refund nor a credit of an escrowed trade overflows |
| Theorems.ForceRefundNeverStuck | backend/internal/service/approvals.go:161-218 | an unexpired proposal on an escrowed trade succeeds when another authorised admin approves it |
| Theorems.ImportCounts | backend/internal/service/trade.go:230-260 | imported plus skipped is the number of messages that are not nil |
| Theorems.ReimportIsIdle | backend/internal/service/trade.go:230-266 | importing the same bundle again skips everything and adds one ledger entry |
| Authority.OnlyRequestsMoveMoney | backend/internal/service/trade.go:202-270 | imports, sweeps and administration take from no account and mint nothing |
| Authority.OnlyBuyersPay | backend/internal/service/trade.go:100-117 | over every run a balance falls only when its owner, or a super admin, accepts an open offer, and by exactly the price |
| Authority.OnlyManagersMint | backend/internal/service/admin.go:166-200 | over every run a supply changes only by a manager where one may mint alone, or by another manager approving a pending proposal |
| Rights.CallersAreSignedIn | backend/internal/service/common.go:107-137 | a handler goes on exactly for a running session of an active user, with MFA where an administrator needs it |
| Promises.OffersAreAsAsked | backend/internal/service/trade.go:21-90 | an offer is made exactly for its seller or a super admin with the trader role; its row and the one letter sent carry the trimmed asset, the price, the people, their colonies and the lifetime asked for |
| Promises.LifetimeIsAsAsked | backend/internal/service/trade.go:26-32 | an offer lives as long as asked, and within the limits, exactly for 60 to 7776000 seconds |
| Promises.LongestOfferLivesAMinute | backend/internal/service/trade.go:26-32 | a request for about 584 years is accepted and lives for a minute |
| Promises.AcceptancesAreAsAsked | backend/internal/service/trade.go:92-159 | an open offer is accepted exactly by its buyer or a super admin, with the trader role and at least the price; the balance falls by the price and one signed acceptance is queued |
| Promises.CancelsAreAsAsked | backend/internal/service/trade_lifecycle.go:167-229 | only the seller closes an open offer and only the buyer asks to cancel a paid one, a super admin either, and nothing else can be cancelled |
| Promises.PickedStands | backend/internal/service/trade.go:180-187 | the messages taken are the letters for the destination, at increasing places of the outbox |
| Promises.NothingIsLost | backend/internal/service/trade.go:180-188 | no letter is lost or doubled |
| Promises.ExportsAreAsAsked | backend/internal/service/trade.go:161-200 | a relay's bundle is exactly the letters for its destination, in their order; exactly the others stay, in theirs; none is lost or doubled |
| AdminPromises.MintsAreAsAsked | backend/internal/service/admin.go:157-233 | a mint is granted exactly to a manager under the cap in force; without dual control the supply and the one account rise by exactly the amount, under it neither moves and one proposal carries user and amount |
| AdminPromises.PoliciesAreAsAsked | backend/internal/service/approvals.go:36-105 | a super admin's valid policy is in force at once without dual control, and only proposed under it, with exactly the values asked for |
| AdminPromises.ForceRefundsAreProposed | backend/internal/service/approvals.go:110-138 | exactly a manager of the buyer's colony proposes to refund an escrowed trade, and only the proposal and an entry appear |
| AdminPromises.DecisionsAreAsAsked | backend/internal/service/approvals.go:161-218 | a pending proposal is decided exactly by another manager in time; a rejection does nothing else, an approval does exactly what was proposed, if that is still possible |
| AdminPromises.ColoniesAreAsAsked | backend/internal/service/admin.go:10-43 | exactly a super admin founds a colony, which starts with its own key trusted, nothing else in it and one entry |
| AdminPromises.PeersAreTrustedAsAsked | backend/internal/service/admin.go:45-71 | exactly a manager of the colony pins a peer, under the peer's present key |
| AdminPromises.UsersAreAsAsked | backend/internal/service/admin.go:100-132 | exactly a manager enrols a user, with an empty account; only a super admin makes a super admin |
| Provenance.OnlyAdmittedBundlesComeIn | backend/internal/service/trade.go:202-228 | a bundle comes in only by a relay of the colony it is addressed to, from a colony whose present key is pinned; one without messages exactly then |
| Provenance.ImportedMessagesAreSigned | backend/internal/service/trade.go:230-243 | in a bundle that comes in, every message is on the bundle's route, and signed by the source colony unless its id was seen before |
| Provenance.UnsignedMessagesRefuseTheBundle | backend/internal/service/trade.go:241-243 | one message that is looked at and lacks that signature refuses the whole bundle |
| Evidence.ImportedChangesAreShown | backend/internal/service/trade.go:294-461 | every trade an import made or changed is as one signed message of the bundle says: an offer, an acceptance in time or too late, a wish to cancel, a settlement or a refund, each by the right people and colonies |
| Answers.ImportedStepsArePast | backend/internal/service/trade.go:244-254 | after an import no message that was looked at is still waiting: its trade is past the step it asks for |
| Answers.ImportsAnswerTruly | backend/internal/service/trade.go:255-266 | the answer counts and lists the messages that changed something, in order, each one entry in the target's ledger alone, and counts the letters queued in reply |
| Mandates.SweepsCloseLapsedOffers | backend/internal/service/trade_lifecycle.go:235-279 | a sweep closes exactly the lapsed offers it comes to, each with one entry in the seller's colony, and changes nothing else |
| Mandates.PoliciesNeedAMandate | backend/internal/service/approvals.go:34-105 | whatever happens, a mint cap or dual control changes only by a super admin where dual control is off, or by another manager approving a pending policy in time, and to exactly the values asked for |
| Mandates.TradesNeedAMandate | backend/internal/service/trade.go:21-461 | whatever happens, a trade appears or changes only by its own offer, acceptance, cancellation, approved force refund, signed message or lapse, and becomes what that says; none ever goes |
| Honest.AcceptedOnTime | backend/internal/service/trade_lifecycle.go:19-35 | an acceptance the buyer's colony allowed is never judged late, however long it travelled |
| Honest.AuthenticStays | backend/internal/service/trade.go:294-461 | what was true of an envelope when it was sent stays true |
| Honest.AuthenticImports | backend/internal/service/trade.go:272-292 | an authentic envelope is imported, skipped, or overflows |
| Honest.EveryStateIsUpright | backend/internal/service/trade.go:21-461 | every outbox of every run holds only authentic envelopes |
| Honest.HonestDeliveryNeverFails | backend/internal/service/trade.go:202-270 | sent envelopes delivered at any time, in any order, any number of times never fail to import except by overflow |
| Delivery.EnvelopeDelivered | backend/internal/service/trade.go:395-424 | while the supply fits 64 bits, an authentic envelope fails exactly when it is an acceptance whose price the claims have no room for |
| Delivery.DeliveryLoop | backend/internal/service/trade.go:230-260 | which trades stay escrowed and what is claimed after each message of an honest bundle |
| Delivery.HonestDeliveryExactly | backend/internal/service/trade.go:202-270 | an honest bundle is imported if and only if the prices of the trades it credits fit the claims, summed before the call |
| Service.AppState.AppendLedger | backend/internal/service/common.go:198-213 | the entry chains to the last hash and the counters follow |
| Service.AppState.AdvanceTrade | backend/internal/domain/trade_state.go:85-91 | the status changes exactly when the table allows it |
| Service.AppState.StepTrade | backend/internal/domain/trade_state.go:116-125 | applied, skipped or refused, with the trade untouched unless applied |
| Service.AppState.CreateOffer | backend/internal/service/trade.go:21-91 | answers, and leaves the whole state, as its specification does, errors included; `Promises.OffersAreAsAsked` says from the request what that is |
| Service.AppState.AcceptTrade | backend/internal/service/trade.go:92-160 | result and whole new state as specified, error branches included |
| Service.AppState.CancelTrade | backend/internal/service/trade_lifecycle.go:167-229 | both meanings of cancelling, result and whole new state |
| Service.AppState.SweepExpired | backend/internal/service/trade_lifecycle.go:235-279 | exactly the due offers expire, the count is theirs, nothing else changes |
| Service.AppState.ExportBundle | backend/internal/service/trade.go:161-200 | the loop splits the outbox as its specification does, errors included; `Promises.ExportsAreAsAsked` says from the outbox what that is |
| Service.AppState.ImportEnvelope | backend/internal/service/trade.go:272-292 | each envelope type does what its specification says |
| Service.AppState.ImportOffer | backend/internal/service/trade.go:294-335 | new row, matching existing row, duplicate or error |
| Service.AppState.ImportAcceptance | backend/internal/service/trade.go:337-435 | credit, refund decision, duplicate or error by status |
| Service.AppState.Credit | backend/internal/service/trade.go:395-434 | balance, claim, obligation, outbox and row change together or not at all |
| Service.AppState.DecideRefund | backend/internal/service/trade_lifecycle.go:40-66 | one signed refund leaves and the trade remembers its trigger |
| Service.AppState.ApplyRefund | backend/internal/service/trade_lifecycle.go:105-131 | the buyer gets the price and the trade is refunded, or nothing changes |
| Service.AppState.ImportBundle | backend/internal/service/trade.go:202-270 | the loop computes the specified state and counts, or fails with the first failing message's error; `Provenance`, `Evidence` and `Answers` say from the bundle what that is |
| Service.AppState.ApplyMint | backend/internal/service/admin.go:207-233 | total and balance move together under cap and overflow checks |
| Service.AppState.Mint | backend/internal/service/admin.go:157-203 | minted, proposed or refused as its specification says; `AdminPromises.MintsAreAsAsked` says from the request what that is |
| Service.AppState.SetPolicy | backend/internal/service/approvals.go:36-72 | applied, proposed or refused as its specification says; `AdminPromises.PoliciesAreAsAsked` says from the request what that is |
| Service.AppState.ProposeForceRefund | backend/internal/service/approvals.go:110-138 | only a pending action and a ledger entry appear |
| Service.AppState.DecideApproval | backend/internal/service/approvals.go:161-218 | the action is decided and executed, or nothing changes |
| Service.AppState.CreateUser | backend/internal/service/admin.go:100-132 | a user and an empty account in the same step |
| Service.AppState.CreateColony | backend/internal/service/admin.go:10-43 | a colony that trusts itself, with its first ledger entry |
| Service.AppState.TrustPeer | backend/internal/service/admin.go:45-71 | the peer's key is pinned |
| Service.ImportStops | backend/internal/service/trade.go:230-260 | the first error of the loop is the answer of the whole import |
| Store.Store.Swap | backend/internal/storage/store.go:255-289 | the copy replaces the live state only when it was durably saved |
| Store.Store.Update | backend/internal/storage/store.go:255-289 | an error, or a failed save, leaves the live state as it was |
| Store.Store.Import | backend/internal/storage/store.go:255-289 | a bundle is imported whole or not at all |
| Store.Store.LiveIsGood | backend/internal/storage/store.go:255-289 | the live state satisfies the invariant after any sequence of calls |
| Scopes.LoadSees | backend/internal/storage/pg_load.go:187-420 | the loaded part answers lookups of discovered ids as the whole state does |
| Scopes.LoadMerges | backend/internal/storage/pg_load.go:187-420 | writing back what was loaded changes nothing |
| Scopes.DiscoverCloses | backend/internal/storage/pg_load.go:141-185 | discovery follows every reference of actions and trades it finds |
| Simulation.PostMerges | backend/internal/storage/pg_persist.go:135-189 | a step on the part, written back, is the step on the whole |
| Simulation.AppendMerges | backend/internal/service/common.go:203-211 | the chain is extended correctly although the stored ledger was never loaded |
| ScopedImports.BundleScope | backend/internal/service/scopes.go:12-32 | the scope names exactly the envelopes, trades and users of the bundle |
| ScopedImports.BundleCovered | backend/internal/service/scopes.go:12-32 | every row that a message which is looked at names is discovered from that scope |
| ScopedImports.LoopMarks | backend/internal/service/trade.go:236-257 | after each message exactly the ids so far are processed, so which messages are skipped is known before the import |
| ScopedImports.EnvelopeSees | backend/internal/service/trade.go:272-461 | an envelope decides the same on the part as on the whole |
| ScopedImports.LoopInStep | backend/internal/service/trade.go:230-260 | the two loops stay in step after every message |
| ScopedImports.ScopedImport | backend/internal/storage/pg_load.go:68-185 | an import on the discovered rows gives the same counts, error and state, unless it asks for an existing trade with the empty id |
| ScopedRequests.RequestSees | backend/internal/storage/pg_load.go:89-185 | every other request decides the same on the part as on the whole |
| ScopedRequests.ScopedRequest | backend/internal/storage/pg_load.go:68-185 | a request that does not name the empty trade id decides the same, and writing its rows back gives the same state |
| ScopedSweeps.SweepTrades | backend/internal/service/trade_lifecycle.go:258-277 | a sweep expires exactly the due offers it visits |
| ScopedSweeps.ScopedSweep | backend/internal/service/trade_lifecycle.go:240-278 | sweeping the loaded offers is that sweep of the whole state if and only if it does not come to a due offer with the empty id |
| BlankTrades.RequestAgreesExactly | backend/internal/storage/pg_load.go:34-40 | a request is answered alike if and only if its answer does not hang on an existing trade with the empty id, decisions of proposals included |
| BlankTrades.EnvelopeAgreesExactly | backend/internal/storage/pg_load.go:34-40 | the same for an envelope of any of the five types: alike if and only if it looks up no existing trade with the empty id |
| BlankBundles.BlankIsReceived | backend/internal/service/trade.go:316-319 | in no run was a trade with the empty id offered rather than received |
| BlankBundles.LoopTrades | backend/internal/service/trade.go:230-260 | the trades after an import are those before it and those its messages asked for |
| BlankBundles.ImportInserts | backend/internal/storage/pg_persist.go:61-75 | an import on the discovered rows inserts an already stored trade exactly when the bundle asks for the empty id of an existing trade |
| BlankBundles.UnfindableIsRefused | backend/internal/storage/pg_persist.go:61-75 | such a bundle commits nothing |
| StoredBundles.ImportKeepsExactly | backend/internal/storage/pg_persist.go:183-188 | keeping the bundle stored first makes a difference exactly when another bundle has the imported id |
| StoredBundles.RequestKeepsExactly | backend/internal/storage/pg_persist.go:183-188 | the same for requests: only an export stores a bundle, under the id it draws |
| Examples.BundleIsOverwritten | backend/internal/service/trade.go:262-266 | two bundles under one id: memory ends with the second, the database with the first |
| Examples.RepeatIsRefused | backend/internal/service/trade.go:437-461 | a repeated settlement of a trade with the empty id is skipped in memory and fails the bundle in the database |
| Refinement.RequestsRefine | backend/internal/storage/pg_store.go:182-216 | in every reachable state a scoped request refines the whole-state request, unless the empty trade id decides its answer |
| Refinement.RequestsAgreeExactly | backend/internal/storage/pg_store.go:182-216 | both stores answer alike and move to the same state if and only if neither the empty trade id nor another bundle under the drawn id is in the way |
| Refinement.EnvelopesAgreeExactly | backend/internal/storage/pg_store.go:182-216 | for every message of a bundle, the condition under which its handler decides alike on the discovered rows |
| Refinement.ImportsRefine | backend/internal/storage/pg_store.go:182-216 | in every reachable state a scoped import gives the same counts, error and state, or commits nothing when the bundle asks for the empty id of an existing trade |
| Refinement.ImportsAgreeExactly | backend/internal/storage/pg_store.go:182-216 | of the bundles memory accepts, both stores end with the same counts and state for exactly those that ask for no such trade and overwrite no other bundle |
| Refinement.SweepsRefine | backend/internal/service/trade_lifecycle.go:240-248 | sweeping only the loaded due offers is a sweep of the whole state if and only if the empty id is not among the due ones |
| Refinement.OnlyTradesCanBeBlank | backend/internal/storage/pg_load.go:34-40 | only the trade table can ever hold a row under the empty id, and only a received one |
| Refinement.BlankTradeArrives | backend/internal/service/trade.go:316-319 | an imported offer with an empty trade id creates that row |
| Statements.Upsert | backend/internal/storage/pg_persist.go:61-75 | rows are inserted or updated, and a taken key aborts, exactly when one is taken |
| Statements.WriteAccounts | backend/internal/storage/pg_persist.go:142-153 | the written balances, and exactly when a constraint refuses them |
| Statements.InsertEntries | backend/internal/storage/pg_persist.go:154-158 | every entry becomes the row under its number, and exactly when a taken number refuses them |
| Statements.ContinuedAreAppended | backend/internal/storage/pg_persist.go:154-158 | entries that continue a stored chain become its next rows |
| Statements.InsertMail | backend/internal/storage/pg_persist.go:159-166 | new envelopes are appended in order and a repeated id aborts |
| Statements.InsertProcessed | backend/internal/storage/pg_persist.go:167-174 | new processed ids, and exactly when one is refused |
| Statements.DeleteMail | backend/internal/storage/pg_persist.go:176-182 | only known envelopes that left every outbox are deleted |
| Statements.InsertBundles | backend/internal/storage/pg_persist.go:183-188 | the first writer of a bundle wins |
| Tables.OutboxUndeleted | backend/internal/storage/pg_persist.go:176-182 | deleting rows keeps each outbox in its `ord` order |
| Persist.PersistColony | backend/internal/storage/pg_persist.go:137-175 | the child rows of one colony are written and no other colony's are touched |
| Persist.Persist | backend/internal/storage/pg_persist.go:36-190 | the tables then hold exactly the merged state, and nothing is refused when no key is taken |
| Loading.FindRows | backend/internal/storage/pg_load.go:89-185 | the discovery loops find exactly the specified ids |
| Loading.LoadRows | backend/internal/storage/pg_load.go:187-420 | the working state and the remembered originals are exactly the rows of the scope |
| Working.WorksGrown | backend/internal/storage/pg_persist.go:135-182 | what handlers leave behind only extends chains and outboxes |
| Working.PostWorks | backend/internal/service/common.go:198-213 | every posted effect keeps that shape |
| Transactions.RequestCommits | backend/internal/storage/pg_persist.go:33-35 | no request's differences meet a schema constraint |
| Transactions.ExportIsGrown | backend/internal/service/trade.go:180-188 | draining an outbox persists as deletions of exactly the exported rows |
| ImportCommits.ImportIsGrown | backend/internal/storage/pg_persist.go:135-182 | what any import computed on the part can be written back |
| ImportCommits.ImportIsAccepted | backend/internal/storage/pg_persist.go:33-35 | and meets no schema constraint when it inserts no stored trade |
| Database.Database.Serve | backend/internal/storage/pg_store.go:170-216 | one transaction moves the stored state exactly as the handler does on the whole state, or not at all; in any stored state |
| Database.Database.Import | backend/internal/storage/pg_store.go:170-216 | the same for a bundle, with the counts it answers |
| Database.Database.Sweep | backend/internal/service/trade_lifecycle.go:240-278 | sweeping the reported offers with an id in one transaction is that sweep of the whole stored state, and the count is theirs |
| Integrity.CheckLedger | backend/internal/storage/pg_migrate.go:20-35 | accepts exactly contiguous, linked, correctly hashed ledgers |
| Integrity.AddBalances | backend/internal/storage/pg_migrate.go:36-41 | refuses exactly when a balance is negative, and otherwise sums modulo 2^64 |
| Integrity.VerifyStateIntegrity | backend/internal/storage/pg_migrate.go:16-53 | accepts exactly the intact states that conserve money modulo 2^64 |
| Integrity.InvariantStatesPass | backend/internal/storage/pg_migrate.go:12-53 | complete: every sound state is accepted, even when the sums wrap |
| Integrity.AcceptedIsConserved | backend/internal/storage/pg_migrate.go:44-51 | sound: accepted and within 64 bits means exactly conserved |
| Integrity.BackfillMintedTotal | backend/internal/storage/store.go:170-187 | the loop computes the specified total |
| Integrity.BackfillRestoresTotal | backend/internal/storage/store.go:168-187 | a lost minted total is restored exactly from zero |
| Integrity.BackfillLedgerHead | backend/internal/storage/store.go:219-225 | an empty head becomes the hash of the last entry |
| Integrity.BackfillRestoresHead | backend/internal/storage/store.go:218-225 | the backfill restores a lost head hash exactly and leaves a stored one alone |
| Integrity.PreimageInjective | backend/internal/domain/util.go:68-73 | without separators in the fields before the payload, the hashed bytes determine the entry |
| Integrity.HeadDeterminesLedger | backend/internal/domain/util.go:68-73 | under a collision-free hash, equally long intact ledgers with one head are equal entry by entry |
| Paging.Search | backend/internal/service/view.go:173-175 | the first index at or after the bound |
| Paging.ListLedgerPage | backend/internal/service/view.go:153-186 | the last entries before the bound, or the right error |
| Paging.PageOfPage | backend/internal/storage/pg_load.go:421-452 | cutting the page again out of the loaded page loses nothing |
| Paging.BackendsAgreeExactly | backend/internal/storage/pg_load.go:427-427 | binary-search page and database page agree if and only if the bound is not negative or the ledger is empty |
| Paging.WalkIsExact | backend/internal/service/view.go:151-186 | walking the pages ends and visits every entry exactly once |

## Where the code and its documentation part

- `importOffer` accepts an empty trade id (`Refinement.BlankTradeArrives`) while discovery drops empty ids: the two
  backends then differ about that one trade. Exactly when is stated for each operation: requests and decisions
  (`Refinement.RequestsAgreeExactly`), each envelope (`Refinement.EnvelopesAgreeExactly`), bundles
  (`Refinement.ImportsAgreeExactly`) and sweeps (`Refinement.SweepsRefine`). Accepting, cancelling or force-refunding
  that trade cannot be asked for over HTTP, whose routes have no empty segment
  (`backend/internal/httpapi/handlers.go:59-61`), so neither can a proposal about it be decided; importing and sweeping
  can meet it. `Examples.RepeatIsRefused` is a small case.
- A stored bundle is overwritten by an import of the same bundle id in the file store and kept in the database
  (`backend/internal/storage/pg_persist.go:183-188`); no handler reads a bundle back. `StoredBundles` says exactly when
  that makes a difference and `Examples.BundleIsOverwritten` shows one; the `AgreeExactly` theorems compare the states
  as they are, the others with the bundles stored first kept (`Scopes.KeepBundles`).
- `CreateOffer` refuses lifetimes outside 60 to 7776000 seconds, says its error. The seconds are multiplied in 64 bits first, so a
  huge number can wrap around into the limits and is accepted with another lifetime than asked
  (`backend/internal/service/trade.go:28-31`): `Promises.LifetimeIsAsAsked` says exactly when the lifetime is the one asked
  for, `Promises.LongestOfferLivesAMinute` gives an input.
- A negative `before_seq` means the newest page in `ListLedgerPage` and no rows in the query. The HTTP handler refuses
  it (`backend/internal/httpapi/handlers.go:430`), so the difference exists only for callers below it.
- The comment on `ProposeForceRefund` warns that a force refund may create money. Trade rows are shared by both
  colonies of one store, so a credited trade is no longer escrowed and the refund is refused: `MoneyIsConserved`
  holds with force refunds included.
- The branch of `importAcceptance` that refunds an acceptance of a closed offer is kept in the model, and
  `ClosedOffersStayClosed` shows that no run takes it.

## Left out

- HTTP, middleware, metrics, logging, the frontend and scripts: input and output only.
- Ed25519, SHA-256, password hashing and TOTP: arbitrary functions, constrained only where a result says so.
- JSON encoding and `CloneJSON`: payloads are a datatype with zero values for missing fields, and cloning copies a value.
- Payloads that fit one reader and not another: a body here is malformed for all readers or for none. The scope decodes three fields on its own (`backend/internal/service/scopes.go:18-29`), so an acceptance that also carries a seller id which is not text loses its trade from the scope: the database answers "not found" where the file store imports it.
- Login, MFA, password reset, session pruning, role changes and deactivation: one `Admin` operation that may change any
  role, flag and session but no user's colony or keys; the session rows that logging out deletes are not part of the persisted difference.
- Pointers: a row is a map entry re-read by id, so two pointers to one account or trade are one entry.
- Names, display fields, passwords and views other than the ledger page, the uniqueness of colony and user names, and the
  normalising of role names (a request names its roles already normalised).
- `NextLedgerSeq` as a 64-bit counter: the model counts without bound.
- Clock readings within one handler: the model takes one reading of each clock per handler.
- PostgreSQL locking, isolation, retries and waits: a transaction is one atomic step, and the session lookup happens before the handler reads its clock.
- Columns that repeat a field of a document, and the sorted order in which `persist` visits colonies: any order gives the same result here.
- Read-only scopes, colony headers without a lock, account listings and counts: they are never persisted.
- The limit of 200 offers per database sweep: `Refinement.SweepsRefine` holds for any list of due offers.
- Refinement.RequestsRefine: compares states with the bundles stored first kept; `Refinement.RequestsAgreeExactly` compares them as they are.
- Refinement.ImportsRefine: compares states with the bundles stored first kept; `Refinement.ImportsAgreeExactly` compares them as they are.
- Refinement.ImportsAgreeExactly: is about bundles the whole state accepts; for the others both stores stay as they are, but where a bundle names the empty trade id the two errors may differ.
- Loading of legacy documents other than the two backfills, and the SQL migrations.
- Failures of the random source and of JSON marshalling, which only ever abort a handler.
