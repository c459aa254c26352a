# Ligate marketplace: a verified model

This project models the state machine of Ligate Chain's marketplace in Dafny and proves what every
run of it keeps. Three modules run over one AVOW ledger:

- **attestation** holds append-only registries of attestor sets, schemas and attestations. A
  submission must carry an M-of-N quorum of Ed25519 signatures (section 5.1.7 of RFC 8032). It also
  charges fees, split in basis points, and seeds itself at genesis.
- **bounty** escrows a pool, pays fixed-size claims in batches, locks dispute bonds, then refunds or
  finalises. It keeps a bounded reverse index, a dispute counter and a latest-claim height.
- **contract** is a work-for-hire protocol of eight calls, with parallel worker bonds and an arbiter
  who takes a cut of the pool.

## How it is laid out

| file | content |
|---|---|
| `Types.dfy`, `Sums.dfy`, `Ledger.dfy` | machine widths and saturating arithmetic, sums over maps, balances and transfers |
| `Ids.dfy` | byte layouts hashed into identifiers, and what each identifies |
| `Attestation.dfy`, `Bounty.dfy`, `Contract.dfy` | each module's state and the effect of every call, as functions |
| `AttestationHandlers.dfy`, `BountyHandlers.dfy`, `ContractHandlers.dfy` | the handlers as classes that update their maps in place, each proved to have exactly that effect; `Call` unwinds a failed call |
| `AttestationProofs.dfy`, `AttestationCalls.dfy`, `Genesis.dfy` | when each call succeeds and what it stores, quorum, fees, registries and events; seeding against replay and against the loader's validator |
| `BountyBooks.dfy`, `BountyProofs.dfy`, `BountySafety.dfy`, `BountyMoves.dfy`, `BountyGains.dfy`, `BountyExit.dfy`, `BountyCalls.dfy` | bounty events as books, the invariant, one bounty as an automaton, finality, who is paid, the way out, when each call succeeds and what it stores |
| `ContractBooks.dfy`, `ContractProofs.dfy`, `ContractSafety.dfy`, `ContractExit.dfy`, `ContractLifecycle.dfy`, `ContractOrder.dfy`, `ContractCalls.dfy` | the same for contracts, the lifecycle language, and independence of calls |
| `Naming.dfy` | uniqueness of bounty and contract ids |
| `Market.dfy`, `MarketRuns.dfy`, `MarketFinality.dfy`, `MarketExit.dfy`, `MarketRules.dfy`, `MarketCommits.dfy`, `MarketHeightZero.dfy` | the composed chain, and theorems about whole runs from genesis: books and records, what is final, ways out, who may do what and when, how many workers can commit, a run that reopens a finalised bounty |
| `Runtime.dfy` | the three handler classes over one bank, refining the composed chain |

A bounty or contract is reasoned about through its *view*: everything the state maps and the event
log say about that one id. Each call changes one view by one of a few moves, which gives locality,
the invariants and finality.

## Assumptions

- The bank is a map of balances; a transfer is refused exactly when the payer's balance is short.
  Module escrow accounts are never user accounts. The supply fits in u128, and `RunKeeps` shows it constant.
- A failed call leaves all maps and balances as they were.
- SHA-256 and Ed25519 are arbitrary functions. Uniqueness of ids is stated up to an explicit collision.
- The state machines are proved for any way of deriving ids; `Ids.Sha256Scheme` is the chain's own.
- Time passes in nondecreasing rollup heights. The DA height is the genesis DA height plus the rollup
  height, saturating.
- Integer arithmetic wraps as in the release build the Dockerfile ships; `SplitFitsIff` says when a debug
  build would panic instead.
- An address is 28 bytes (standard form) or 20 bytes (EVM form), as `docs/protocol/attestation-v0.md:215-225`
  and `crates/rollup/src/celestia_rollup.rs:80` describe them.

Hypotheses that single results need, each visible as a `requires`: fewer than 2^32 open disputes on the
bounty in question (`CountersExact`), in addition a truthful `latest_claim > 0`, for example because claims on that
bounty are above rollup height 0 (`ClosedForever`, `ClosedForeverAboveZero`), and 28-byte addresses (`DeliverersOwnTheirBonds`).

## Findings

- **The height-0 sentinel.** `latest_claim > 0` stands for "some claim" when a bounty is finalised.
  Claims settled at rollup height 0 defeat it. `FinaliseSealsIff` gives the exact condition for one call and
  `FinalIffSettled` for every later run. `ReopenedRunExists` runs from genesis at height 0 to a Finalised bounty
  with an open dispute. Whether `chain_state` lets a transaction run at height 0 is not part of this model.
- **The saturating dispute counter.** Past 2^32-1 open disputes it loses one (`SaturationLosesOne`), and then
  lets a bounty with an open dispute be finalised (`UncountedDisputeUnsettled`).
- **The documented solvency equation.** The comment at `crates/modules/bounty/src/lib.rs:324-326` says
  `sum(escrow)` equals the module's balance. Dispute bonds sit in the same account, so
  `BalanceIsEscrowIff` proves the equation holds exactly when no dispute is open.
- **The capped batch product.** `would_pay` saturates at 2^128-1. `ClaimNeverOverdraws` shows it cannot
  let a batch overdraw: the one batch it fails to catch is refused by the bank.
- **Rates above 100%.** Genesis accepts any `max_builder_bps`. The fee split overflows u128 exactly when the
  share itself does (`SplitFitsIff`); a submission costs exactly the fee if and only if the wrapped share is within it
  (`SubmissionsCostTheFee`). `SplitWrapsAtTheTop` and `SplitDoublesTheHalf` give inputs.
- **The ends of the height range.** A bounty can ripen (`RipensIff`) and a delivery can be finalised
  (`FinalizableIff`) exactly when the window ends before height 2^64-1; the poster's exit needs neither
  (`PosterCanAlwaysExit`).
- **Duplicate members** are not rejected at registration, against the comment at
  `crates/modules/attestation/src/lib.rs:424-425`. `RegisterSetIff` gives the exact terms. A set whose threshold
  exceeds its distinct members is paid for and can never attest (`RepeatedMembersNeverAttest`).
- **The attestor set id** is not hashed over Borsh-encoded members as `crates/modules/attestation/src/lib.rs:573`
  says: on every input the bytes differ by the count (`SetPreimageIsNotBorsh`).
- **The routing cap** is the stored `max_builder_bps` and not the default named at
  `crates/modules/attestation/src/lib.rs:1704-1705`: `RegisterSchemaIff` gives the exact terms.
- **The commit hash** is not checked on delivery, against `crates/modules/contract/src/lib.rs:222-224`: no call
  reads a stored hash (`HashesNeverRead`).
- **Bonds on cancelled or expired contracts** are not refunded, against `crates/modules/contract/src/lib.rs:225-227`:
  a bond leaves exactly when its own delivery is settled (`BondLeavesIff`), and cancelling locks every live bond for
  good (`CancelLocksBonds`).

## Model

| member | source | states |
|---|---|---|
| Ledger.PayAllConserves | crates/modules/bounty/src/lib.rs:323-326 | a completed call moves every balance by its credits less its debits and leaves the total AVOW unchanged |
| Ledger.PayAllFromOne | crates/modules/bounty/src/lib.rs:1109-1123 | payments out of one account go through exactly when that account covers their sum |
| Ledger.PaymentsCommute | crates/modules/contract/src/lib.rs:1046-1069 | two completed payment batches leave the same balances in either order |
| Types.DaHeightLaw | crates/modules/bounty/src/lib.rs:906-909 | the DA height is the genesis DA height, 0 if unset, plus the rollup height, stopping at 2^64-1 |
| Types.DaHeightMonotone | crates/modules/bounty/src/lib.rs:906-909 | it never falls while the rollup height rises |
| Ids.SetPreimageIdentifies | crates/modules/attestation/src/lib.rs:446-459 | set preimages agree exactly when the multiset of members and the threshold agree |
| Ids.SetIdIgnoresOrder | crates/modules/attestation/src/lib.rs:419-424 | the set id does not depend on the order members are given in |
| Ids.SetIdSeparates | crates/modules/attestation/src/lib.rs:446-459 | equal set ids mean equal members and threshold, or an explicit SHA-256 collision |
| Ids.SetPreimageIsNotBorsh | crates/modules/attestation/src/lib.rs:446-459 | the hashed bytes are the documented Borsh bytes less the four-byte member count, so never the same |
| Ids.SortCanonical | crates/modules/attestation/src/lib.rs:1409-1411 | sorting members by raw bytes forgets exactly their order |
| Ids.AtMostIsLexicographic | crates/modules/attestation/src/lib.rs:451 | the sort order is lexicographic on raw bytes |
| Ids.LittleEndianReads | crates/modules/bounty/src/lib.rs:86-95 | little-endian bytes read back, least significant first, give the number |
| Ids.AttestationPreimageIdentifies | crates/modules/attestation/src/lib.rs:222-228 | the attestation id layout is injective in schema and payload |
| Ids.AttestationIdSeparates | crates/modules/attestation/src/lib.rs:222-228 | equal attestation ids mean the same schema and payload, or an explicit collision |
| Ids.SchemaIdSeparates | crates/modules/attestation/src/lib.rs:408-415 | equal schema ids of owners of one length mean the same owner, name and version, or an explicit collision |
| Ids.DigestSeparates | crates/modules/attestation/src/lib.rs:538-541 | equal digests mean the same submission, or an explicit collision |
| Ids.BountyPreimageIdentifies | crates/modules/bounty/src/lib.rs:86-95 | the bounty id layout is injective in poster, board and nonce |
| Ids.ContractPreimageIdentifies | crates/modules/contract/src/lib.rs:83-92 | the contract id layout is injective in poster, criteria hash and nonce |
| Ids.SignedPreimageIdentifies | crates/modules/attestation/src/lib.rs:538-541 | the signed layout, with the variant byte of either address form, is injective in schema, payload, submitter and timestamp |
| Ids.SchemaPreimageIdentifies | crates/modules/attestation/src/lib.rs:408-415 | for owners of one length the schema id layout is injective in owner, name and version |
| Ids.SchemaPreimageNeedsFixedOwner | crates/modules/attestation/src/lib.rs:408-415 | owners of different lengths can share a schema preimage, so the fixed address length is needed |
| AttestationHandlers.ValidateSignatures | crates/modules/attestation/src/lib.rs:1734-1781 | the loop's verdict is that of the specification: first faulty signature, else the count against the threshold |
| AttestationProofs.ValidateIsQuorum | crates/modules/attestation/src/lib.rs:1720-1733 | a submission passes exactly when its signatures are distinct members, all verify, and reach the threshold; otherwise the first fault, or the shortfall, is reported |
| AttestationProofs.DefensiveErrorsUnreachable | crates/modules/attestation/src/lib.rs:1560-1563 | `MissingAttestorSet` and `ChainNotConfigured` cannot occur on a sound state |
| AttestationProofs.SplitFitsIff | crates/modules/attestation/src/lib.rs:1711-1718 | all intermediates and the sum stay within u128 exactly when floor(total * bps / 10000) does |
| AttestationProofs.SplitIsWrappedFloor | crates/modules/attestation/src/lib.rs:1711-1718 | for every u128 fee and u16 rate the builder share is floor(total * bps / 10000) modulo 2^128 |
| AttestationProofs.SplitIsFloorIff | crates/modules/attestation/src/lib.rs:1711-1718 | it is the exact floor exactly when that floor fits u128 |
| AttestationProofs.SplitConserves | crates/modules/attestation/src/lib.rs:1711-1718 | the two shares add up to the fee exactly when the wrapped floor does not exceed it |
| AttestationProofs.SplitNeverOverflows | crates/modules/attestation/src/lib.rs:1707-1710 | up to 10000 basis points nothing overflows and the share is the exact floor, within the fee |
| AttestationProofs.SplitWrapsAtTheTop | crates/modules/attestation/src/lib.rs:1711-1718 | at 20000 basis points the fee 2^128-1 wraps to shares that still add up |
| AttestationProofs.SplitDoublesTheHalf | crates/modules/attestation/src/lib.rs:1711-1718 | at the same rate half of that fee is charged double, without overflow |
| AttestationProofs.StepCharges | crates/modules/attestation/src/lib.rs:1580-1598 | a completed call pays exactly its dues, books them to the right counters and moves nothing else |
| AttestationProofs.SubmissionsCostTheFee | crates/modules/attestation/src/lib.rs:1580-1598 | an accepted submission takes exactly the attestation fee from its sender if and only if the wrapped builder share is within it, as under every cap up to 10000 |
| AttestationProofs.RegisterSetIff | crates/modules/attestation/src/lib.rs:1388-1448 | a set registers exactly when its threshold is in range, its id is new and the sender can pay; repeated members do not matter |
| AttestationProofs.RegisterSchemaIff | crates/modules/attestation/src/lib.rs:1452-1528 | a schema registers exactly when its rate is within the stored cap, routing is not orphaned, its set exists, its id is new and the owner can pay |
| AttestationProofs.QuorumNeedsDistinct | crates/modules/attestation/src/lib.rs:1734-1781 | a quorum needs at least threshold distinct members in its set |
| AttestationProofs.RepeatedMembersNeverAttest | crates/modules/attestation/src/lib.rs:1545-1619 | under a set whose threshold exceeds its distinct members every submission is refused |
| AttestationProofs.RepeatedMemberRegisters | crates/modules/attestation/src/lib.rs:1388-1448 | one key twice with threshold two is such a set, and it registers whenever its fee is paid |
| MarketRuns.RepeatedMembersNeverAttest | crates/modules/attestation/src/lib.rs:1545-1619 | no world of any later run holds an attestation under such a set |
| AttestationProofs.StepSound | crates/modules/attestation/src/lib.rs:1388-1619 | every call keeps sets, schemas and attestations well formed and verifiable, and only ever adds entries |
| AttestationCalls.SubmitIff | crates/modules/attestation/src/lib.rs:1545-1598 | a submission is accepted exactly for a known schema, a payload not attested under it before, a quorum over this very submission at timestamp 0 and a sender who can pay |
| AttestationCalls.SubmitStores | crates/modules/attestation/src/lib.rs:1600-1619 | it stores the submission as sent and announces it with its signature count |
| AttestationCalls.RegisterSetStores | crates/modules/attestation/src/lib.rs:1409-1442 | a set is stored with its members sorted, under their id, and announced with its sender |
| AttestationCalls.RegisterSchemaStores | crates/modules/attestation/src/lib.rs:1452-1528 | a schema is stored as given under its own id and announced |
| AttestationCalls.SeedStores | crates/modules/attestation/src/lib.rs:1309-1321 | seeding stores each configured parameter in its own place, counters at zero, and announces nothing |
| AttestationCalls.FaultTruthful | crates/modules/attestation/src/lib.rs:1749-1779 | every signature error names something really wrong with that signature |
| AttestationCalls.SubmitRefusalsTruthful | crates/modules/attestation/src/lib.rs:1545-1598 | every refused submission names a check that really failed |
| AttestationCalls.RegisterSetRefusals | crates/modules/attestation/src/lib.rs:1388-1448 | every refused set names a check that really failed, with its values |
| AttestationCalls.RegisterSchemaRefusals | crates/modules/attestation/src/lib.rs:1452-1528 | every refused schema names a check that really failed, with its values |
| AttestationProofs.StepEvents | crates/modules/attestation/src/lib.rs:1168-1204 | folding the emitted events carries the registries from each state to the next |
| AttestationHandlers.AttestationModule.SeedFromConfig | crates/modules/attestation/src/lib.rs:1309-1385 | seeding in place has the specified result, or the specified first error |
| AttestationHandlers.AttestationModule.HandleRegisterAttestorSet | crates/modules/attestation/src/lib.rs:1388-1448 | the handler's result, error, stored state and balances are those specified |
| AttestationHandlers.AttestationModule.HandleRegisterSchema | crates/modules/attestation/src/lib.rs:1452-1528 | the handler's result, error, stored state and balances are those specified |
| AttestationHandlers.AttestationModule.HandleSubmitAttestation | crates/modules/attestation/src/lib.rs:1545-1619 | the handler's result, error, stored state and balances are those specified |
| AttestationHandlers.AttestationModule.ChargeTreasury | crates/modules/attestation/src/lib.rs:1629-1649 | a zero charge does nothing; otherwise the transfer and the saturating counter move together |
| AttestationHandlers.AttestationModule.ChargeBuilder | crates/modules/attestation/src/lib.rs:1656-1676 | as above, for one builder's counter |
| AttestationHandlers.AttestationModule.AddToTreasury | crates/modules/attestation/src/lib.rs:1680-1688 | the counter grows by the amount, capped at 2^128-1 |
| AttestationHandlers.AttestationModule.AddToBuilder | crates/modules/attestation/src/lib.rs:1692-1701 | one builder's counter grows by the amount, capped, and no other |
| AttestationHandlers.AttestationModule.Call | crates/modules/attestation/src/lib.rs:1242-1295 | dispatch; a failed call leaves state and balances as they were |
| Genesis.GenesisEqualsReplay | crates/modules/attestation/src/lib.rs:1309-1528 | on every config, seeding and running the register handlers with fees waived agree on success, first error and final registries |
| Genesis.SeedSound | crates/modules/attestation/src/lib.rs:1309-1385 | a successful seeding yields a sound state and touches nothing but parameters and registries |
| Genesis.ValidateAttestationConfig | crates/stf/src/genesis_config.rs:316-389 | the loader's validator accepts exactly what seeding from the empty state accepts; otherwise both stop at the same entry for the same reason |
| Genesis.ValidateSets | crates/stf/src/genesis_config.rs:321-348 | an error names the entry where seeding stops, and for a duplicate the earliest entry with that id |
| Genesis.ValidateSchemas | crates/stf/src/genesis_config.rs:350-386 | the same for schemas, with the offending name, bps, cap and set |
| Genesis.ValidateConfig | crates/stf/src/genesis_config.rs:288-306 | the cross-module checks come first, then the attestation config |
| BountyHandlers.Bounties.BumpPosterNonce | crates/modules/bounty/src/lib.rs:914-922 | returns the old nonce and stores its saturating successor |
| BountyHandlers.Bounties.HandlePostBounty | crates/modules/bounty/src/lib.rs:956-1049 | the handler's result, error, stored state and balances are those specified |
| BountyHandlers.Bounties.StoreBounty | crates/modules/bounty/src/lib.rs:1017-1042 | record, escrow and index entry are written, unless the board's list already has 1024 entries |
| BountyHandlers.Bounties.CollectPayouts | crates/modules/bounty/src/lib.rs:1085-1107 | the payouts of a batch in order, or the first faulty claim's error |
| BountyHandlers.Bounties.PayClaims | crates/modules/bounty/src/lib.rs:1119-1143 | every payout is paid, stamped and announced in order, or the bank refuses the batch |
| BountyHandlers.Bounties.HandleClaimBounty | crates/modules/bounty/src/lib.rs:1056-1158 | the handler's result, error, stored state and balances are those specified |
| BountyHandlers.Bounties.HandleDisputeAttestation | crates/modules/bounty/src/lib.rs:1164-1209 | the handler's result, error, stored state and balances are those specified |
| BountyHandlers.Bounties.HandleResolveDispute | crates/modules/bounty/src/lib.rs:1214-1263 | the handler's result, error, stored state and balances are those specified |
| BountyHandlers.Bounties.HandleCancelBounty | crates/modules/bounty/src/lib.rs:1269-1326 | the handler's result, error, stored state and balances are those specified |
| BountyHandlers.Bounties.HandleFinaliseBounty | crates/modules/bounty/src/lib.rs:1334-1405 | the handler's result, error, stored state and balances are those specified |
| BountyHandlers.Bounties.Call | crates/modules/bounty/src/lib.rs:834-875 | dispatch; a failed call leaves state and balances as they were |
| BountyBooks.FoldClaims | crates/modules/bounty/src/lib.rs:528-585 | the events of a settled batch lower the book's escrow by the batch's exact total and count its payouts |
| BountyProofs.StampsExactly | crates/modules/bounty/src/lib.rs:1125-1131 | a batch stamps its own claims with the current height and no other |
| BountyProofs.ClaimedViewGood | crates/modules/bounty/src/lib.rs:1109-1153 | a settled batch keeps pool = escrow + payouts * per + refunds, Open or Exhausted by what is left, and the latest claim height a maximum |
| BountyProofs.DisputedViewGood | crates/modules/bounty/src/lib.rs:1190-1205 | a dispute keeps bonds backed by claims and, while it fits a u32, the open-dispute counter exact |
| BountyProofs.ResolvedViewGood | crates/modules/bounty/src/lib.rs:1247-1252 | a resolution keeps the same |
| BountyProofs.ClosedViewGood | crates/modules/bounty/src/lib.rs:1290-1319 | a cancel or finalise keeps the accounting, with nothing left in escrow |
| BountyProofs.PostedIndexed | crates/modules/bounty/src/lib.rs:1030-1042 | after a post the index is again the posting-order list of live bounties, within the cap |
| BountyProofs.ClosedIndexed | crates/modules/bounty/src/lib.rs:1311-1319 | after a cancel or finalise the index is again that list |
| BountyProofs.IndexLists | crates/modules/bounty/src/lib.rs:363-367 | a board's list holds exactly its Open and Exhausted bounties, each once, at most 1024 |
| BountySafety.ClaimStep | crates/modules/bounty/src/lib.rs:1109-1153 | a settled batch pays the true product, never the capped one, out of its own bounty's escrow |
| BountySafety.StepKeeps | crates/modules/bounty/src/lib.rs:956-1405 | every call keeps solvency, the event fold, the index, the accounting and the aggregates |
| BountyCalls.PostIff | crates/modules/bounty/src/lib.rs:956-1042 | posting succeeds exactly for a pool of one payout or more that the sender holds, a future expiry, a known board with room and a new id |
| BountyCalls.PostStores | crates/modules/bounty/src/lib.rs:1004-1045 | it stores the terms as given, lists the bounty last on its board, bumps the nonce and moves the pool from the sender |
| BountyCalls.ClaimFaultIff | crates/modules/bounty/src/lib.rs:1085-1107 | a claim is payable exactly when its attestation is stored, on the board, in the payload list if there is one, and asks for at most one peer |
| BountyCalls.ClaimIff | crates/modules/bounty/src/lib.rs:1056-1153 | a batch settles exactly when non-empty, on an Open unexpired bounty, with every claim so payable and the true total within escrow |
| BountyCalls.ClaimStores | crates/modules/bounty/src/lib.rs:1132-1153 | it lowers the escrow by the true total, exhausts the bounty below one payout and raises the latest height |
| BountyCalls.ClaimStamps | crates/modules/bounty/src/lib.rs:1125-1131 | it dates exactly its claims by the current height |
| BountyCalls.ClaimAnnounces | crates/modules/bounty/src/lib.rs:1132-1143 | it emits one event per claim, in order, naming claim, payout and submitter |
| BountyCalls.DisputeStores | crates/modules/bounty/src/lib.rs:1190-1209 | a dispute records who locked one payout over which claim and why |
| BountyCalls.ResolveIff | crates/modules/bounty/src/lib.rs:1214-1245 | a ruling succeeds exactly for the owner of the board's schema on an open dispute |
| BountyCalls.ResolveStores | crates/modules/bounty/src/lib.rs:1236-1263 | it pays the bond to the winner, drops the dispute, counts it down and announces decision and recipient |
| BountyCalls.CancelIff | crates/modules/bounty/src/lib.rs:1269-1300 | a cancel succeeds exactly for the poster of an unfinished bounty that is expired, or Open and never claimed |
| BountyCalls.CancelStores | crates/modules/bounty/src/lib.rs:1290-1326 | it ends Expired past expiry and Cancelled before, with nothing in escrow and off its board's list |
| BountyCalls.FinaliseIff | crates/modules/bounty/src/lib.rs:1334-1370 | a finalise succeeds exactly on an unfinished bounty that is expired or exhausted, with a zero counter and past its last window |
| BountyCalls.FinaliseStores | crates/modules/bounty/src/lib.rs:1372-1405 | it ends Finalised, with nothing in escrow and off its board's list |
| BountyCalls.PostRefusals | crates/modules/bounty/src/lib.rs:956-1042 | every refused post names a check that really failed, with its values |
| BountyCalls.BatchRefusals | crates/modules/bounty/src/lib.rs:1085-1107 | a refused batch reports what is wrong with its first claim that is not payable |
| BountyCalls.ClaimRefusals | crates/modules/bounty/src/lib.rs:1056-1153 | every other refused claim names a check that really failed, with its values |
| BountyCalls.DisputeRefusals | crates/modules/bounty/src/lib.rs:1164-1209 | every refused dispute names a check that really failed, with its values |
| BountyCalls.ResolveRefusals | crates/modules/bounty/src/lib.rs:1214-1263 | every refused ruling names a check that really failed |
| BountyCalls.CancelRefusals | crates/modules/bounty/src/lib.rs:1269-1326 | every refused cancel names a check that really failed |
| BountyCalls.FinaliseRefusals | crates/modules/bounty/src/lib.rs:1334-1405 | every refused finalise names a check that really failed, with its values |
| BountySafety.CancelTestExact | crates/modules/bounty/src/lib.rs:1288-1300 | before any refund, `escrow == pool` is true exactly when no claim was ever settled |
| BountySafety.PayoutsWithinPool | crates/modules/bounty/src/lib.rs:1148-1153 | over any batches at most pool / per_attestation claims are paid |
| BountyMoves.StepMoves | crates/modules/bounty/src/lib.rs:956-1405 | every completed call moves each bounty by one allowed move, and all but its own by none |
| BountyMoves.StepKeepsExact | crates/modules/bounty/src/lib.rs:1202-1205 | a bounty's dispute counter stays exactly the number of its open disputes while that number fits a u32, at every height |
| BountyMoves.StepKeepsDated | crates/modules/bounty/src/lib.rs:1363-1370 | `latest_claim > 0` keeps telling claims from none unless a claim on this bounty settles at height 0 |
| BountyMoves.SaturationLosesOne | crates/modules/bounty/src/lib.rs:1202-1205 | one dispute past 2^32-1 and as many resolutions leave the counter at 0 with a dispute open |
| BountyMoves.CancelledIsSettled | crates/modules/bounty/src/lib.rs:1288-1300 | a Cancelled bounty has no dispute and no claim, whatever the counters and heights |
| BountyMoves.ClosedIsSettled | crates/modules/bounty/src/lib.rs:1353-1370 | a Finalised bounty whose counter is exact and whose sentinel is truthful has no dispute and every window over; so has every Cancelled one |
| BountyMoves.StepKeepsSettled | crates/modules/bounty/src/lib.rs:1172-1188 | no completed call changes a settled bounty, although disputing checks no status |
| BountyMoves.FinaliseSealsIff | crates/modules/bounty/src/lib.rs:1353-1370 | an allowed finalise leaves the bounty settled exactly when no dispute is open and either `latest_claim > 0` tells claims from none or the window is below the height; an exact counter ensures the first |
| BountyMoves.UncountedDisputeUnsettled | crates/modules/bounty/src/lib.rs:1353-1358 | a dispute the counter has lost lets finalise through and leaves the bounty unsettled |
| BountyExit.FinalisedAtZeroReopens | crates/modules/bounty/src/lib.rs:1363-1370 | every single-payout bounty filled at height 0 can be finalised and then still be disputed |
| BountyExit.DisputeSucceedsIff | crates/modules/bounty/src/lib.rs:1164-1209 | disputing succeeds exactly on an undisputed claim inside its window, for a sender who holds one payout |
| BountyExit.OpenWindowReopens | crates/modules/bounty/src/lib.rs:1172-1188 | on every bounty of any status, such a claim can be disputed, and that changes the bounty |
| BountyExit.RulingReopens | crates/modules/bounty/src/lib.rs:1214-1263 | on every bounty of any status, an open dispute can be ruled on, and that changes the bounty |
| BountyExit.ResolveSucceeds | crates/modules/bounty/src/lib.rs:1214-1263 | the board owner's ruling on an open dispute never fails, either way |
| BountyExit.ResolveEachSucceeds | crates/modules/bounty/src/lib.rs:1214-1263 | ruling on every open dispute in any order and either way succeeds and leaves none |
| BountyExit.FinaliseSucceedsIff | crates/modules/bounty/src/lib.rs:1334-1370 | with no dispute open, finalise succeeds from any sender exactly when the bounty is ripe and not yet closed |
| BountyGains.BatchVerdict | crates/modules/bounty/src/lib.rs:1085-1107 | a batch passes exactly when every claim does, with one payout per claim to the attestation's own submitter; otherwise the first bad claim's error is reported |
| BountyGains.ClaimPays | crates/modules/bounty/src/lib.rs:1119-1143 | a settled batch gives each user the fixed payout once per claim it submitted, and nobody anything else |
| BountyGains.ResolvePays | crates/modules/bounty/src/lib.rs:1233-1245 | a ruling gives the bond to the disputer when accepted and to the poster when not |
| BountyGains.ClosingPays | crates/modules/bounty/src/lib.rs:1290-1387 | cancelling and finalising return exactly the remaining escrow to the poster |
| BountyExit.NothingStranded | crates/modules/bounty/src/lib.rs:1214-1405 | resolve all, wait, finalise: all succeed and leave escrow 0 and no bond |
| BountyExit.SomeRulingsCover | crates/modules/bounty/src/lib.rs:1214-1263 | every bounty's open disputes can be listed for ruling |
| BountyExit.PosterEmpties | crates/modules/bounty/src/lib.rs:1269-1326 | rulings and, past expiry, the poster's cancel empty a bounty with no condition on windows |
| BountyExit.RipensIff | crates/modules/bounty/src/lib.rs:1343-1370 | a height at which finalise passes exists exactly when no claim is dated or the last window ends before 2^64-1 |
| BountyExit.ClaimNeverOverdraws | crates/modules/bounty/src/lib.rs:1109-1123 | a checked batch settles exactly when the true total is within escrow; otherwise it is refused, by the bank only at a full 2^128-1 escrow |
| BountyExit.BalanceIsEscrowIff | crates/modules/bounty/src/lib.rs:323-326 | the module's balance is the sum of escrows exactly when no dispute is open |
| Contract.CommitKeyInjective | crates/modules/contract/src/lib.rs:840-849 | distinct 28-byte workers never share a commit key |
| ContractHandlers.Contracts.CommitKeyFor | crates/modules/contract/src/lib.rs:843-849 | the filled 28-byte buffer is the address's first 28 bytes, zero-padded |
| ContractHandlers.Contracts.BumpPosterNonce | crates/modules/contract/src/lib.rs:830-838 | returns the old nonce and stores its saturating successor |
| ContractHandlers.Contracts.HandlePostContract | crates/modules/contract/src/lib.rs:856-920 | the handler's result, error, stored state and balances are those specified |
| ContractHandlers.Contracts.HandleCommitToContract | crates/modules/contract/src/lib.rs:925-966 | the handler's result, error, stored state and balances are those specified |
| ContractHandlers.Contracts.HandleDeliverContract | crates/modules/contract/src/lib.rs:971-1025 | the handler's result, error, stored state and balances are those specified |
| ContractHandlers.Contracts.HandleAcceptDelivery | crates/modules/contract/src/lib.rs:1029-1076 | the handler's result, error, stored state and balances are those specified |
| ContractHandlers.Contracts.HandleRejectDelivery | crates/modules/contract/src/lib.rs:1081-1113 | the handler's result, error, stored state and balances are those specified |
| ContractHandlers.Contracts.HandleResolveContractDispute | crates/modules/contract/src/lib.rs:1118-1211 | the handler's result, error, stored state and balances are those specified |
| ContractHandlers.Contracts.HandleCancelContract | crates/modules/contract/src/lib.rs:1215-1281 | the handler's result, error, stored state and balances are those specified |
| ContractHandlers.Contracts.HandleFinalizeDelivery | crates/modules/contract/src/lib.rs:1290-1346 | the handler's result, error, stored state and balances are those specified |
| ContractHandlers.Contracts.Call | crates/modules/contract/src/lib.rs:741-793 | dispatch; a failed call leaves state and balances as they were |
| ContractProofs.DecideGood | crates/modules/contract/src/lib.rs:925-1346 | every call keeps escrow = pool until the contract is terminal, a live positive bond for the deliverer, disputes naming the deliverer, and the lifecycle |
| ContractProofs.DecideBalanced | crates/modules/contract/src/lib.rs:1046-1069 | every call pays out exactly what the module stops owing, although it pays `contract.pool` and not the escrow entry |
| ContractProofs.DecideMatched | crates/modules/contract/src/lib.rs:493-566 | folding the emitted event matches every call's change of escrows, bonds and deliveries |
| ContractProofs.CutWithinPool | crates/modules/contract/src/lib.rs:1136-1139 | the saturating arbiter cut is at most the pool, for every u128 pool |
| ContractProofs.CutIsFloorIff | crates/modules/contract/src/lib.rs:1136-1139 | the cut is the exact floor exactly when that floor is at most the cap's |
| ContractSafety.StepKeeps | crates/modules/contract/src/lib.rs:856-1346 | every call keeps solvency, the event fold and every contract's invariant |
| ContractSafety.StepKeepsTerminal | crates/modules/contract/src/lib.rs:1227-1250 | no completed call changes anything of an Accepted, Rejected, Cancelled or Expired contract |
| ContractCalls.PostIff | crates/modules/contract/src/lib.rs:856-905 | posting succeeds exactly for a positive pool that the sender holds, a future expiry, an arbiter fee of at most 5000 basis points and a new id |
| ContractCalls.PostStores | crates/modules/contract/src/lib.rs:890-919 | it stores the terms as given, bumps the nonce and moves the pool from the sender |
| ContractCalls.CommitIff | crates/modules/contract/src/lib.rs:925-956 | committing succeeds exactly with a positive bond the sender holds, from Open or Committed, for a worker without a commit |
| ContractCalls.CommitStores | crates/modules/contract/src/lib.rs:956-965 | it stores worker, hash and bond under the worker's key and announces them |
| ContractCalls.DeliverIff | crates/modules/contract/src/lib.rs:971-1007 | delivering succeeds exactly on a Committed unexpired contract without a delivery, for a committed worker and a stored attestation |
| ContractCalls.DeliverStores | crates/modules/contract/src/lib.rs:1008-1024 | the delivery is dated by the rollup height of the call |
| ContractCalls.AcceptStores | crates/modules/contract/src/lib.rs:1054-1075 | accepting leaves no escrow, no bond of the deliverer and an Accepted contract |
| ContractCalls.FinalizeStores | crates/modules/contract/src/lib.rs:1325-1345 | finalizing leaves the same |
| ContractCalls.RejectIff | crates/modules/contract/src/lib.rs:1081-1097 | a rejection succeeds exactly for the poster of a Delivered contract |
| ContractCalls.RejectStores | crates/modules/contract/src/lib.rs:1099-1112 | it records the dispute on the deliverer with its ground |
| ContractCalls.ResolveStores | crates/modules/contract/src/lib.rs:1196-1210 | a ruling leaves no escrow, no bond of the deliverer and no dispute, and announces decision and winner |
| ContractCalls.CancelStores | crates/modules/contract/src/lib.rs:1252-1280 | a cancel ends Expired past expiry and Cancelled before, with the event to match, and touches only the escrow |
| ContractCalls.PostRefusals | crates/modules/contract/src/lib.rs:856-905 | every refused post names a check that really failed, with its values |
| ContractCalls.CommitRefusals | crates/modules/contract/src/lib.rs:925-956 | every commit refused before payment names a check that really failed |
| ContractCalls.DeliverRefusals | crates/modules/contract/src/lib.rs:971-1007 | every refused delivery names a check that really failed, with its values |
| ContractCalls.AcceptRefusals | crates/modules/contract/src/lib.rs:1029-1045 | every refused accept names a check that really failed |
| ContractCalls.RejectRefusals | crates/modules/contract/src/lib.rs:1081-1097 | every refused rejection names a check that really failed |
| ContractCalls.ResolveRefusals | crates/modules/contract/src/lib.rs:1118-1135 | every refused ruling names a check that really failed |
| ContractCalls.CancelRefusals | crates/modules/contract/src/lib.rs:1215-1251 | every refused cancel names a check that really failed |
| ContractCalls.FinalizeRefusals | crates/modules/contract/src/lib.rs:1290-1314 | every refused finalize names a check that really failed, with its values |
| ContractExit.FinalizeIff | crates/modules/contract/src/lib.rs:1290-1314 | finalize succeeds, for any sender, exactly on a Delivered contract past its window |
| ContractExit.FinalizePays | crates/modules/contract/src/lib.rs:1316-1339 | it raises the worker's balance by exactly pool plus bond and no other user's |
| ContractExit.FinalizableIff | crates/modules/contract/src/lib.rs:1303-1314 | a height past the window exists exactly when the window ends before 2^64-1 |
| ContractExit.AcceptIff | crates/modules/contract/src/lib.rs:1029-1076 | accept succeeds exactly for the poster of a Delivered contract |
| ContractExit.WorkerPaid | crates/modules/contract/src/lib.rs:1046-1069 | the shared settlement never fails on a Delivered contract and pays the worker pool plus bond |
| ContractExit.ResolveIff | crates/modules/contract/src/lib.rs:1118-1135 | resolve succeeds, either way, exactly for the arbiter of a Disputed contract |
| ContractExit.RulingPaid | crates/modules/contract/src/lib.rs:1136-1204 | a ruling gives each user exactly the arbiter's cut and the winner's rest plus bond, even where parties coincide |
| ContractExit.CancelIff | crates/modules/contract/src/lib.rs:1215-1281 | cancel succeeds exactly for the poster of an Open, or expired and unfinished, contract and returns the whole pool |
| ContractExit.BondLeavesIff | crates/modules/contract/src/lib.rs:1046-1069 | a call releases a bond exactly when it settles a delivery, and then exactly the deliverer's |
| ContractExit.DelivererOwnsBond | crates/modules/contract/src/lib.rs:994-998 | with stored 28-byte workers the bond behind a delivery is the deliverer's own |
| MarketExit.DeliverersOwnTheirBonds | crates/modules/contract/src/lib.rs:994-998 | in every run whose contract calls come from 28-byte addresses that is so |
| ContractLifecycle.LifecycleLanguage | crates/modules/contract/src/lib.rs:114-131 | the automaton accepts exactly the prefixes of Posted (Cancelled, Expired, or Committed+ (Expired, or Delivered (Accepted, Expired, or Rejected (Resolved or Expired)))) |
| ContractLifecycle.LogsFollowLifecycle | crates/modules/contract/src/lib.rs:493-566 | every contract's event log is such a prefix, and a full word once it is terminal |
| ContractOrder.DecideLocal | crates/modules/contract/src/lib.rs:925-1346 | a call on a posted contract reads nothing but that contract |
| ContractOrder.HashesNeverRead | crates/modules/contract/src/lib.rs:971-1025 | every decision is the same with any other commit hashes stored: no call reads one |
| ContractOrder.CallsCommute | crates/modules/contract/src/lib.rs:925-1346 | two non-post calls on different contracts leave the same maps and balances in either order |
| Naming.DuplicateBountyNeedsCollision | crates/modules/bounty/src/lib.rs:999-1005 | `DuplicateBounty` exhibits a saturated poster nonce or a SHA-256 collision |
| Naming.DuplicateContractNeedsCollision | crates/modules/contract/src/lib.rs:890-895 | `DuplicateContract` exhibits a saturated poster nonce or a SHA-256 collision |
| Naming.BountyStepNamed | crates/modules/bounty/src/lib.rs:914-922 | every bounty id stays derived from its poster, board and a used nonce |
| Naming.ContractStepNamed | crates/modules/contract/src/lib.rs:830-838 | every contract id stays derived from its poster, criteria and a used nonce |
| Market.RunKeeps | crates/stf-declaration/src/lib.rs:71-132 | every world of every run keeps all three invariants; total AVOW is constant and registries only grow |
| Market.BountyPays | crates/modules/bounty/src/lib.rs:956-1405 | every completed bounty call makes exactly the payments listed for it, in order |
| Market.BountyFrame | crates/modules/bounty/src/lib.rs:956-1405 | a bounty call moves no AVOW of the contract module and mints none |
| Market.ContractFrame | crates/modules/contract/src/lib.rs:856-1346 | a contract call moves no AVOW of the bounty module |
| Market.AttestFrame | crates/modules/attestation/src/lib.rs:1629-1676 | an attestation call moves AVOW between users only |
| MarketRuns.TreasuryBooks | crates/modules/attestation/src/lib.rs:1680-1688 | over any run the treasury counter is min(2^128-1, the true sum charged) |
| MarketRuns.BuilderBooks | crates/modules/attestation/src/lib.rs:1692-1701 | the same for every builder |
| MarketRuns.AttestationEvents | crates/modules/attestation/src/lib.rs:1168-1204 | from genesis the events add exactly the sets, schemas and submissions made since |
| MarketRuns.StaysVerifiable | crates/modules/attestation/src/lib.rs:1545-1619 | a stored attestation is still there, unchanged and carrying a quorum of its unchanged set, in every later world |
| MarketFinality.TerminalForever | crates/modules/contract/src/lib.rs:1227-1250 | a terminal contract never changes again in any run |
| MarketFinality.TerminalLocksBonds | crates/modules/contract/src/lib.rs:1240-1245 | every bond still live on a terminal contract stays locked in every later run |
| MarketFinality.CancelLocksBonds | crates/modules/contract/src/lib.rs:1240-1275 | cancelling, before or after expiry, locks every bond live on the contract for good |
| MarketFinality.SettledForever | crates/modules/bounty/src/lib.rs:1172-1188 | a settled bounty never changes again in any run |
| MarketFinality.ClosedForever | crates/modules/bounty/src/lib.rs:1353-1370 | in every run from genesis a Cancelled bounty never changes again, nor a Finalised one whose own disputes fitted the counter and for which `latest_claim > 0` tells claims from none |
| MarketFinality.ClosedForeverAboveZero | crates/modules/bounty/src/lib.rs:1353-1370 | so no closed bounty changes again if the claims on it were made above height 0 and its own disputes fitted a u32 |
| MarketFinality.FinalIffSettled | crates/modules/bounty/src/lib.rs:1164-1209 | while someone holds one payout, a closed bounty is final if and only if it is settled |
| MarketFinality.CountersExact | crates/modules/bounty/src/lib.rs:1202-1205 | over any run a bounty's dispute counter equals its open disputes if those fit a u32, whatever other bounties do |
| MarketFinality.SentinelTruthful | crates/modules/bounty/src/lib.rs:1363-1370 | over any run `latest_claim > 0` tells claims on a bounty from none if they were made above height 0 |
| MarketHeightZero.ReachesReopened | crates/modules/bounty/src/lib.rs:1363-1370 | from a genesis at height 0, whenever one attestor can sign, five transactions reach a Finalised bounty with an open dispute |
| MarketHeightZero.ReopenedRunExists | crates/modules/bounty/src/lib.rs:1363-1370 | with a hash and a signature check written out, that run exists outright |
| MarketExit.NothingStrandedRun | crates/modules/bounty/src/lib.rs:1214-1405 | from every reachable world the exit transactions of a bounty end with escrow 0 and no bond |
| MarketExit.AnyoneCanExit | crates/modules/bounty/src/lib.rs:1214-1405 | such an exit exists, open to anyone, if no claim is dated or the last window ends before 2^64-1 |
| MarketExit.PosterCanAlwaysExit | crates/modules/bounty/src/lib.rs:1269-1326 | an exit closed by the poster's cancel exists from every reachable world, unconditionally |
| MarketExit.SettlementsNeverRevert | crates/modules/contract/src/lib.rs:1118-1346 | in every reachable world finalize, accept, resolve and cancel succeed whenever their own conditions hold |
| MarketRules.WindowRespected | crates/modules/contract/src/lib.rs:1303-1314 | in every run a contract delivered at height h can be finalized exactly while it is Delivered and the height is above h plus its window |
| MarketRules.ContractTermsForever | crates/modules/contract/src/lib.rs:971-1025 | over every run a contract's terms and its delivery never change |
| MarketRules.BountyTermsForever | crates/modules/bounty/src/lib.rs:956-1405 | over every run a bounty's terms never change |
| MarketRules.OnlyOwnersRule | crates/modules/bounty/src/lib.rs:1222-1231 | over every run a dispute disappears only by a ruling that the owner of its bounty's board sends |
| MarketRules.OwnerForever | crates/modules/bounty/src/lib.rs:1222-1231 | that owner never changes |
| MarketRules.OnlyEligibleClaimsPaid | crates/modules/bounty/src/lib.rs:1085-1107 | in every world of every run each paid claim is on a stored attestation that the bounty's own terms accept |
| MarketCommits.ManyWorkersCommit | crates/modules/contract/src/lib.rs:921-966 | on every chain that boots, for every n below 2^128-1, a run from genesis reaches n live commits on one contract |
| MarketCommits.CommitsBelowSupply | crates/modules/contract/src/lib.rs:921-966 | no reachable world has more while a contract is unfinished |
| Runtime.Chain.Execute | crates/stf-declaration/src/lib.rs:71-132 | the three handler classes over one bank carry out every action exactly as the composed chain specifies |
| Runtime.Chain.Seed | crates/modules/attestation/src/lib.rs:1233-1240 | genesis seeds the attestation module and leaves the others empty |

## Left out

- SDK internals (state codecs, kernel, authenticator, gas, sequencer and prover accounts): the bank is a balance map, and `Market.Action.Send` stands for any transfer between other accounts.
- Minting, burning and other tokens: only AVOW held by accounts is modelled.
- SHA-256 and Ed25519 internals, Borsh and Bech32m encodings, display and parsing of keys.
- REST queries, metrics, node blueprints, clients, bootstrap and key tools.
- Chain-id parsing, address substitution in genesis JSON and reading files: they would add easy members only.
- `SafeString` and signature-bytes length caps, which no handler depends on.
- One payout per attestation and payment of delivered workers past expiry: the code does not promise them, so nothing is stated.
- MarketFinality.ClosedForever: asks a Finalised bounty for a counter that fitted and a truthful sentinel; `MarketFinality.FinalIffSettled` has no such hypothesis and says which closed bounties are final.
