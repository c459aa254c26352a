/** The bounty module's records and call effects, as functions of its state. */
module Bounty {
  import opened Types
  import opened Ledger
  import A = Attestation

  const MAX_CLAIMS_PER_CALL: nat := 64
  const MAX_PAYLOAD_HASHES: nat := 256
  const MAX_OPEN_BOUNTIES_PER_SCHEMA: nat := 1024

  /** The chain clips these lists when it decodes a message. */
  type ClaimBatch = s: seq<AttestationId> | |s| <= MAX_CLAIMS_PER_CALL
  type HashList = s: seq<PayloadHash> | |s| <= MAX_PAYLOAD_HASHES

  datatype Status = Open | Exhausted | Expired | Cancelled | Finalised

  datatype Acceptance =
    | Any
    | FromSet(id: AttestorSetId)
    | PayloadHashes(hashes: HashList)
    | PeerCount(minAttestors: u8)

  datatype Decision = Accept | Reject

  datatype Ground = Mismatched | InvalidPayload | StaleAttestorSet | Other

  datatype Record = Record(
    poster: Address, board: SchemaId, pool: u128, per: u128, acceptance: Acceptance,
    expiry: u64, window: u32, status: Status)

  datatype Dispute = Dispute(disputer: Address, bond: nat, ground: Ground)

  datatype DisputeKey = DisputeKey(bounty: BountyId, attestation: AttestationId)

  datatype Payout = Payout(attestation: AttestationId, attester: Address)

  datatype Error =
    | EmptyPool
    | ZeroPerAttestation
    | PerAttestationExceedsPool(per: u128, pool: u128)
    | InvalidExpiryHeight
    | ExpiryInPast(expiry: u64, current: u64)
    | UnknownBoardSchema
    | DuplicateBounty
    | TooManyOpenBounties
    | UnknownBounty
    | NotPoster
    | NotBoardOperator
    | InvalidStatus(status: Status)
    | UnknownAttestation
    | SchemaMismatch(expected: SchemaId, actual: SchemaId)
    | AcceptanceMismatch
    | EscrowInsufficient(escrow: nat, wouldPay: nat)
    | EmptyClaimBatch
    | BountyExpiredForClaim(expiry: u64, current: u64)
    | DuplicateDispute
    | NoClaimToDispute
    | DisputeWindowClosed(windowClose: u64, current: u64)
    | UnknownDispute
    | CancelWhileClaimed
    | NotFinalisable(status: Status)
    | DisputesStillOpen(open: nat)
    | DisputeWindowsStillOpen(latestClaim: nat, window: u32, current: u64)
    | ModuleNotInitialised
    | InsufficientFunds  // the bank's own refusal, passed through

  datatype Event =
    | BountyPosted(bounty: BountyId, poster: Address, pool: nat)
    | BountyClaimed(bounty: BountyId, attestation: AttestationId, payout: nat, attester: Address)
    | BountyDisputed(bounty: BountyId, attestation: AttestationId, disputer: Address, bond: nat)
    | DisputeResolved(bounty: BountyId, attestation: AttestationId, decision: Decision, recipient: Address)
    | BountyExpired(bounty: BountyId, refunded: nat)
    | BountyFinalised(bounty: BountyId, swept: nat)

  datatype State = State(
    bounties: map<BountyId, Record>,
    openBySchema: map<SchemaId, seq<BountyId>>,
    escrow: map<BountyId, nat>,
    disputes: map<DisputeKey, Dispute>,
    claimHeight: map<DisputeKey, nat>,
    latestClaim: map<BountyId, nat>,
    openDisputes: map<BountyId, nat>,
    nextNonce: map<Address, u64>,
    log: seq<Event>)

  const EMPTY: State := State(map[], map[], map[], map[], map[], map[], map[], map[], [])

  /** What a call comes to: the new state and balances, or the first error. */
  datatype Verdict = Done(state: State, funds: Balances) | Refused(error: Error)

  function Reply(v: Verdict): Outcome<Error> {
    if v.Done? then Pass else Fail(v.error)
  }

  const ESCROW: Account := Module(BountyModule)

  /** Run a call's transfers, then adopt its state. */
  function Settle(l: Balances, ts: seq<Transfer>, s: State): Verdict {
    match PayAll(l, ts)
    case None => Refused(InsufficientFunds)
    case Some(l1) => Done(s, l1)
  }

  // ----- Post -----

  function Post(c: Scheme, s: State, l: Balances, att: A.State, clock: Clock, sender: Address, board: SchemaId,
                pool: u128, per: u128, acceptance: Acceptance, expiry: u64, window: u32): Verdict
  {
    if pool == 0 then Refused(EmptyPool)
    else if per == 0 then Refused(ZeroPerAttestation)
    else if per > pool then Refused(PerAttestationExceedsPool(per, pool))
    else if expiry == 0 then Refused(InvalidExpiryHeight)
    else if expiry <= clock.DaHeight() then Refused(ExpiryInPast(expiry, clock.DaHeight()))
    else if board !in att.schemas then Refused(UnknownBoardSchema)
    else
      var nonce := Get(s.nextNonce, sender, 0);
      var id := c.bountyId(sender, board, nonce);
      if id in s.bounties then Refused(DuplicateBounty)
      else if att.avow.None? then Refused(ModuleNotInitialised)
      else
        match Pay(l, Transfer(User(sender), ESCROW, pool))
        case None => Refused(InsufficientFunds)
        case Some(l1) =>
          var open := Get(s.openBySchema, board, []);
          if |open| >= MAX_OPEN_BOUNTIES_PER_SCHEMA then Refused(TooManyOpenBounties)
          else Done(Posted(s, id, Record(sender, board, pool, per, acceptance, expiry, window, Open), nonce), l1)
  }

  function Posted(s: State, id: BountyId, r: Record, nonce: u64): State {
    s.(bounties := s.bounties[id := r],
       openBySchema := s.openBySchema[r.board := Get(s.openBySchema, r.board, []) + [id]],
       escrow := s.escrow[id := r.pool],
       nextNonce := s.nextNonce[r.poster := SaturatingAdd64(nonce, 1)],
       log := s.log + [BountyPosted(id, r.poster, r.pool)])
  }

  // ----- Claim -----

  predicate MatchesAcceptance(a: A.Record, board: SchemaId, acceptance: Acceptance, peerCount: u8) {
    a.schema == board &&
    match acceptance
    case Any => true
    case FromSet(_) => true
    case PayloadHashes(hashes) => a.payload in hashes
    case PeerCount(minAttestors) => peerCount >= minAttestors
  }

  /** Why attestation `id` cannot be claimed against `r`, if anything. */
  function ClaimFault(att: A.State, r: Record, id: AttestationId): Option<Error> {
    if id !in att.attestations then Some(UnknownAttestation)
    else
      var a := att.attestations[id];
      if a.schema != r.board then Some(SchemaMismatch(r.board, a.schema))
      else if !MatchesAcceptance(a, r.board, r.acceptance, 1) then Some(AcceptanceMismatch)
      else None
  }

  /** The payouts of a batch, in order, or the first claim's fault. */
  function Payouts(att: A.State, r: Record, claims: seq<AttestationId>): Result<seq<Payout>, Error> {
    if claims == [] then Success([])
    else
      match Payouts(att, r, claims[..|claims| - 1])
      case Failure(e) => Failure(e)
      case Success(ps) =>
        var id := claims[|claims| - 1];
        match ClaimFault(att, r, id)
        case Some(e) => Failure(e)
        case None => Success(ps + [Payout(id, att.attestations[id].submitter)])
  }

  function PayoutTransfers(ps: seq<Payout>, per: nat): seq<Transfer> {
    if ps == [] then []
    else PayoutTransfers(ps[..|ps| - 1], per) + [Transfer(ESCROW, User(ps[|ps| - 1].attester), per)]
  }

  function StampHeights(heights: map<DisputeKey, nat>, b: BountyId, ps: seq<Payout>, h: nat): map<DisputeKey, nat> {
    if ps == [] then heights
    else StampHeights(heights, b, ps[..|ps| - 1], h)[DisputeKey(b, ps[|ps| - 1].attestation) := h]
  }

  function ClaimEvents(b: BountyId, ps: seq<Payout>, per: nat): seq<Event> {
    if ps == [] then []
    else
      var p := ps[|ps| - 1];
      ClaimEvents(b, ps[..|ps| - 1], per) + [BountyClaimed(b, p.attestation, per, p.attester)]
  }

  function Claimed(s: State, b: BountyId, ps: seq<Payout>, wouldPay: nat, h: nat): State
    requires b in s.bounties
  {
    var r := s.bounties[b];
    var left := SaturatingSub(Get(s.escrow, b, 0), wouldPay);
    s.(claimHeight := StampHeights(s.claimHeight, b, ps, h),
       latestClaim := if h > Get(s.latestClaim, b, 0) then s.latestClaim[b := h] else s.latestClaim,
       escrow := s.escrow[b := left],
       bounties := if left < r.per then s.bounties[b := r.(status := Exhausted)] else s.bounties,
       log := s.log + ClaimEvents(b, ps, r.per))
  }

  function Claim(s: State, l: Balances, att: A.State, clock: Clock, b: BountyId, claims: ClaimBatch): Verdict {
    if claims == [] then Refused(EmptyClaimBatch)
    else if b !in s.bounties then Refused(UnknownBounty)
    else
      var r := s.bounties[b];
      if r.status != Open then Refused(InvalidStatus(r.status))
      else if clock.DaHeight() >= r.expiry then Refused(BountyExpiredForClaim(r.expiry, clock.DaHeight()))
      else
        match Payouts(att, r, claims)
        case Failure(e) => Refused(e)
        case Success(ps) =>
          var wouldPay := SaturatingMul128(r.per, |ps|);
          var held := Get(s.escrow, b, 0);
          if wouldPay > held then Refused(EscrowInsufficient(held, wouldPay))
          else if att.avow.None? then Refused(ModuleNotInitialised)
          else Settle(l, PayoutTransfers(ps, r.per), Claimed(s, b, ps, wouldPay, clock.rollup))
  }

  // ----- Dispute and resolve -----

  function Disputed(s: State, key: DisputeKey, d: Dispute): State {
    s.(disputes := s.disputes[key := d],
       openDisputes := s.openDisputes[key.bounty := SaturatingAdd32(Get(s.openDisputes, key.bounty, 0), 1)],
       log := s.log + [BountyDisputed(key.bounty, key.attestation, d.disputer, d.bond)])
  }

  function DisputeClaim(s: State, l: Balances, att: A.State, clock: Clock, sender: Address, b: BountyId,
                        a: AttestationId, ground: Ground): Verdict
  {
    var key := DisputeKey(b, a);
    if b !in s.bounties then Refused(UnknownBounty)
    else if key in s.disputes then Refused(DuplicateDispute)
    else if key !in s.claimHeight then Refused(NoClaimToDispute)
    else
      var r := s.bounties[b];
      var close := SaturatingAdd64(s.claimHeight[key], r.window);
      if clock.rollup > close then Refused(DisputeWindowClosed(close, clock.rollup))
      else if att.avow.None? then Refused(ModuleNotInitialised)
      else Settle(l, [Transfer(User(sender), ESCROW, r.per)], Disputed(s, key, Dispute(sender, r.per, ground)))
  }

  function Resolved(s: State, key: DisputeKey, decision: Decision, recipient: Address): State {
    s.(disputes := s.disputes - {key},
       openDisputes := s.openDisputes[key.bounty := SaturatingSub(Get(s.openDisputes, key.bounty, 0), 1)],
       log := s.log + [DisputeResolved(key.bounty, key.attestation, decision, recipient)])
  }

  function Resolve(s: State, l: Balances, att: A.State, sender: Address, b: BountyId, a: AttestationId,
                   decision: Decision): Verdict
  {
    var key := DisputeKey(b, a);
    if b !in s.bounties then Refused(UnknownBounty)
    else if s.bounties[b].board !in att.schemas then Refused(UnknownBoardSchema)
    else if sender != att.schemas[s.bounties[b].board].owner then Refused(NotBoardOperator)
    else if key !in s.disputes then Refused(UnknownDispute)
    else
      var d := s.disputes[key];
      var recipient := if decision == Accept then d.disputer else s.bounties[b].poster;
      if att.avow.None? then Refused(ModuleNotInitialised)
      else Settle(l, [Transfer(ESCROW, User(recipient), d.bond)], Resolved(s, key, decision, recipient))
  }

  // ----- Cancel and finalise -----

  function Without(ids: seq<BountyId>, b: BountyId): seq<BountyId> {
    if ids == [] then []
    else
      var front := Without(ids[..|ids| - 1], b);
      if ids[|ids| - 1] == b then front else front + [ids[|ids| - 1]]
  }

  function Unlisted(open: map<SchemaId, seq<BountyId>>, board: SchemaId, b: BountyId): map<SchemaId, seq<BountyId>> {
    if board in open then open[board := Without(open[board], b)] else open
  }

  /** Close a bounty: empty its escrow, set its status, take it off its board's list. */
  function Closed(s: State, b: BountyId, status: Status, event: Event): State
    requires b in s.bounties
  {
    s.(escrow := if Get(s.escrow, b, 0) > 0 then s.escrow[b := 0] else s.escrow,
       bounties := s.bounties[b := s.bounties[b].(status := status)],
       openBySchema := Unlisted(s.openBySchema, s.bounties[b].board, b),
       log := s.log + [event])
  }

  /** Refund whatever escrow is left to the poster; a zero refund makes no transfer. */
  function Refund(s: State, b: BountyId): seq<Transfer>
    requires b in s.bounties
  {
    var left := Get(s.escrow, b, 0);
    if left > 0 then [Transfer(ESCROW, User(s.bounties[b].poster), left)] else []
  }

  function Cancel(s: State, l: Balances, att: A.State, clock: Clock, sender: Address, b: BountyId): Verdict {
    if b !in s.bounties then Refused(UnknownBounty)
    else
      var r := s.bounties[b];
      if sender != r.poster then Refused(NotPoster)
      else if r.status == Cancelled || r.status == Finalised then Refused(InvalidStatus(r.status))
      else
        var left := Get(s.escrow, b, 0);
        var expired := clock.DaHeight() >= r.expiry;
        if left != r.pool && !expired then Refused(CancelWhileClaimed)
        else if left > 0 && att.avow.None? then Refused(ModuleNotInitialised)
        else Settle(l, Refund(s, b), Closed(s, b, if expired then Expired else Cancelled, BountyExpired(b, left)))
  }

  function Finalise(s: State, l: Balances, att: A.State, clock: Clock, b: BountyId): Verdict {
    if b !in s.bounties then Refused(UnknownBounty)
    else
      var r := s.bounties[b];
      var latest := Get(s.latestClaim, b, 0);
      var left := Get(s.escrow, b, 0);
      if r.status == Cancelled || r.status == Finalised then Refused(NotFinalisable(r.status))
      else if clock.DaHeight() < r.expiry && r.status != Exhausted then Refused(NotFinalisable(r.status))
      else if Get(s.openDisputes, b, 0) > 0 then Refused(DisputesStillOpen(Get(s.openDisputes, b, 0)))
      else if latest > 0 && clock.rollup <= SaturatingAdd64(latest, r.window) then
        Refused(DisputeWindowsStillOpen(latest, r.window, clock.rollup))
      else if left > 0 && att.avow.None? then Refused(ModuleNotInitialised)
      else Settle(l, Refund(s, b), Closed(s, b, Finalised, BountyFinalised(b, left)))
  }

  // ----- Dispatch -----

  datatype Message =
    | PostBounty(board: SchemaId, pool: u128, per: u128, acceptance: Acceptance, expiry: u64, window: u32)
    | ClaimBounty(bounty: BountyId, claims: ClaimBatch)
    | DisputeAttestation(bounty: BountyId, attestation: AttestationId, ground: Ground)
    | ResolveDispute(bounty: BountyId, attestation: AttestationId, decision: Decision)
    | CancelBounty(bounty: BountyId)
    | FinaliseBounty(bounty: BountyId)

  function Step(c: Scheme, s: State, l: Balances, att: A.State, clock: Clock, sender: Address, m: Message): Verdict {
    match m
    case PostBounty(board, pool, per, acceptance, expiry, window) =>
      Post(c, s, l, att, clock, sender, board, pool, per, acceptance, expiry, window)
    case ClaimBounty(b, claims) => Claim(s, l, att, clock, b, claims)
    case DisputeAttestation(b, a, ground) => DisputeClaim(s, l, att, clock, sender, b, a, ground)
    case ResolveDispute(b, a, decision) => Resolve(s, l, att, sender, b, a, decision)
    case CancelBounty(b) => Cancel(s, l, att, clock, sender, b)
    case FinaliseBounty(b) => Finalise(s, l, att, clock, b)
  }

  /** A faulty claim stops the whole batch with its own error. */
  lemma {:induction false} PayoutsStop(att: A.State, r: Record, claims: seq<AttestationId>, i: nat)
    requires i <= |claims| && Payouts(att, r, claims[..i]).Failure?
    ensures Payouts(att, r, claims) == Payouts(att, r, claims[..i])
    decreases |claims|
  {
    if i < |claims| {
      assert claims[..|claims| - 1][..i] == claims[..i];
      PayoutsStop(att, r, claims[..|claims| - 1], i);
    } else {
      assert claims[..i] == claims;
    }
  }
}
