/** Theorems about whole runs of the chain, from genesis. */
module MarketRuns {
  import opened Types
  import opened Ledger
  import opened Market
  import A = Attestation
  import AP = AttestationProofs

  // ----- Fee books -----

  /** What an action owes the treasury and the builders, if it goes through. */
  function Charge(c: Scheme, w: World, action: Action): AP.Due {
    if action.Attest? && A.Step(c, w.att, w.funds, action.sender, action.a).Done?
    then AP.Dues(w.att, action.a) else AP.Due(0, 0, None)
  }

  function ToBuilder(d: AP.Due, builder: Address): nat {
    if d.builderAddr == Some(builder) then d.builder else 0
  }

  /** The true sums charged over a run, uncapped. */
  function TreasuryTotal(c: Scheme, w: World, actions: seq<Action>): nat {
    if actions == [] then 0
    else
      var front := actions[..|actions| - 1];
      TreasuryTotal(c, w, front) + Charge(c, Run(c, w, front), actions[|actions| - 1]).treasury
  }

  function BuilderTotal(c: Scheme, w: World, actions: seq<Action>, builder: Address): nat {
    if actions == [] then 0
    else
      var front := actions[..|actions| - 1];
      BuilderTotal(c, w, front, builder) + ToBuilder(Charge(c, Run(c, w, front), actions[|actions| - 1]), builder)
  }

  lemma ApplyBooks(c: Scheme, w: World, action: Action)
    ensures Apply(c, w, action).att.treasuryCollected
         == SaturatingAdd128(w.att.treasuryCollected, Charge(c, w, action).treasury)
  {
    match action
    case Attest(sender, m) =>
      if A.Step(c, w.att, w.funds, sender, m).Done? { AP.StepCharges(c, w.att, w.funds, sender, m); }
    case _ =>
  }

  lemma ApplyBuilderBooks(c: Scheme, w: World, action: Action, builder: Address)
    ensures Get(Apply(c, w, action).att.builderCollected, builder, 0)
         == SaturatingAdd128(Get(w.att.builderCollected, builder, 0), ToBuilder(Charge(c, w, action), builder))
  {
    match action
    case Attest(sender, m) =>
      if A.Step(c, w.att, w.funds, sender, m).Done? { AP.StepCharges(c, w.att, w.funds, sender, m); }
    case _ =>
  }

  lemma CapOnce(start: nat, sum: nat, next: nat)
    ensures SaturatingAdd128(SaturatingAdd128(start, sum), next) == SaturatingAdd128(start, sum + next)
  {}

  /** The treasury's saturating counter holds the true sum charged, capped once. */
  lemma {:induction false} TreasuryBooks(c: Scheme, w: World, actions: seq<Action>)
    ensures Run(c, w, actions).att.treasuryCollected
         == SaturatingAdd128(w.att.treasuryCollected, TreasuryTotal(c, w, actions))
    decreases |actions|
  {
    if actions != [] {
      var front, last := actions[..|actions| - 1], actions[|actions| - 1];
      TreasuryBooks(c, w, front);
      ApplyBooks(c, Run(c, w, front), last);
      CapOnce(w.att.treasuryCollected, TreasuryTotal(c, w, front), Charge(c, Run(c, w, front), last).treasury);
    }
  }

  /** Each builder's saturating counter holds the true sum charged for it, capped once. */
  lemma {:induction false} BuilderBooks(c: Scheme, w: World, actions: seq<Action>, builder: Address)
    ensures Get(Run(c, w, actions).att.builderCollected, builder, 0)
         == SaturatingAdd128(Get(w.att.builderCollected, builder, 0), BuilderTotal(c, w, actions, builder))
    decreases |actions|
  {
    if actions != [] {
      var front, last := actions[..|actions| - 1], actions[|actions| - 1];
      BuilderBooks(c, w, front, builder);
      ApplyBuilderBooks(c, Run(c, w, front), last, builder);
      CapOnce(Get(w.att.builderCollected, builder, 0), BuilderTotal(c, w, front, builder),
              ToBuilder(Charge(c, Run(c, w, front), last), builder));
    }
  }

  // ----- Events -----

  /** From genesis on, the attestation events add exactly the registrations and submissions made since. */
  lemma {:induction false} AttestationEvents(c: Scheme, w: World, actions: seq<Action>)
    requires w.att.log == []
    ensures var z := Run(c, w, actions); AP.IngestAll(c, AP.Indexed(w.att), z.att.log) == AP.Indexed(z.att)
    decreases |actions|
  {
    if actions != [] {
      var y, action := Run(c, w, actions[..|actions| - 1]), actions[|actions| - 1];
      AttestationEvents(c, w, actions[..|actions| - 1]);
      if action.Attest? && A.Step(c, y.att, y.funds, action.sender, action.a).Done? {
        AP.StepEvents(c, AP.Indexed(w.att), y.att, y.funds, action.sender, action.a);
      }
    }
  }

  // ----- Attestations stay verifiable -----

  /** An attestation stored at some point is still there, unchanged and verifiable, at every later point. */
  lemma StaysVerifiable(c: Scheme, cfg: A.Config, w: World, xs: seq<Action>, ys: seq<Action>, id: AttestationId)
    requires Genesis(c, cfg, w) && id in Run(c, w, xs).att.attestations
    ensures var y, z := Run(c, w, xs).att, Run(c, w, xs + ys).att;
            var a := y.attestations[id];
            && id in z.attestations && z.attestations[id] == a
            && a.schema in y.schemas && a.schema in z.schemas && z.schemas[a.schema] == y.schemas[a.schema]
            && y.schemas[a.schema].attestorSet in y.sets && y.schemas[a.schema].attestorSet in z.sets
            && z.sets[y.schemas[a.schema].attestorSet] == y.sets[y.schemas[a.schema].attestorSet]
            && A.Quorum(c, z.sets[z.schemas[a.schema].attestorSet],
                        c.digest(a.schema, a.payload, a.submitter, a.timestamp), a.signatures)
  {
    GenesisInvariant(c, cfg, w);
    RunKeeps(c, w, xs);
    RunConcat(c, w, xs, ys);
    RunKeeps(c, Run(c, w, xs), ys);
    assert AP.Verifiable(c, Run(c, w, xs).att.sets, Run(c, w, xs).att.schemas, id, Run(c, w, xs).att.attestations[id]);
  }

  /** Under a set whose threshold exceeds its distinct members, no later world ever holds an attestation. */
  lemma RepeatedMembersNeverAttest(c: Scheme, w: World, actions: seq<Action>, set_: AttestorSetId, id: AttestationId)
    requires Invariant(c, w) && set_ in w.att.sets
    requires |AP.Distinct(w.att.sets[set_].members)| < w.att.sets[set_].threshold
    ensures var z := Run(c, w, actions).att;
            id in z.attestations ==> z.attestations[id].schema in z.schemas
                                     && z.schemas[z.attestations[id].schema].attestorSet != set_
  {
    RunKeeps(c, w, actions);
    var z := Run(c, w, actions).att;
    if id in z.attestations {
      var a := z.attestations[id];
      assert AP.Verifiable(c, z.sets, z.schemas, id, a);
      AP.QuorumNeedsDistinct(c, z.sets[z.schemas[a.schema].attestorSet],
                             c.digest(a.schema, a.payload, a.submitter, a.timestamp), a.signatures);
    }
  }
}
