/** The chain's runtime: the three modules over one bank, dispatching one transaction at a time. */
module Runtime {
  import opened Types
  import opened Ledger
  import opened Market
  import A = Attestation
  import B = Bounty
  import C = Contract
  import AttestationHandlers
  import BountyHandlers
  import ContractHandlers

  class Chain {
    const scheme: Scheme
    const bank: Bank
    const attestation: AttestationHandlers.AttestationModule
    const bounties: BountyHandlers.Bounties
    const contracts: ContractHandlers.Contracts
    var clock: Clock

    /** All modules share the one bank, and bounties and contracts read the one attestation module. */
    ghost predicate Wired() {
      && attestation.bank == bank && bounties.bank == bank && contracts.bank == bank
      && bounties.attestation == attestation && contracts.attestation == attestation
      && attestation.scheme == scheme && bounties.scheme == scheme && contracts.scheme == scheme
    }

    /** The chain's whole state, as a value. */
    function Now(): World
      reads this, bank, attestation, bounties, contracts
    {
      World(bank.balances, attestation.Now(), bounties.Now(), contracts.Now(), clock)
    }

    constructor (scheme: Scheme, funds: Balances, clock: Clock)
      ensures Wired() && fresh(bank) && fresh(attestation) && fresh(bounties) && fresh(contracts)
      ensures this.scheme == scheme && Now() == World(funds, A.EMPTY, B.EMPTY, C.EMPTY, clock)
    {
      this.scheme, this.clock := scheme, clock;
      var b := new Bank(funds);
      var a := new AttestationHandlers.AttestationModule(scheme, b);
      bank, attestation := b, a;
      bounties := new BountyHandlers.Bounties(scheme, b, a);
      contracts := new ContractHandlers.Contracts(scheme, b, a);
    }

    /** Genesis: seed the attestation module; the other two start empty. */
    method Seed(config: A.Config) returns (r: Outcome<A.Error>)
      requires Wired()
      modifies attestation
      ensures match A.Seed(scheme, old(attestation.Now()), config)
              case Success(s) => r == Pass && Now() == old(Now()).(att := s)
              case Failure(e) => r == Fail(e)
    {
      r := attestation.SeedFromConfig(config);
    }

    /** A token transfer between users. */
    method SendTokens(from: Address, to: Address, amount: nat)
      requires Wired()
      modifies bank
      ensures Now() == Apply(scheme, old(Now()), Send(from, to, amount))
    {
      var _ := bank.TransferFrom(User(from), User(to), amount);
    }

    /** Move the chain on to a later height. */
    method AdvanceTo(height: u64)
      requires Wired()
      modifies this`clock
      ensures Now() == Apply(scheme, old(Now()), Advance(height))
    {
      if height >= clock.rollup {
        clock := clock.(rollup := height);
      }
    }

    method CallAttestation(sender: Address, m: A.Message) returns (r: Outcome<A.Error>)
      requires Wired()
      modifies bank, attestation
      ensures r == A.Reply(A.Step(scheme, old(attestation.Now()), old(bank.balances), sender, m))
      ensures Now() == Apply(scheme, old(Now()), Attest(sender, m))
    {
      r := attestation.Call(sender, m);
    }

    method CallBounties(sender: Address, m: B.Message) returns (r: Outcome<B.Error>)
      requires Wired()
      modifies bank, bounties
      ensures r == B.Reply(B.Step(scheme, old(bounties.Now()), old(bank.balances), old(attestation.Now()), clock, sender, m))
      ensures Now() == Apply(scheme, old(Now()), CallBounty(sender, m))
    {
      r := bounties.Call(clock, sender, m);
    }

    method CallContracts(sender: Address, m: C.Message) returns (r: Outcome<C.Error>)
      requires Wired()
      modifies bank, contracts
      ensures r == C.Reply(C.Step(scheme, old(contracts.Now()), old(bank.balances), old(attestation.Now()), clock,
                                  sender, m))
      ensures Now() == Apply(scheme, old(Now()), CallContract(sender, m))
    {
      r := contracts.Call(clock, sender, m);
    }

    /** One action of a run. */
    method Execute(action: Action)
      requires Wired()
      modifies this`clock, bank, attestation, bounties, contracts
      ensures Now() == Apply(scheme, old(Now()), action)
    {
      match action {
        case Attest(sender, m) => var _ := CallAttestation(sender, m);
        case CallBounty(sender, m) => var _ := CallBounties(sender, m);
        case CallContract(sender, m) => var _ := CallContracts(sender, m);
        case Send(from, to, amount) => SendTokens(from, to, amount);
        case Advance(height) => AdvanceTo(height);
      }
    }
  }
}
