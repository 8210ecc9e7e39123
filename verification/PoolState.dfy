/** The pool of a round and one miner's membership in it. Both record deployments with
    saturating additions. */
module PoolState {
  import opened Basics
  import opened MinerState

  datatype PoolRound = PoolRound(id: uint64, deployed: Grid, count: Grid, totalDeployed: uint64)

  datatype PoolMember = PoolMember(roundId: uint64, deployed: Grid, totalDeployed: uint64)

  ghost function OpenPool(id: uint64): PoolRound {
    PoolRound(id, Zeros(), Zeros(), 0)
  }

  const NEW_MEMBER := PoolMember(0, Zeros(), 0)

  function SaturatingAdd(a: uint64, b: uint64): uint64 {
    Min(a + b, UINT64_MAX)
  }

  /** A membership counts for one round only. */
  ghost function ForRound(m: PoolMember, roundId: uint64): PoolMember {
    if m.roundId == roundId then m else PoolMember(roundId, Zeros(), 0)
  }

  ghost function Join(m: PoolMember, square: nat, amount: uint64): PoolMember
    requires square < SQUARES
  {
    m.(deployed := m.deployed[square := SaturatingAdd(m.deployed[square], amount)],
       totalDeployed := SaturatingAdd(m.totalDeployed, amount))
  }

  ghost function Gather(p: PoolRound, square: nat, amount: uint64, isNew: bool): PoolRound
    requires square < SQUARES
  {
    p.(deployed := p.deployed[square := SaturatingAdd(p.deployed[square], amount)],
       count := p.count[square := if isNew then SaturatingAdd(p.count[square], 1) else p.count[square]],
       totalDeployed := SaturatingAdd(p.totalDeployed, amount))
  }

  /** The address of a membership: its data stay empty until the miner first bets with the pool. */
  class PoolMemberAccount {
    var isOpen: bool
    var roundId: uint64
    const deployed: array<uint64>
    var totalDeployed: uint64

    constructor ()
      ensures Valid() && fresh(deployed) && Stored() == None
    {
      isOpen := false;
      roundId := 0;
      deployed := new uint64[SQUARES](_ => 0);
      totalDeployed := 0;
    }

    ghost predicate Valid() {
      deployed.Length == SQUARES
    }

    ghost function View(): PoolMember
      requires Valid()
      reads this, deployed
    {
      PoolMember(roundId, deployed[..], totalDeployed)
    }

    ghost function Stored(): Option<PoolMember>
      requires Valid()
      reads this, deployed
    {
      if isOpen then Some(View()) else None
    }

    method Open()
      requires Valid()
      modifies this, deployed
      ensures Stored() == Some(NEW_MEMBER)
    {
      isOpen := true;
      ResetForRound(0);
    }

    method ResetForRound(roundId: uint64)
      requires Valid()
      modifies this`roundId, this`totalDeployed, deployed
      ensures View() == PoolMember(roundId, Zeros(), 0)
    {
      this.roundId := roundId;
      forall i | 0 <= i < deployed.Length {
        deployed[i] := 0;
      }
      totalDeployed := 0;
    }

    method RecordDeploy(square: nat, amount: uint64)
      requires Valid() && square < SQUARES
      modifies this`totalDeployed, deployed
      ensures View() == Join(old(View()), square, amount)
    {
      deployed[square] := SaturatingAdd(deployed[square], amount);
      totalDeployed := SaturatingAdd(totalDeployed, amount);
    }
  }

  class PoolRoundAccount {
    const id: uint64
    const deployed: array<uint64>
    const count: array<uint64>
    var totalDeployed: uint64

    constructor (id: uint64)
      ensures Valid() && fresh(deployed) && fresh(count) && View() == OpenPool(id)
    {
      this.id := id;
      deployed := new uint64[SQUARES](_ => 0);
      count := new uint64[SQUARES](_ => 0);
      totalDeployed := 0;
    }

    ghost predicate Valid() {
      deployed != count && deployed.Length == SQUARES && count.Length == SQUARES
    }

    ghost function View(): PoolRound
      requires Valid()
      reads this, deployed, count
    {
      PoolRound(id, deployed[..], count[..], totalDeployed)
    }

    method RecordDeploy(square: nat, amount: uint64, isNewMember: bool)
      requires Valid() && square < SQUARES
      modifies this`totalDeployed, deployed, count
      ensures View() == Gather(old(View()), square, amount, isNewMember)
    {
      deployed[square] := SaturatingAdd(deployed[square], amount);
      if isNewMember {
        count[square] := SaturatingAdd(count[square], 1);
      }
      totalDeployed := SaturatingAdd(totalDeployed, amount);
    }
  }
}
