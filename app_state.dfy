/**
  The fleet store the pages read and write: machines and supplies keyed by
  document id, the maintenance and usage histories, the PM kit of each PM kind,
  and the operation job the operator has open.
 */
module AppState {
  import opened Records
  import opened Constants
  import opened PmCycle

  /** Every machine is filed under its own id and keeps its cycle fields in agreement. */
  predicate MachinesWellFormed(machines: map<string, Machine>)
  {
    forall id :: id in machines ==> machines[id].id == id && CycleConsistent(machines[id])
  }

  /** Every supply is filed under its own id and has a stock that is not negative. */
  predicate SuppliesWellFormed(supplies: map<string, Supply>)
  {
    forall id :: id in supplies ==> supplies[id].id == id && supplies[id].stock >= 0
  }

  /** An open job belongs to a machine that is marked in use. */
  predicate JobConsistent(machines: map<string, Machine>, currentJob: Option<Job>)
  {
    currentJob.Some? ==> currentJob.value.machineId in machines && machines[currentJob.value.machineId].isInUse
  }

  /** The seed machines, each filed under its id. */
  function SeedMachineMap(): (r: map<string, Machine>)
    ensures MachinesWellFormed(r)
    ensures r.Keys == {SeedMachine1.id, SeedMachine2.id}
  {
    SeedMachinesConsistent();
    map[SeedMachine1.id := SeedMachine1, SeedMachine2.id := SeedMachine2]
  }

  /** The seed supplies, each filed under its id. */
  function SeedSupplyMap(): (r: map<string, Supply>)
    ensures SuppliesWellFormed(r)
    ensures r.Keys == {SeedSupply1.id, SeedSupply2.id}
  {
    map[SeedSupply1.id := SeedSupply1, SeedSupply2.id := SeedSupply2]
  }

  class Store {
    var machines: map<string, Machine>
    var supplies: map<string, Supply>
    var maintenanceHistory: seq<MaintenanceRecord>
    var usageHistory: seq<UsageRecord>
    var pmConfigs: map<PmType, seq<KitItem>>
    var currentJob: Option<Job>

    predicate Valid()
      reads this
    {
      MachinesWellFormed(machines) && SuppliesWellFormed(supplies) && JobConsistent(machines, currentJob)
    }

    /** A store filled with the seed machines and supplies, no history, no kits and no open job. */
    constructor Seeded()
      ensures Valid()
      ensures machines == SeedMachineMap() && supplies == SeedSupplyMap()
      ensures maintenanceHistory == [] && usageHistory == [] && pmConfigs == map[] && currentJob == None
    {
      machines := SeedMachineMap();
      supplies := SeedSupplyMap();
      maintenanceHistory := [];
      usageHistory := [];
      pmConfigs := map[];
      currentJob := None;
    }
  }
}
