/**
  The maintenance page: editing the PM kits, opening the registration form,
  adding used supplies and pictures to it, and saving a maintenance event, which
  checks the hour meter, the mandatory kit items and the stock before it updates
  the machine, appends the history entry and takes the supplies out of stock.
 */
module Maintenance {
  import opened Records
  import opened Constants
  import opened PmCycle
  import opened AppState
  import Arrays
  import Js

  // ---------------------------------------------------------------- permissions

  /** Who may register maintenance: the administrator and the instructor roles. */
  predicate CanRegister(role: string)
  {
    role == AdminRole || role == InstructorRole
  }

  /** Who may edit the PM kits: the administrator only. */
  predicate CanManageKits(role: string)
  {
    role == AdminRole
  }

  /** Of the seeded roles only the administrator may register or edit kits; the seeded operator role may not. */
  lemma SeedRolesPermissions()
    ensures CanRegister(SeedRoles[0]) && CanManageKits(SeedRoles[0])
    ensures !CanRegister(SeedRoles[1]) && !CanRegister(SeedRoles[2])
    ensures forall r :: CanManageKits(r) ==> CanRegister(r)
  {
  }

  // ---------------------------------------------------------------- PM kits

  /** The kit of a PM kind, empty when none was configured. */
  function KitFor(pmConfigs: map<PmType, seq<KitItem>>, t: PmType): (r: seq<KitItem>)
    ensures t in pmConfigs ==> r == pmConfigs[t]
    ensures t !in pmConfigs ==> r == []
  {
    if t in pmConfigs then pmConfigs[t] else []
  }

  /** A kit written for one PM kind is read back as written, and the other kinds' kits are untouched. */
  lemma KitForAfterStore(pmConfigs: map<PmType, seq<KitItem>>, t: PmType, kit: seq<KitItem>, u: PmType)
    ensures KitFor(pmConfigs[t := kit], t) == kit
    ensures u != t ==> KitFor(pmConfigs[t := kit], u) == KitFor(pmConfigs, u)
  {
  }

  /** The kit editor's form: the chosen supply (empty when none), quantity and mandatory flag. */
  datatype KitForm = KitForm(supplyId: string, qty: int, isMandatory: bool)

  /** The kit after adding the form's supply at its end; earlier items, duplicates included, stay. */
  function KitWithItem(kit: seq<KitItem>, supplies: map<string, Supply>, form: KitForm): (r: Result<seq<KitItem>>)
    ensures form.supplyId == "" ==> r == Err(NoSupplySelected)
    ensures form.supplyId != "" && form.supplyId !in supplies ==> r == Err(Ignored)
    ensures form.supplyId != "" && form.supplyId in supplies ==>
      r.Ok? && |r.value| == |kit| + 1 && r.value[..|kit|] == kit
      && r.value[|kit|] == KitItem(supplies[form.supplyId].id, supplies[form.supplyId].name, form.qty, form.isMandatory)
  {
    if form.supplyId == "" then Err(NoSupplySelected)
    else if form.supplyId !in supplies then Err(Ignored)
    else
      var supply := supplies[form.supplyId];
      Ok(kit + [KitItem(supply.id, supply.name, form.qty, form.isMandatory)])
  }

  /** Adding a supply that is already in the kit lists it twice: the kit is not de-duplicated. */
  lemma KitKeepsDuplicates(kit: seq<KitItem>, supplies: map<string, Supply>, form: KitForm, i: int)
    requires 0 <= i < |kit| && kit[i].supplyId == form.supplyId && form.supplyId != "" && form.supplyId in supplies
    requires supplies[form.supplyId].id == form.supplyId
    ensures KitWithItem(kit, supplies, form).Ok?
    ensures var k := KitWithItem(kit, supplies, form).value;
      k[i].supplyId == k[|k| - 1].supplyId && i != |k| - 1
  {
    var k := KitWithItem(kit, supplies, form).value;
    assert k[..|kit|] == kit;
    assert k[i] == kit[i];
  }

  /** Saving the kit editor's form: the kit of `pmType` gains the item, or nothing changes. */
  method HandleAddKitItem(s: Store, pmType: PmType, form: KitForm) returns (r: Outcome)
    requires s.Valid()
    modifies s
    ensures s.Valid()
    ensures unchanged(s`machines, s`supplies, s`maintenanceHistory, s`usageHistory, s`currentJob)
    ensures var k := KitWithItem(KitFor(old(s.pmConfigs), pmType), old(s.supplies), form);
      k.Err? ==> r == Rejected(k.error) && unchanged(s)
    ensures var k := KitWithItem(KitFor(old(s.pmConfigs), pmType), old(s.supplies), form);
      k.Ok? ==> r == Done && s.pmConfigs == old(s.pmConfigs)[pmType := k.value]
  {
    var k := KitWithItem(KitFor(s.pmConfigs, pmType), s.supplies, form);
    if k.Err? {
      return Rejected(k.error);
    }
    s.pmConfigs := s.pmConfigs[pmType := k.value];
    r := Done;
  }

  /** Removing the item at `index` from the kit of `pmType`; the others keep their order. */
  method RemoveKitItem(s: Store, pmType: PmType, index: int)
    requires s.Valid()
    modifies s
    ensures s.Valid()
    ensures s.pmConfigs == old(s.pmConfigs)[pmType := Arrays.RemoveAt(KitFor(old(s.pmConfigs), pmType), index)]
    ensures unchanged(s`machines, s`supplies, s`maintenanceHistory, s`usageHistory, s`currentJob)
  {
    s.pmConfigs := s.pmConfigs[pmType := Arrays.RemoveAt(KitFor(s.pmConfigs, pmType), index)];
  }

  // ---------------------------------------------------------------- the registration form

  /** The registration form: reading, fuel level, description, supplies used and pictures. */
  datatype MaintenanceForm = MaintenanceForm(
    hm: int,
    fuelLevel: int,
    desc: string,
    usedSupplies: seq<UsedSupply>,
    images: seq<Image>)

  /** A kit item as it is listed in the form. */
  function UsedFromKit(k: KitItem): UsedSupply
  {
    UsedSupply(k.supplyId, k.name, k.qty, k.isMandatory)
  }

  /**
    The form as opened on a machine: its reading, its fuel level (100 when it is 0),
    and for a scheduled PM the next PM kind as description and that kind's kit as
    the supplies used.
   */
  function OpenModalForm(m: Machine, kind: MaintenanceType, pmConfigs: map<PmType, seq<KitItem>>): (f: MaintenanceForm)
    ensures f.hm == m.currentHm && f.images == []
    ensures f.fuelLevel == if m.fuelLevel == 0 then 100 else m.fuelLevel
    ensures kind == NoProgramado ==> f.desc == "" && f.usedSupplies == []
    ensures kind == Programado ==> f.desc == m.nextPmType.Name()
    ensures kind == Programado ==> |f.usedSupplies| == |KitFor(pmConfigs, m.nextPmType)|
    ensures kind == Programado ==>
      forall i :: 0 <= i < |f.usedSupplies| ==> f.usedSupplies[i] == UsedFromKit(KitFor(pmConfigs, m.nextPmType)[i])
  {
    var kit := KitFor(pmConfigs, m.nextPmType);
    var used := if kind == Programado then seq(|kit|, i requires 0 <= i < |kit| => UsedFromKit(kit[i])) else [];
    MaintenanceForm(m.currentHm, Js.Or(m.fuelLevel, 100), if kind == Programado then m.nextPmType.Name() else "", used, [])
  }

  /** Some line of `used` is for supply `id`. */
  predicate Listed(used: seq<UsedSupply>, id: string)
  {
    exists i :: 0 <= i < |used| && used[i].id == id
  }

  /** No supply is listed twice. */
  predicate DistinctIds(used: seq<UsedSupply>)
  {
    forall i, j :: 0 <= i < j < |used| ==> used[i].id != used[j].id
  }

  /**
    Adding a supply to the form: nothing happens without a selection or for a
    supply not in inventory; a supply already listed, or a quantity above the
    stock, is refused; otherwise one optional line is appended.
   */
  function AddSupplyToUsage(used: seq<UsedSupply>, supplies: map<string, Supply>, supplyId: string, qty: int): (r: Result<seq<UsedSupply>>)
    ensures r.Ok? <==> supplyId != "" && supplyId in supplies && !Listed(used, supplyId) && qty <= supplies[supplyId].stock
    ensures (supplyId == "" || supplyId !in supplies) ==> r == Err(Ignored)
    ensures supplyId != "" && supplyId in supplies && Listed(used, supplyId) ==> r == Err(AlreadyListed)
    ensures supplyId != "" && supplyId in supplies && !Listed(used, supplyId) && qty > supplies[supplyId].stock ==>
      r == Err(InsufficientStock(supplies[supplyId].name, supplies[supplyId].stock))
    ensures r.Ok? ==> |r.value| == |used| + 1 && r.value[..|used|] == used
    ensures r.Ok? ==> r.value[|used|] == UsedSupply(supplies[supplyId].id, supplies[supplyId].name, qty, false)
  {
    if supplyId == "" || supplyId !in supplies then Err(Ignored)
    else
      var supply := supplies[supplyId];
      if Listed(used, supplyId) then Err(AlreadyListed)
      else if qty > supply.stock then Err(InsufficientStock(supply.name, supply.stock))
      else Ok(used + [UsedSupply(supply.id, supply.name, qty, false)])
  }

  /** Supplies added one at a time never end up listed twice. */
  lemma AddSupplyKeepsIdsDistinct(used: seq<UsedSupply>, supplies: map<string, Supply>, supplyId: string, qty: int)
    requires DistinctIds(used) && SuppliesWellFormed(supplies)
    requires AddSupplyToUsage(used, supplies, supplyId, qty).Ok?
    ensures DistinctIds(AddSupplyToUsage(used, supplies, supplyId, qty).value)
  {
    var r := AddSupplyToUsage(used, supplies, supplyId, qty).value;
    forall i, j | 0 <= i < j < |r|
      ensures r[i].id != r[j].id
    {
      if j == |used| {
        assert r[i] == used[i];
        assert r[j].id == supplyId;
        assert !Listed(used, supplyId);
      } else {
        assert r[i] == used[i] && r[j] == used[j];
      }
    }
  }

  const MaxImages: int := 3

  /** Attaching pictures: refused when the form would hold more than three, otherwise all are appended. */
  function AddImages(images: seq<Image>, files: seq<Image>): (r: Result<seq<Image>>)
    ensures r.Err? <==> |files| + |images| > MaxImages
    ensures r.Err? ==> r.error == TooManyImages
    ensures r.Ok? ==> r.value == images + files && |r.value| <= MaxImages
  {
    if |files| + |images| > MaxImages then Err(TooManyImages) else Ok(images + files)
  }

  /** Removing the picture at `index`. */
  function RemoveImage(images: seq<Image>, index: int): (r: seq<Image>)
    ensures |r| <= |images|
    ensures !(0 <= index < |images|) ==> r == images
    ensures 0 <= index < |images| ==> |r| == |images| - 1
    ensures 0 <= index < |images| ==> forall j :: 0 <= j < |r| ==> r[j] == (if j < index then images[j] else images[j + 1])
    ensures forall x :: x in r ==> x in images
  {
    Arrays.RemoveAt(images, index)
  }

  // ---------------------------------------------------------------- saving

  /**
    The first mandatory kit item, in kit order, whose supply is not listed in the
    form; none when every mandatory item is listed.
   */
  function FirstMissingMandatory(kit: seq<KitItem>, used: seq<UsedSupply>): (r: Option<int>)
    ensures r.None? <==> forall i :: 0 <= i < |kit| && kit[i].isMandatory ==> Listed(used, kit[i].supplyId)
    ensures r.Some? ==> 0 <= r.value < |kit| && kit[r.value].isMandatory && !Listed(used, kit[r.value].supplyId)
    ensures r.Some? ==> forall i :: 0 <= i < r.value && kit[i].isMandatory ==> Listed(used, kit[i].supplyId)
  {
    if kit == [] then None
    else if kit[0].isMandatory && !Listed(used, kit[0].supplyId) then Some(0)
    else match FirstMissingMandatory(kit[1..], used)
      case None => None
      case Some(k) => Some(k + 1)
  }

  /** The scan over the kit, stopping at the first mandatory item missing from the form. */
  method CheckMandatoryKit(kit: seq<KitItem>, used: seq<UsedSupply>) returns (missing: Option<int>)
    ensures missing == FirstMissingMandatory(kit, used)
  {
    var i := 0;
    while i < |kit|
      invariant 0 <= i <= |kit|
      invariant forall j :: 0 <= j < i && kit[j].isMandatory ==> Listed(used, kit[j].supplyId)
    {
      var item := kit[i];
      if item.isMandatory {
        var inList := FindUsed(used, item.supplyId);
        if inList.None? {
          return Some(i);
        }
      }
      i := i + 1;
    }
    return None;
  }

  /** The search for the first line listing supply `id`. */
  method FindUsed(used: seq<UsedSupply>, id: string) returns (r: Option<int>)
    ensures r.None? <==> !Listed(used, id)
    ensures r.Some? ==> 0 <= r.value < |used| && used[r.value].id == id
    ensures r.Some? ==> forall j :: 0 <= j < r.value ==> used[j].id != id
  {
    var i := 0;
    while i < |used|
      invariant 0 <= i <= |used|
      invariant forall j :: 0 <= j < i ==> used[j].id != id
    {
      if used[i].id == id {
        return Some(i);
      }
      i := i + 1;
    }
    return None;
  }

  /** A used line passes the stock check: its supply is in inventory with at least the quantity used. */
  predicate StockOk(supplies: map<string, Supply>, u: UsedSupply)
  {
    u.id in supplies && supplies[u.id].stock >= u.qty
  }

  /** Why a line fails the stock check. */
  function StockError(supplies: map<string, Supply>, u: UsedSupply): Error
  {
    if u.id !in supplies then SupplyNotInInventory(u.name) else InsufficientStock(u.name, supplies[u.id].stock)
  }

  /** The first line of the form, in order, that fails the stock check. */
  function FirstStockProblem(supplies: map<string, Supply>, used: seq<UsedSupply>): (r: Option<int>)
    ensures r.None? <==> forall i :: 0 <= i < |used| ==> StockOk(supplies, used[i])
    ensures r.Some? ==> 0 <= r.value < |used| && !StockOk(supplies, used[r.value])
    ensures r.Some? ==> forall i :: 0 <= i < r.value ==> StockOk(supplies, used[i])
  {
    if used == [] then None
    else if !StockOk(supplies, used[0]) then Some(0)
    else match FirstStockProblem(supplies, used[1..])
      case None => None
      case Some(k) => Some(k + 1)
  }

  /** The scan over the used lines, stopping at the first one missing from inventory or short of stock. */
  method CheckStock(supplies: map<string, Supply>, used: seq<UsedSupply>) returns (problem: Option<Error>)
    ensures problem.None? <==> FirstStockProblem(supplies, used).None?
    ensures problem.Some? ==> problem.value == StockError(supplies, used[FirstStockProblem(supplies, used).value])
  {
    var i := 0;
    while i < |used|
      invariant 0 <= i <= |used|
      invariant forall j :: 0 <= j < i ==> StockOk(supplies, used[j])
    {
      var item := used[i];
      if item.id !in supplies {
        return Some(SupplyNotInInventory(item.name));
      }
      var currentSupply := supplies[item.id];
      if currentSupply.stock < item.qty {
        return Some(InsufficientStock(item.name, currentSupply.stock));
      }
      i := i + 1;
    }
    return None;
  }

  /**
    The checks made before anything is written, in their order: the reading may
    not go back, a scheduled PM must list every mandatory kit item, and every
    listed supply must be in inventory with enough stock.
   */
  function ValidateSave(m: Machine, kind: MaintenanceType, form: MaintenanceForm,
                        pmConfigs: map<PmType, seq<KitItem>>, supplies: map<string, Supply>): (r: Option<Error>)
    ensures r.None? <==>
      form.hm >= m.currentHm
      && (kind == Programado ==> forall k :: k in KitFor(pmConfigs, m.nextPmType) && k.isMandatory ==> Listed(form.usedSupplies, k.supplyId))
      && forall u :: u in form.usedSupplies ==> StockOk(supplies, u)
    ensures form.hm < m.currentHm ==> r == Some(HourMeterBackwards)
    ensures kind == NoProgramado && r.Some? ==> !r.value.MissingMandatorySupply?
    ensures form.hm >= m.currentHm && kind == Programado && FirstMissingMandatory(KitFor(pmConfigs, m.nextPmType), form.usedSupplies).Some? ==>
      r == Some(MissingMandatorySupply(KitFor(pmConfigs, m.nextPmType)[FirstMissingMandatory(KitFor(pmConfigs, m.nextPmType), form.usedSupplies).value].name))
    ensures (form.hm >= m.currentHm
             && (kind == NoProgramado || FirstMissingMandatory(KitFor(pmConfigs, m.nextPmType), form.usedSupplies).None?)
             && FirstStockProblem(supplies, form.usedSupplies).Some?) ==>
      r == Some(StockError(supplies, form.usedSupplies[FirstStockProblem(supplies, form.usedSupplies).value]))
  {
    var kit := KitFor(pmConfigs, m.nextPmType);
    if form.hm < m.currentHm then Some(HourMeterBackwards)
    else if kind == Programado && FirstMissingMandatory(kit, form.usedSupplies).Some? then
      Some(MissingMandatorySupply(kit[FirstMissingMandatory(kit, form.usedSupplies).value].name))
    else match FirstStockProblem(supplies, form.usedSupplies)
      case None => None
      case Some(k) => Some(StockError(supplies, form.usedSupplies[k]))
  }

  /** The stored cycle index the next step is computed from: a missing index counts as 0. */
  function CurrentSeqIdx(m: Machine): (i: int)
    requires CycleConsistent(m)
    ensures 0 <= i < |PmSequence|
    ensures m.seqIndex.None? ==> i == 0
    ensures m.seqIndex.Some? ==> i == m.seqIndex.value
  {
    match m.seqIndex
    case None => 0
    case Some(v) => Js.Or(v, 0)
  }

  /**
    The machine after a maintenance event at reading `hmDone`: both the reading and
    the last-PM reading become `hmDone` and the fuel level is replaced; a scheduled
    PM also moves the cycle on one step and records the PM kind just done.
   */
  function RegisteredMachine(m: Machine, kind: MaintenanceType, hmDone: int, fuel: int): (r: Machine)
    requires CycleConsistent(m)
    ensures r.id == m.id && r.name == m.name && r.model == m.model && r.plate == m.plate && r.isInUse == m.isInUse
    ensures r.currentHm == hmDone && r.lastPmHm == hmDone && r.fuelLevel == fuel
    ensures kind == NoProgramado ==>
      r.nextPmType == m.nextPmType && r.nextPmDueHm == m.nextPmDueHm && r.seqIndex == m.seqIndex && r.lastPmType == m.lastPmType
    ensures kind == Programado ==>
      r.seqIndex == Some(NextPmStep(hmDone, CurrentSeqIdx(m)).nextSequenceIndex)
      && r.nextPmType == PmSequence[r.seqIndex.value]
      && r.nextPmDueHm == hmDone + StepHours
      && r.lastPmType == Performed(m.nextPmType)
    ensures CycleConsistent(r)
  {
    var updateData := m.(currentHm := hmDone, lastPmHm := hmDone, fuelLevel := fuel);
    if kind == Programado then
      var nextStep := NextPmStep(hmDone, CurrentSeqIdx(m));
      updateData.(nextPmType := nextStep.nextPmType, nextPmDueHm := nextStep.nextPmDueHm,
                  seqIndex := Some(nextStep.nextSequenceIndex), lastPmType := Performed(m.nextPmType))
    else updateData
  }

  /** The history entry of a maintenance event. */
  function RecordFor(m: Machine, kind: MaintenanceType, form: MaintenanceForm): (r: MaintenanceRecord)
    ensures r.machineId == m.id && r.kind == kind && r.hmDoneAt == form.hm
    ensures r.suppliesUsed == form.usedSupplies && r.images == form.images
    ensures r.machineName == m.name && r.description == form.desc && r.fuelLevel == form.fuelLevel
  {
    MaintenanceRecord(m.id, m.name, kind, form.desc, form.hm, form.fuelLevel, form.usedSupplies, form.images)
  }

  /** `Math.max(0, x)`. */
  function Max0(x: int): (r: int)
    ensures r >= 0 && r >= x && (r == 0 || r == x)
  {
    if x > 0 then x else 0
  }

  /**
    The supplies after the stock writes of a save. Each listed line writes
    `max(0, stock - qty)` computed from the stock before the save, so when a supply
    is listed twice the later write replaces the earlier one.
   */
  function Decremented(snapshot: map<string, Supply>, used: seq<UsedSupply>): (r: map<string, Supply>)
    ensures r.Keys == snapshot.Keys
    decreases |used|
  {
    if used == [] then snapshot
    else
      var prev := Decremented(snapshot, used[..|used| - 1]);
      var item := used[|used| - 1];
      if item.id in snapshot then
        var currentSupply := snapshot[item.id];
        prev[item.id := currentSupply.(stock := Max0(currentSupply.stock - item.qty))]
      else prev
  }

  /** The quantity of the last line listing supply `id`, if any. */
  function LastQty(used: seq<UsedSupply>, id: string): (r: Option<int>)
    ensures r.Some? <==> Listed(used, id)
    decreases |used|
  {
    if used == [] then None
    else if used[|used| - 1].id == id then Some(used[|used| - 1].qty)
    else
      var r := LastQty(used[..|used| - 1], id);
      assert Listed(used, id) ==> Listed(used[..|used| - 1], id) by {
        if Listed(used, id) {
          var i :| 0 <= i < |used| && used[i].id == id;
          assert i < |used| - 1;
          assert used[..|used| - 1][i] == used[i];
        }
      }
      assert Listed(used[..|used| - 1], id) ==> Listed(used, id) by {
        if Listed(used[..|used| - 1], id) {
          var i :| 0 <= i < |used| - 1 && used[..|used| - 1][i].id == id;
          assert used[i].id == id;
        }
      }
      r
  }

  /**
    The stock of every supply after the save: `max(0, stock - qty)` for the last
    line listing it, computed from the stock before the save; an unlisted supply
    keeps its record.
   */
  lemma {:induction false} DecrementedStock(snapshot: map<string, Supply>, used: seq<UsedSupply>, id: string)
    requires id in snapshot
    ensures LastQty(used, id).None? ==> Decremented(snapshot, used)[id] == snapshot[id]
    ensures LastQty(used, id).Some? ==>
      Decremented(snapshot, used)[id] == snapshot[id].(stock := Max0(snapshot[id].stock - LastQty(used, id).value))
    decreases |used|
  {
    if used != [] {
      DecrementedStock(snapshot, used[..|used| - 1], id);
    }
  }

  /** With no supply listed twice, the last line for a supply is its only line. */
  lemma {:induction false} LastQtyDistinct(used: seq<UsedSupply>, k: int)
    requires DistinctIds(used) && 0 <= k < |used|
    ensures LastQty(used, used[k].id) == Some(used[k].qty)
    decreases |used|
  {
    if k < |used| - 1 {
      var front := used[..|used| - 1];
      assert front[k] == used[k];
      LastQtyDistinct(front, k);
    }
  }

  /** Stock never goes negative, and every supply stays filed under its id. */
  lemma DecrementedWellFormed(snapshot: map<string, Supply>, used: seq<UsedSupply>)
    requires SuppliesWellFormed(snapshot)
    ensures SuppliesWellFormed(Decremented(snapshot, used))
  {
    forall id | id in Decremented(snapshot, used)
      ensures Decremented(snapshot, used)[id].id == id && Decremented(snapshot, used)[id].stock >= 0
    {
      DecrementedStock(snapshot, used, id);
    }
  }

  /**
    A kit that lists the same supply twice passes the stock check line by line, and
    only the last line's quantity is taken out of stock: 6 units, two lines of 5,
    leave 1.
   */
  lemma DuplicateLineDeductsOnce()
    ensures var snapshot := map["S1" := Supply("S1", "Filtro", 6, "Unidades")];
      var used := [UsedSupply("S1", "Filtro", 5, true), UsedSupply("S1", "Filtro", 5, true)];
      FirstStockProblem(snapshot, used).None? && Decremented(snapshot, used)["S1"].stock == 1
  {
    var snapshot := map["S1" := Supply("S1", "Filtro", 6, "Unidades")];
    var used := [UsedSupply("S1", "Filtro", 5, true), UsedSupply("S1", "Filtro", 5, true)];
    assert used[..1] == [used[0]];
    assert used[..1][..0] == [];
    assert StockOk(snapshot, used[0]) && StockOk(snapshot, used[1]);
  }

  /** The stock writes of the batch, one per listed line, each computed from `snapshot`. */
  method StockWrites(snapshot: map<string, Supply>, used: seq<UsedSupply>) returns (stock: map<string, Supply>)
    ensures stock == Decremented(snapshot, used)
  {
    stock := snapshot;
    var i := 0;
    while i < |used|
      invariant 0 <= i <= |used|
      invariant stock == Decremented(snapshot, used[..i])
    {
      var item := used[i];
      assert used[..i + 1][..i] == used[..i];
      if item.id in snapshot {
        var currentSupply := snapshot[item.id];
        stock := stock[item.id := currentSupply.(stock := Max0(currentSupply.stock - item.qty))];
      }
      i := i + 1;
    }
    assert used[..i] == used;
  }

  /**
    Saving the registration form for machine `machineId`. All checks come first and
    a failed check writes nothing; otherwise the machine, the history and the stock
    of the listed supplies are updated together.
   */
  method HandleSave(s: Store, machineId: string, kind: MaintenanceType, form: MaintenanceForm) returns (r: Outcome)
    requires s.Valid() && machineId in s.machines
    modifies s
    ensures s.Valid()
    ensures unchanged(s`usageHistory, s`pmConfigs, s`currentJob)
    ensures ValidateSave(old(s.machines[machineId]), kind, form, old(s.pmConfigs), old(s.supplies)).Some? ==>
      r == Rejected(ValidateSave(old(s.machines[machineId]), kind, form, old(s.pmConfigs), old(s.supplies)).value)
      && unchanged(s)
    ensures ValidateSave(old(s.machines[machineId]), kind, form, old(s.pmConfigs), old(s.supplies)).None? ==>
      r == Done
      && s.machines == old(s.machines)[machineId := RegisteredMachine(old(s.machines[machineId]), kind, form.hm, form.fuelLevel)]
      && s.maintenanceHistory == old(s.maintenanceHistory) + [RecordFor(old(s.machines[machineId]), kind, form)]
      && s.supplies == Decremented(old(s.supplies), form.usedSupplies)
  {
    var m := s.machines[machineId];
    if form.hm < m.currentHm {
      return Rejected(HourMeterBackwards);
    }
    if kind == Programado {
      var kitItems := KitFor(s.pmConfigs, m.nextPmType);
      var missing := CheckMandatoryKit(kitItems, form.usedSupplies);
      if missing.Some? {
        return Rejected(MissingMandatorySupply(kitItems[missing.value].name));
      }
    }
    var problem := CheckStock(s.supplies, form.usedSupplies);
    if problem.Some? {
      return Rejected(problem.value);
    }
    // The batch: one machine update, one history entry, one stock write per line.
    var updated := RegisteredMachine(m, kind, form.hm, form.fuelLevel);
    var stock := StockWrites(s.supplies, form.usedSupplies);
    DecrementedWellFormed(s.supplies, form.usedSupplies);
    s.machines := s.machines[machineId := updated];
    s.maintenanceHistory := s.maintenanceHistory + [RecordFor(m, kind, form)];
    s.supplies := stock;
    r := Done;
  }

  /**
    The form as opened for a scheduled PM lists every kit item, so it can only fail
    on stock: it passes every check exactly when each kit line is in inventory with
    enough stock.
   */
  lemma PrefillPassesKitCheck(m: Machine, pmConfigs: map<PmType, seq<KitItem>>, supplies: map<string, Supply>)
    ensures var form := OpenModalForm(m, Programado, pmConfigs);
      FirstMissingMandatory(KitFor(pmConfigs, m.nextPmType), form.usedSupplies).None?
      && (ValidateSave(m, Programado, form, pmConfigs, supplies).None? <==>
          forall u :: u in form.usedSupplies ==> StockOk(supplies, u))
  {
    var kit := KitFor(pmConfigs, m.nextPmType);
    var form := OpenModalForm(m, Programado, pmConfigs);
    forall i | 0 <= i < |kit| && kit[i].isMandatory
      ensures Listed(form.usedSupplies, kit[i].supplyId)
    {
      assert form.usedSupplies[i].id == kit[i].supplyId;
    }
  }

  // ---------------------------------------------------------------- history view

  /** Which entries a history tab shows: "Programado" the scheduled ones, "Correctivo" the corrective ones, any other tab all. */
  predicate ShowsInHistory(filter: string, rec: MaintenanceRecord)
  {
    if filter == "Programado" then rec.kind == Programado
    else if filter == "Correctivo" then rec.kind == NoProgramado
    else true
  }

  function FilteredHistory(history: seq<MaintenanceRecord>, filter: string): (r: seq<MaintenanceRecord>)
    ensures forall x :: x in r <==> x in history && ShowsInHistory(filter, x)
    ensures filter != "Programado" && filter != "Correctivo" ==> r == history
  {
    if filter != "Programado" && filter != "Correctivo" then
      Arrays.FilterKeepsAll(history, x => ShowsInHistory(filter, x));
      Arrays.Filter(history, x => ShowsInHistory(filter, x))
    else Arrays.Filter(history, x => ShowsInHistory(filter, x))
  }

  /** Every entry is on exactly one of the scheduled and corrective tabs. */
  lemma HistoryTabsPartition(history: seq<MaintenanceRecord>)
    ensures |FilteredHistory(history, "Programado")| + |FilteredHistory(history, "Correctivo")| == |history|
  {
    Arrays.FilterComplementCount(history, x => ShowsInHistory("Programado", x), x => ShowsInHistory("Correctivo", x));
  }
}
