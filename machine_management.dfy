/**
  The fleet page: the machine editor (its form as opened, the cycle step proposed
  from the reading, and saving a new or edited machine) and refuelling.
 */
module MachineManagement {
  import opened Records
  import opened Constants
  import opened PmCycle
  import opened AppState

  /** Editing and deleting machines is for the administrator only. */
  predicate CanEdit(role: string)
  {
    role == AdminRole
  }

  /** Creating machines is for the administrator and the instructor roles. */
  predicate CanCreate(role: string)
  {
    role == AdminRole || role == InstructorRole
  }

  /** Refuelling is for the administrator and the instructor roles. */
  predicate CanRefuel(role: string)
  {
    role == AdminRole || role == InstructorRole
  }

  /** Whoever may edit may also create and refuel; the seeded operator role may do none of these. */
  lemma PermissionsNested(role: string)
    ensures CanEdit(role) ==> CanCreate(role) && CanRefuel(role)
    ensures CanCreate(role) <==> CanRefuel(role)
    ensures forall k :: 1 <= k <= 2 ==> !CanCreate(SeedRoles[k]) && !CanEdit(SeedRoles[k])
  {
  }

  /**
    The editor's form. `hm` is the hour-meter field as a number, `None` when it does
    not parse; `seqIndex` is the cycle step the machine will be saved with.
   */
  datatype MachineForm = MachineForm(
    name: string,
    model: string,
    plate: string,
    hm: Option<int>,
    seqIndex: int,
    fuelLevel: int)

  /**
    The form as opened: on an existing machine, its fields, its stored step or,
    when it has none, the step recommended for its reading, and its fuel level
    (100 when it is 0); for a new machine, empty fields at step 0 with a full tank.
   */
  function OpenForm(machine: Option<Machine>): (f: MachineForm)
    requires machine.Some? ==> CycleConsistent(machine.value)
    ensures 0 <= f.seqIndex < |PmSequence|
    ensures machine.None? ==> f == MachineForm("", "", "", None, 0, 100)
    ensures machine.Some? ==>
      f.hm == Some(machine.value.currentHm) && f.name == machine.value.name
      && f.model == machine.value.model && f.plate == machine.value.plate
    ensures machine.Some? && machine.value.seqIndex.Some? ==> f.seqIndex == machine.value.seqIndex.value
    ensures machine.Some? && machine.value.seqIndex.None? ==> f.seqIndex == RecommendedIndex(machine.value.currentHm)
    ensures machine.Some? ==> f.fuelLevel == if machine.value.fuelLevel == 0 then 100 else machine.value.fuelLevel
  {
    match machine
    case None => MachineForm("", "", "", None, 0, 100)
    case Some(m) =>
      var seqIdx := if m.seqIndex.Some? then m.seqIndex.value else RecommendedIndex(m.currentHm);
      MachineForm(m.name, m.model, m.plate, Some(m.currentHm), seqIdx, if m.fuelLevel != 0 then m.fuelLevel else 100)
  }

  /**
    A new reading typed in the form. For a new machine the step is re-proposed
    from the reading (0 when it does not parse or is 0); when editing only the
    reading changes.
   */
  function HmChanged(f: MachineForm, editing: bool, val: Option<int>): (r: MachineForm)
    ensures r.hm == val
    ensures editing ==> r == f.(hm := val)
    ensures !editing ==> r == f.(hm := val, seqIndex := RecommendedIndex(if val.Some? then val.value else 0))
    ensures 0 <= f.seqIndex < |PmSequence| ==> 0 <= r.seqIndex < |PmSequence|
  {
    var hm := if val.Some? then val.value else 0;
    if !editing then f.(hm := val, seqIndex := RecommendedIndex(hm))
    else f.(hm := val)
  }

  /** The form keeps a cycle step in range whatever is typed: opening and typing only ever propose steps 0 to 7. */
  lemma {:induction false} FormStepInRange(machine: Option<Machine>, editing: bool, typed: seq<Option<int>>)
    requires machine.Some? ==> CycleConsistent(machine.value)
    ensures 0 <= TypeAll(OpenForm(machine), editing, typed).seqIndex < |PmSequence|
    decreases |typed|
  {
    if typed != [] {
      FormStepInRange(machine, editing, typed[..|typed| - 1]);
    }
  }

  /** The form after a series of readings typed one after the other. */
  function TypeAll(f: MachineForm, editing: bool, typed: seq<Option<int>>): MachineForm
    decreases |typed|
  {
    if typed == [] then f else HmChanged(TypeAll(f, editing, typed[..|typed| - 1]), editing, typed[|typed| - 1])
  }

  /** The fields a save writes on the machine: the form's fields, the step, its PM type and a due reading 250 h on. */
  function Saved(m: Machine, f: MachineForm, hm: int): (r: Machine)
    requires 0 <= f.seqIndex < |PmSequence|
    ensures r.id == m.id && r.isInUse == m.isInUse && r.lastPmType == m.lastPmType && r.lastPmHm == m.lastPmHm
    ensures r.name == f.name && r.model == f.model && r.plate == f.plate && r.fuelLevel == f.fuelLevel
    ensures r.currentHm == hm && r.seqIndex == Some(f.seqIndex)
    ensures r.nextPmType == PmSequence[f.seqIndex] && r.nextPmDueHm == hm + StepHours
    ensures CycleConsistent(r)
  {
    m.(name := f.name, model := f.model, plate := f.plate, currentHm := hm, fuelLevel := f.fuelLevel,
       seqIndex := Some(f.seqIndex), nextPmType := PmSequence[f.seqIndex], nextPmDueHm := hm + StepHours)
  }

  /** A new machine: the saved fields, not in use, no PM done yet. */
  function NewMachine(id: string, f: MachineForm, hm: int): (r: Machine)
    requires 0 <= f.seqIndex < |PmSequence|
    ensures r.id == id && !r.isInUse && r.lastPmType == Nuevo && r.lastPmHm == 0
    ensures r.currentHm == hm && r.nextPmType == PmSequence[f.seqIndex] && r.nextPmDueHm == hm + StepHours
    ensures r.seqIndex == Some(f.seqIndex) && r.name == f.name && r.model == f.model && r.plate == f.plate && r.fuelLevel == f.fuelLevel
    ensures CycleConsistent(r)
  {
    Saved(Machine(id, "", "", "", 0, 0, PM1, 0, Nuevo, 0, false, None), f, hm)
  }

  /**
    Saving the editor: a reading that does not parse or is negative is refused;
    otherwise the edited machine is updated with the form, or a new machine is
    added under `newId`. Editing a machine that is no longer stored fails.
   */
  method HandleSave(s: Store, editing: Option<string>, f: MachineForm, newId: string) returns (r: Outcome)
    requires s.Valid() && 0 <= f.seqIndex < |PmSequence|
    requires editing.None? ==> newId !in s.machines
    modifies s
    ensures s.Valid()
    ensures unchanged(s`supplies, s`maintenanceHistory, s`usageHistory, s`pmConfigs, s`currentJob)
    ensures f.hm.None? || f.hm.value < 0 ==> r == Rejected(InvalidHourMeter) && unchanged(s)
    ensures f.hm.Some? && f.hm.value >= 0 && editing.Some? && editing.value !in old(s.machines) ==>
      r == Rejected(WriteFailed) && unchanged(s)
    ensures f.hm.Some? && f.hm.value >= 0 && editing.Some? && editing.value in old(s.machines) ==>
      r == Done && s.machines == old(s.machines)[editing.value := Saved(old(s.machines[editing.value]), f, f.hm.value)]
    ensures f.hm.Some? && f.hm.value >= 0 && editing.None? ==>
      r == Done && s.machines == old(s.machines)[newId := NewMachine(newId, f, f.hm.value)]
  {
    if f.hm.None? || f.hm.value < 0 {
      return Rejected(InvalidHourMeter);
    }
    var hmInt := f.hm.value;
    match editing
    case Some(id) =>
      if id !in s.machines {
        return Rejected(WriteFailed);
      }
      s.machines := s.machines[id := Saved(s.machines[id], f, hmInt)];
      r := Done;
    case None =>
      s.machines := s.machines[newId := NewMachine(newId, f, hmInt)];
      r := Done;
  }

  /**
    Refuelling the selected machine: nothing happens without a selection, a level
    not above the current one is refused, otherwise only the fuel level changes.
   */
  method HandleRefuel(s: Store, selected: Option<string>, newLevel: int) returns (r: Outcome)
    requires s.Valid()
    requires selected.Some? ==> selected.value in s.machines
    modifies s
    ensures s.Valid()
    ensures unchanged(s`supplies, s`maintenanceHistory, s`usageHistory, s`pmConfigs, s`currentJob)
    ensures selected.None? ==> r == Rejected(Ignored) && unchanged(s)
    ensures selected.Some? && newLevel <= old(s.machines[selected.value]).fuelLevel ==>
      r == Rejected(FuelNotIncreased) && unchanged(s)
    ensures selected.Some? && newLevel > old(s.machines[selected.value]).fuelLevel ==>
      r == Done && s.machines == old(s.machines)[selected.value := old(s.machines[selected.value]).(fuelLevel := newLevel)]
  {
    if selected.None? {
      return Rejected(Ignored);
    }
    var m := s.machines[selected.value];
    if newLevel <= m.fuelLevel {
      return Rejected(FuelNotIncreased);
    }
    s.machines := s.machines[selected.value := m.(fuelLevel := newLevel)];
    r := Done;
  }
}
