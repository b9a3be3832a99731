/**
  The operation page: starting a job on a machine (one open job at a time, and not
  on a machine blocked by an overdue PM), ending it with the final reading and fuel
  level, and the list of machines free to operate.
 */
module MachineUsage {
  import opened Records
  import opened Constants
  import opened PmCycle
  import opened Bands
  import opened AppState
  import Arrays
  import Js

  /** Who may operate machines: the administrator and the instructor roles. */
  predicate CanOperate(role: string)
  {
    role == AdminRole || role == InstructorRole
  }

  /** The checks before a job starts, in their order: the role, an open job, the PM block. */
  function StartJobCheck(role: string, currentJob: Option<Job>, m: Machine): (r: Option<Error>)
    ensures !CanOperate(role) ==> r == Some(NoPermission)
    ensures CanOperate(role) && currentJob.Some? ==> r == Some(JobAlreadyActive)
    ensures CanOperate(role) && currentJob.None? && m.currentHm > m.nextPmDueHm + BlockThreshold ==> r == Some(BlockedOverdue)
    ensures r.None? <==> CanOperate(role) && currentJob.None? && m.currentHm <= m.nextPmDueHm + 15
  {
    if !CanOperate(role) then Some(NoPermission)
    else if currentJob.Some? then Some(JobAlreadyActive)
    else if IsBlocked(m.currentHm, m.nextPmDueHm) then Some(BlockedOverdue)
    else None
  }

  /** The job opened on `m`: its reading and fuel level at the start (100 when the level is 0). */
  function JobFor(m: Machine, operator: string, now: int): (j: Job)
    ensures j.machineId == m.id && j.machineName == m.name && j.startHm == m.currentHm
    ensures j.startTime == now && j.operator == operator
    ensures j.startFuel == if m.fuelLevel == 0 then 100 else m.fuelLevel
  {
    Job(m.id, m.name, m.currentHm, now, operator, Js.Or(m.fuelLevel, 100))
  }

  /**
    Starting a job on machine `machineId` at time `now`: after the checks pass, the
    machine is marked in use and the job becomes the open job; nothing else changes.
   */
  method StartJob(s: Store, role: string, userName: string, machineId: string, now: int) returns (r: Outcome)
    requires s.Valid() && machineId in s.machines
    modifies s
    ensures s.Valid()
    ensures unchanged(s`supplies, s`maintenanceHistory, s`usageHistory, s`pmConfigs)
    ensures var check := StartJobCheck(role, old(s.currentJob), old(s.machines[machineId]));
      check.Some? ==> r == Rejected(check.value) && unchanged(s)
    ensures var check := StartJobCheck(role, old(s.currentJob), old(s.machines[machineId]));
      check.None? ==>
        r == Done
        && s.machines == old(s.machines)[machineId := old(s.machines[machineId]).(isInUse := true)]
        && s.currentJob == Some(JobFor(old(s.machines[machineId]), userName, now))
  {
    var machine := s.machines[machineId];
    if !CanOperate(role) {
      return Rejected(NoPermission);
    }
    if s.currentJob.Some? {
      return Rejected(JobAlreadyActive);
    }
    if machine.currentHm > machine.nextPmDueHm + BlockThreshold {
      return Rejected(BlockedOverdue);
    }
    var jobData := JobFor(machine, userName, now);
    s.machines := s.machines[machineId := machine.(isInUse := true)];
    s.currentJob := Some(jobData);
    r := Done;
  }

  /** While a job is open, starting another one fails whatever the machine and the role. */
  lemma AtMostOneOpenJob(role: string, j: Job, m: Machine)
    ensures StartJobCheck(role, Some(j), m).Some?
  {
  }

  /** The fuel levels the end-of-job form accepts: a number from 0 to 100. */
  predicate ValidFuel(fuel: Option<int>)
  {
    fuel.Some? && 0 <= fuel.value <= 100
  }

  /** Fuel used in the shift looks too high when the level dropped by more than 50 points. */
  predicate HighFuelUse(job: Job, endFuel: int)
  {
    endFuel < job.startFuel - 50
  }

  /**
    The checks before a job ends, in their order: the final reading may not be
    below the start, the fuel level must be a number in [0, 100], and a large drop
    in fuel needs the operator's confirmation.
   */
  function EndJobCheck(job: Job, endHm: int, endFuel: Option<int>, confirmHighUse: bool): (r: Option<Error>)
    ensures endHm < job.startHm ==> r == Some(InvalidEndHourMeter)
    ensures endHm >= job.startHm && !ValidFuel(endFuel) ==> r == Some(InvalidFuelLevel)
    ensures r.None? <==> endHm >= job.startHm && ValidFuel(endFuel) && (HighFuelUse(job, endFuel.value) ==> confirmHighUse)
  {
    if endHm < job.startHm then Some(InvalidEndHourMeter)
    else if endFuel.None? || endFuel.value < 0 || endFuel.value > 100 then Some(InvalidFuelLevel)
    else if HighFuelUse(job, endFuel.value) && !confirmHighUse then Some(HighFuelUseNotConfirmed)
    else None
  }

  /** The usage entry of a finished job; the duration text covers the time from the start to `now`. */
  function UsageFor(job: Job, endHm: int, endFuel: int, now: int): (u: UsageRecord)
    ensures u.job == job && u.endHm == endHm && u.endFuel == endFuel && u.endTime == now
    ensures u.hoursAdded == endHm - job.startHm
    ensures u.realDurationText == FormatDuration(now - job.startTime)
  {
    UsageRecord(job, now, endHm, endFuel, endHm - job.startHm, FormatDuration(now - job.startTime))
  }

  /**
    Ending the open job at time `now`: after the checks pass, its machine is freed
    with the final reading and fuel level, one usage entry is appended and no job
    is open any more.
   */
  method EndJob(s: Store, endHm: int, endFuel: Option<int>, confirmHighUse: bool, now: int) returns (r: Outcome)
    requires s.Valid() && s.currentJob.Some?
    modifies s
    ensures s.Valid()
    ensures unchanged(s`supplies, s`maintenanceHistory, s`pmConfigs)
    ensures var check := EndJobCheck(old(s.currentJob.value), endHm, endFuel, confirmHighUse);
      check.Some? ==> r == Rejected(check.value) && unchanged(s)
    ensures var job := old(s.currentJob.value);
      EndJobCheck(job, endHm, endFuel, confirmHighUse).None? ==>
        r == Done
        && s.machines == old(s.machines)[job.machineId :=
             old(s.machines[job.machineId]).(isInUse := false, currentHm := endHm, fuelLevel := endFuel.value)]
        && s.usageHistory == old(s.usageHistory) + [UsageFor(job, endHm, endFuel.value, now)]
        && s.usageHistory[|s.usageHistory| - 1].hoursAdded >= 0
        && s.currentJob == None
  {
    var currentJob := s.currentJob.value;
    if endHm < currentJob.startHm {
      return Rejected(InvalidEndHourMeter);
    }
    if endFuel.None? || endFuel.value < 0 || endFuel.value > 100 {
      return Rejected(InvalidFuelLevel);
    }
    var endFuelInt := endFuel.value;
    if endFuelInt < currentJob.startFuel - 50 {
      if !confirmHighUse {
        return Rejected(HighFuelUseNotConfirmed);
      }
    }
    var m := s.machines[currentJob.machineId];
    s.machines := s.machines[currentJob.machineId := m.(isInUse := false, currentHm := endHm, fuelLevel := endFuelInt)];
    s.usageHistory := s.usageHistory + [UsageFor(currentJob, endHm, endFuelInt, now)];
    s.currentJob := None;
    r := Done;
  }

  /** A machine shown on the operation page: not in use, and its name contains the search text, ignoring case. */
  function Available(search: string, m: Machine): (shown: bool)
    ensures shown ==> !m.isInUse
    ensures search == "" ==> (shown <==> !m.isInUse)
  {
    Js.IncludesEmpty(Js.Lower(m.name));
    !m.isInUse && Js.Includes(Js.Lower(m.name), Js.Lower(search))
  }

  function AvailableMachines(machines: seq<Machine>, search: string): (r: seq<Machine>)
    ensures forall m :: m in r <==> m in machines && Available(search, m)
    ensures forall i :: 0 <= i < |r| ==> !r[i].isInUse
  {
    Arrays.Filter(machines, m => Available(search, m))
  }

  /** With no search text the page lists exactly the machines not in use. */
  lemma EmptySearchListsFreeMachines(machines: seq<Machine>)
    ensures forall m :: m in AvailableMachines(machines, "") <==> m in machines && !m.isInUse
  {
    forall m | m in machines
      ensures Js.Includes(Js.Lower(m.name), Js.Lower(""))
    {
      Js.IncludesEmpty(Js.Lower(m.name));
    }
  }
}
