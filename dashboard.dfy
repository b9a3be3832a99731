/**
  The dashboard: the fleet size and machines in operation, the PM alert counts and
  their card colour, the low-stock items, the total hours operated and the five
  most recent maintenance entries.

  The histories are kept in the order they were written. Every write is stamped
  with a time no earlier than the one before, so the newest-first order the page
  receives them in is that order reversed.
 */
module Dashboard {
  import opened Records
  import opened Bands
  import Arrays
  import Js

  /** The fleet-size card. */
  function TotalMachines(machines: seq<Machine>): nat
  {
    |machines|
  }

  function InUse(machines: seq<Machine>): (r: seq<Machine>)
    ensures forall m :: m in r <==> m in machines && m.isInUse
  {
    Arrays.Filter(machines, (m: Machine) => m.isInUse)
  }

  /** The machines in operation are counted among the fleet. */
  function MachinesInUse(machines: seq<Machine>): (n: nat)
    ensures n <= TotalMachines(machines)
    ensures n == |InUse(machines)|
  {
    |InUse(machines)|
  }

  /** The supplies shown as low on stock: exactly those with fewer than 10 units, in order. */
  function LowStockItems(supplies: seq<Supply>): (r: seq<Supply>)
    ensures |r| <= |supplies|
    ensures forall s :: s in r <==> s in supplies && s.stock < 10
  {
    Arrays.Filter(supplies, (s: Supply) => IsLowStock(s.stock))
  }

  /** The low-stock card is drawn in orange exactly when some supply is low on stock. */
  function LowStockHighlighted(supplies: seq<Supply>): (orange: bool)
    ensures orange <==> exists i :: 0 <= i < |supplies| && supplies[i].stock < 10
  {
    var low := LowStockItems(supplies);
    if |low| > 0 then
      assert low[0] in low;
      true
    else
      assert forall i :: 0 <= i < |supplies| ==> supplies[i] !in low;
      false
  }

  function Overdue(machines: seq<Machine>): (r: seq<Machine>)
    ensures forall m :: m in r <==> m in machines && m.currentHm >= m.nextPmDueHm
  {
    Arrays.Filter(machines, (m: Machine) => IsDue(m.currentHm, m.nextPmDueHm))
  }

  function DueSoon(machines: seq<Machine>): (r: seq<Machine>)
    ensures forall m :: m in r <==> m in machines && m.nextPmDueHm - 50 <= m.currentHm < m.nextPmDueHm
  {
    Arrays.Filter(machines, (m: Machine) => IsClose(m.currentHm, m.nextPmDueHm))
  }

  lemma OverdueNonEmpty(machines: seq<Machine>)
    ensures |Overdue(machines)| > 0 <==> exists i :: 0 <= i < |machines| && machines[i].currentHm >= machines[i].nextPmDueHm
  {
    var o := Overdue(machines);
    if |o| > 0 {
      assert o[0] in o;
    }
    if exists i :: 0 <= i < |machines| && machines[i].currentHm >= machines[i].nextPmDueHm {
      var i :| 0 <= i < |machines| && machines[i].currentHm >= machines[i].nextPmDueHm;
      assert machines[i] in o;
    }
  }

  lemma DueSoonNonEmpty(machines: seq<Machine>)
    ensures |DueSoon(machines)| > 0 <==> exists i :: 0 <= i < |machines| && machines[i].nextPmDueHm - 50 <= machines[i].currentHm < machines[i].nextPmDueHm
  {
    var d := DueSoon(machines);
    if |d| > 0 {
      assert d[0] in d;
    }
    if exists i :: 0 <= i < |machines| && machines[i].nextPmDueHm - 50 <= machines[i].currentHm < machines[i].nextPmDueHm {
      var i :| 0 <= i < |machines| && machines[i].nextPmDueHm - 50 <= machines[i].currentHm < machines[i].nextPmDueHm;
      assert machines[i] in d;
    }
  }

  /** The critical count: at most one per machine, and positive exactly when some machine is overdue. */
  function CriticalAlerts(machines: seq<Machine>): (n: nat)
    ensures n <= |machines|
    ensures n > 0 <==> exists i :: 0 <= i < |machines| && machines[i].currentHm >= machines[i].nextPmDueHm
  {
    OverdueNonEmpty(machines);
    |Overdue(machines)|
  }

  /** The warning count: at most one per machine, and positive exactly when some machine is within 50 h of due. */
  function WarningAlerts(machines: seq<Machine>): (n: nat)
    ensures n <= |machines|
    ensures n > 0 <==> exists i :: 0 <= i < |machines| && machines[i].nextPmDueHm - 50 <= machines[i].currentHm < machines[i].nextPmDueHm
  {
    DueSoonNonEmpty(machines);
    |DueSoon(machines)|
  }

  /**
    The value of the maintenance-alert card. No machine is both overdue and due
    soon, so the card never counts more alerts than there are machines.
   */
  function AlertTotal(machines: seq<Machine>): (n: nat)
    ensures n == CriticalAlerts(machines) + WarningAlerts(machines)
    ensures n <= TotalMachines(machines)
  {
    Arrays.FilterDisjointCount(machines, (m: Machine) => IsDue(m.currentHm, m.nextPmDueHm), (m: Machine) => IsClose(m.currentHm, m.nextPmDueHm));
    CriticalAlerts(machines) + WarningAlerts(machines)
  }

  /** The colour of the maintenance-alert card: red with any critical alert, else yellow with any warning, else green. */
  function AlertColour(critical: nat, warning: nat): (c: Colour)
    ensures c == Red <==> critical > 0
    ensures c == Yellow <==> critical == 0 && warning > 0
    ensures c == Green <==> critical == 0 && warning == 0
  {
    if critical > 0 then Red else if warning > 0 then Yellow else Green
  }

  /** The card is green exactly when no machine is overdue or due soon. */
  lemma AlertCardGreen(machines: seq<Machine>)
    ensures AlertColour(CriticalAlerts(machines), WarningAlerts(machines)) == Green <==>
      forall i :: 0 <= i < |machines| ==> machines[i].currentHm < machines[i].nextPmDueHm - 50
  {
    var o := Overdue(machines);
    var d := DueSoon(machines);
    if |o| > 0 {
      assert o[0] in o;
    }
    if |d| > 0 {
      assert d[0] in d;
    }
    if !forall i :: 0 <= i < |machines| ==> machines[i].currentHm < machines[i].nextPmDueHm - 50 {
      var i :| 0 <= i < |machines| && machines[i].currentHm >= machines[i].nextPmDueHm - 50;
      if machines[i].currentHm >= machines[i].nextPmDueHm {
        assert machines[i] in o;
      } else {
        assert machines[i] in d;
      }
    }
  }

  /** The total of the usage history as a left fold from `acc`, a missing value of hours counting as 0. */
  function HoursReduce(acc: int, usage: seq<UsageRecord>): int
    decreases |usage|
  {
    if usage == [] then acc else HoursReduce(acc + Js.Or(usage[0].hoursAdded, 0), usage[1..])
  }

  /** The hours-operated card: the fold from 0, which is the plain sum of the hours. */
  function HoursOperated(usage: seq<UsageRecord>): (h: int)
    ensures h == HoursSum(usage)
  {
    HoursReduceIsSum(0, usage);
    HoursReduce(0, usage)
  }

  /** The plain sum of the hours of each entry, from the last entry back. */
  function HoursSum(usage: seq<UsageRecord>): int
    decreases |usage|
  {
    if usage == [] then 0 else HoursSum(usage[..|usage| - 1]) + usage[|usage| - 1].hoursAdded
  }

  lemma {:induction false} HoursSumConcat(a: seq<UsageRecord>, b: seq<UsageRecord>)
    ensures HoursSum(a + b) == HoursSum(a) + HoursSum(b)
    decreases |b|
  {
    if b == [] {
      assert a + b == a;
    } else {
      var b' := b[..|b| - 1];
      assert (a + b)[..|a + b| - 1] == a + b';
      assert (a + b)[|a + b| - 1] == b[|b| - 1];
      HoursSumConcat(a, b');
    }
  }

  /** The fold started at `acc` adds the sum of the hours to `acc`: a missing value counts as 0. */
  lemma {:induction false} HoursReduceIsSum(acc: int, usage: seq<UsageRecord>)
    ensures HoursReduce(acc, usage) == acc + HoursSum(usage)
    decreases |usage|
  {
    if usage != [] {
      HoursReduceIsSum(acc + Js.Or(usage[0].hoursAdded, 0), usage[1..]);
      HoursSumConcat([usage[0]], usage[1..]);
      assert [usage[0]] + usage[1..] == usage;
      assert [usage[0]][..0] == [];
    }
  }

  /** The hours operated are the sum over the usage history; appending an entry adds its hours. */
  lemma HoursOperatedAppend(usage: seq<UsageRecord>, u: UsageRecord)
    ensures HoursOperated(usage) == HoursSum(usage)
    ensures HoursOperated(usage + [u]) == HoursOperated(usage) + u.hoursAdded
  {
    HoursReduceIsSum(0, usage);
    HoursReduceIsSum(0, usage + [u]);
    assert (usage + [u])[..|usage + [u]| - 1] == usage;
  }

  /** With every entry's hours non-negative (as finishing a job guarantees), the total is non-negative. */
  lemma {:induction false} HoursOperatedNonNegative(usage: seq<UsageRecord>)
    requires forall i :: 0 <= i < |usage| ==> usage[i].hoursAdded >= 0
    ensures HoursOperated(usage) >= 0
  {
    HoursReduceIsSum(0, usage);
    HoursSumNonNegative(usage);
  }

  lemma {:induction false} HoursSumNonNegative(usage: seq<UsageRecord>)
    requires forall i :: 0 <= i < |usage| ==> usage[i].hoursAdded >= 0
    ensures HoursSum(usage) >= 0
    decreases |usage|
  {
    if usage != [] {
      HoursSumNonNegative(usage[..|usage| - 1]);
    }
  }

  /**
    The recent-maintenance panel: the first five entries of the newest-first
    history, that is, the last five written, newest first.
   */
  function RecentMaintenance(history: seq<MaintenanceRecord>): (r: seq<MaintenanceRecord>)
    ensures |r| == if |history| < 5 then |history| else 5
    ensures forall i :: 0 <= i < |r| ==> r[i] == history[|history| - 1 - i]
  {
    Arrays.Take(Arrays.Reversed(history), 5)
  }

  /** Saving a maintenance puts it at the top of the panel and pushes the others down by one. */
  lemma RecentAfterSave(history: seq<MaintenanceRecord>, rec: MaintenanceRecord)
    ensures RecentMaintenance(history + [rec]) == [rec] + Arrays.Take(RecentMaintenance(history), 4)
  {
    var a := RecentMaintenance(history + [rec]);
    var b := [rec] + Arrays.Take(RecentMaintenance(history), 4);
    assert |a| == |b|;
    forall i | 0 <= i < |a|
      ensures a[i] == b[i]
    {
      if i > 0 {
        assert (history + [rec])[|history| - i] == history[|history| - 1 - (i - 1)];
      }
    }
  }
}
