/**
  The notification bell: one alert per machine that is overdue (critical) or close
  to its PM (warning), then one warning per supply low on stock.
 */
module NotificationCenter {
  import opened Records
  import opened Constants
  import Bands
  import Js

  datatype AlertType = Critical | Warning

  /** An alert: its type, its headline, the detail line and the id of the machine or supply. */
  datatype Alert = Alert(kind: AlertType, message: string, sub: string, id: string)

  /**
    The alert of one machine, if any. A stored reading is always a number here, so
    the `|| 0` defaults of the source do not change it.
   */
  function MachineAlert(m: Machine): (a: Option<Alert>)
    ensures (a.Some? && a.value.kind == Critical) <==> m.currentHm >= m.nextPmDueHm
    ensures (a.Some? && a.value.kind == Warning) <==> m.nextPmDueHm - 50 <= m.currentHm < m.nextPmDueHm
    ensures a.None? <==> m.currentHm < m.nextPmDueHm - 50
    ensures a.Some? ==> a.value.id == m.id
  {
    var current := m.currentHm;
    var nextDue := m.nextPmDueHm;
    if current >= nextDue then
      Some(Alert(Critical, "PM Vencido: " + m.name, Js.IntToString(current) + "h / " + Js.IntToString(nextDue) + "h", m.id))
    else if current >= nextDue - WarningThreshold then
      Some(Alert(Warning, "PM Próximo: " + m.name, "Faltan " + Js.IntToString(nextDue - current) + "h", m.id))
    else None
  }

  /** The alert follows the machine's band. */
  lemma MachineAlertFollowsBand(m: Machine)
    ensures MachineAlert(m).Some? && MachineAlert(m).value.kind == Critical <==> Bands.Band(m.currentHm, m.nextPmDueHm) == Bands.Critical
    ensures MachineAlert(m).Some? && MachineAlert(m).value.kind == Warning <==> Bands.Band(m.currentHm, m.nextPmDueHm) == Bands.Warning
  {
  }

  /** A warning names the hours left before the PM is due, between 1 and 50. */
  lemma WarningHoursLeft(m: Machine)
    requires MachineAlert(m).Some? && MachineAlert(m).value.kind == Warning
    ensures 1 <= m.nextPmDueHm - m.currentHm <= WarningThreshold
    ensures MachineAlert(m).value.sub == "Faltan " + Js.NatToString(m.nextPmDueHm - m.currentHm) + "h"
  {
  }

  /** The alert of one supply: a warning when it is low on stock. */
  function SupplyAlert(s: Supply): (a: Option<Alert>)
    ensures a.Some? <==> s.stock < 10
    ensures a.Some? ==> a.value.kind == Warning && a.value.id == s.id
  {
    var stock := s.stock;
    if Bands.IsLowStock(stock) then
      Some(Alert(Warning, "Stock Bajo: " + s.name, "Quedan " + Js.IntToString(stock) + " " + s.unit, s.id))
    else None
  }

  function AsSeq(a: Option<Alert>): (r: seq<Alert>)
    ensures |r| <= 1
    ensures a.None? <==> r == []
    ensures a.Some? ==> r == [a.value]
  {
    if a.Some? then [a.value] else []
  }

  /** The machine alerts, in machine order. */
  function MachineAlerts(machines: seq<Machine>): (r: seq<Alert>)
    ensures |r| <= |machines|
    ensures forall a :: a in r ==> exists m :: m in machines && MachineAlert(m) == Some(a)
    decreases |machines|
  {
    if machines == [] then []
    else MachineAlerts(machines[..|machines| - 1]) + AsSeq(MachineAlert(machines[|machines| - 1]))
  }

  /** The supply alerts, in supply order. */
  function SupplyAlerts(supplies: seq<Supply>): (r: seq<Alert>)
    ensures |r| <= |supplies|
    ensures forall a :: a in r ==> exists s :: s in supplies && SupplyAlert(s) == Some(a)
    ensures forall i :: 0 <= i < |r| ==> r[i].kind == Warning
    decreases |supplies|
  {
    if supplies == [] then []
    else SupplyAlerts(supplies[..|supplies| - 1]) + AsSeq(SupplyAlert(supplies[|supplies| - 1]))
  }

  /** The alert list: one pass over the machines, then one over the supplies. */
  method BuildAlerts(machines: seq<Machine>, supplies: seq<Supply>) returns (list: seq<Alert>)
    ensures list == MachineAlerts(machines) + SupplyAlerts(supplies)
  {
    list := [];
    var i := 0;
    while i < |machines|
      invariant 0 <= i <= |machines|
      invariant list == MachineAlerts(machines[..i])
    {
      MachineAlertsStep(machines, i);
      var a := MachineAlert(machines[i]);
      if a.Some? {
        list := list + [a.value];
      }
      i := i + 1;
    }
    assert machines[..i] == machines;
    var j := 0;
    while j < |supplies|
      invariant 0 <= j <= |supplies|
      invariant list == MachineAlerts(machines) + SupplyAlerts(supplies[..j])
    {
      BuildSupplyStep(MachineAlerts(machines), supplies, j);
      var a := SupplyAlert(supplies[j]);
      if a.Some? {
        list := list + [a.value];
      }
      j := j + 1;
    }
    assert supplies[..j] == supplies;
  }

  lemma MachineAlertsStep(machines: seq<Machine>, i: int)
    requires 0 <= i < |machines|
    ensures MachineAlerts(machines[..i + 1]) == MachineAlerts(machines[..i]) + AsSeq(MachineAlert(machines[i]))
  {
    assert machines[..i + 1][..i] == machines[..i];
  }

  lemma BuildSupplyStep(prefix: seq<Alert>, supplies: seq<Supply>, j: int)
    requires 0 <= j < |supplies|
    ensures prefix + SupplyAlerts(supplies[..j + 1]) == prefix + SupplyAlerts(supplies[..j]) + AsSeq(SupplyAlert(supplies[j]))
  {
    SupplyAlertsStep(supplies, j);
  }

  lemma SupplyAlertsStep(supplies: seq<Supply>, j: int)
    requires 0 <= j < |supplies|
    ensures SupplyAlerts(supplies[..j + 1]) == SupplyAlerts(supplies[..j]) + AsSeq(SupplyAlert(supplies[j]))
  {
    assert supplies[..j + 1][..j] == supplies[..j];
  }

  /** The machine alerts of two lists of machines, one after the other, keep that order. */
  lemma {:induction false} MachineAlertsConcat(a: seq<Machine>, b: seq<Machine>)
    ensures MachineAlerts(a + b) == MachineAlerts(a) + MachineAlerts(b)
    decreases |b|
  {
    if b == [] {
      assert a + b == a;
    } else {
      var b' := b[..|b| - 1];
      assert (a + b)[..|a + b| - 1] == a + b';
      assert (a + b)[|a + b| - 1] == b[|b| - 1];
      MachineAlertsConcat(a, b');
    }
  }

  predicate HasCritical(alerts: seq<Alert>)
  {
    exists i :: 0 <= i < |alerts| && alerts[i].kind == Critical
  }

  predicate HasWarning(alerts: seq<Alert>)
  {
    exists i :: 0 <= i < |alerts| && alerts[i].kind == Warning
  }

  predicate Overdue(m: Machine)
  {
    m.currentHm >= m.nextPmDueHm
  }

  /** Among the machine alerts there is a critical one exactly when some machine is overdue. */
  lemma MachineAlertsCritical(machines: seq<Machine>)
    ensures HasCritical(MachineAlerts(machines)) <==> exists i :: 0 <= i < |machines| && Overdue(machines[i])
  {
    if exists i :: 0 <= i < |machines| && Overdue(machines[i]) {
      var i :| 0 <= i < |machines| && Overdue(machines[i]);
      MachineAlertListed(machines, i);
      var k := |MachineAlerts(machines[..i])|;
      assert MachineAlerts(machines)[k].kind == Critical;
    }
    if HasCritical(MachineAlerts(machines)) {
      var k :| 0 <= k < |MachineAlerts(machines)| && MachineAlerts(machines)[k].kind == Critical;
      CriticalAlertHasMachine(machines, k);
    }
  }

  /** A machine that raises an alert has that alert in the list, after the alerts of the machines before it. */
  lemma MachineAlertListed(machines: seq<Machine>, i: int)
    requires 0 <= i < |machines| && MachineAlert(machines[i]).Some?
    ensures |MachineAlerts(machines[..i])| < |MachineAlerts(machines)|
    ensures MachineAlerts(machines)[|MachineAlerts(machines[..i])|] == MachineAlert(machines[i]).value
  {
    var front := machines[..i];
    var back := machines[i..];
    assert machines == front + back;
    MachineAlertsConcat(front, back);
    assert back == [machines[i]] + back[1..];
    MachineAlertsConcat([machines[i]], back[1..]);
    assert [machines[i]][..0] == [];
  }

  lemma CriticalAlertHasMachine(machines: seq<Machine>, k: int)
    requires 0 <= k < |MachineAlerts(machines)| && MachineAlerts(machines)[k].kind == Critical
    ensures exists i :: 0 <= i < |machines| && Overdue(machines[i])
  {
    var a := MachineAlerts(machines)[k];
    assert a in MachineAlerts(machines);
    var m :| m in machines && MachineAlert(m) == Some(a);
    var i :| 0 <= i < |machines| && machines[i] == m;
    assert Overdue(machines[i]);
  }

  /**
    The bell shows a critical badge exactly when some machine is overdue; supplies
    never raise a critical alert.
   */
  lemma HasCriticalIffOverdue(machines: seq<Machine>, supplies: seq<Supply>)
    ensures HasCritical(MachineAlerts(machines) + SupplyAlerts(supplies)) <==>
      exists i :: 0 <= i < |machines| && Overdue(machines[i])
  {
    MachineAlertsCritical(machines);
    var ma := MachineAlerts(machines);
    var all := ma + SupplyAlerts(supplies);
    if HasCritical(all) {
      var k :| 0 <= k < |all| && all[k].kind == Critical;
      assert ma[k] == all[k];
    }
    if HasCritical(ma) {
      var k :| 0 <= k < |ma| && ma[k].kind == Critical;
      assert all[k] == ma[k];
    }
  }

  /** A supply low on stock has its warning in the list, after the alerts of the supplies before it. */
  lemma {:induction false} SupplyAlertListed(supplies: seq<Supply>, i: int)
    requires 0 <= i < |supplies| && supplies[i].stock < 10
    ensures |SupplyAlerts(supplies[..i])| < |SupplyAlerts(supplies)|
    ensures SupplyAlerts(supplies)[|SupplyAlerts(supplies[..i])|] == SupplyAlert(supplies[i]).value
    decreases |supplies|
  {
    var n := |supplies| - 1;
    var front := supplies[..n];
    var tail := AsSeq(SupplyAlert(supplies[n]));
    assert supplies[..n + 1] == supplies;
    SupplyAlertsStep(supplies, n);
    assert SupplyAlerts(supplies) == SupplyAlerts(front) + tail;
    if i < n {
      assert front[..i] == supplies[..i];
      assert front[i] == supplies[i];
      SupplyAlertListed(front, i);
      var p := |SupplyAlerts(supplies[..i])|;
      assert (SupplyAlerts(front) + tail)[p] == SupplyAlerts(front)[p];
    } else {
      assert front == supplies[..i];
      assert tail == [SupplyAlert(supplies[i]).value];
    }
  }

  predicate NearDue(m: Machine)
  {
    m.nextPmDueHm - WarningThreshold <= m.currentHm < m.nextPmDueHm
  }

  /** A warning among the machine alerts comes from a machine near its due reading. */
  lemma MachineWarningHasNearDue(machines: seq<Machine>, a: Alert)
    requires a in MachineAlerts(machines) && a.kind == Warning
    ensures exists i :: 0 <= i < |machines| && NearDue(machines[i])
  {
    var m :| m in machines && MachineAlert(m) == Some(a);
    var i :| 0 <= i < |machines| && machines[i] == m;
    assert NearDue(machines[i]);
  }

  /** A supply alert comes from a supply low on stock. */
  lemma SupplyAlertHasLow(supplies: seq<Supply>, a: Alert)
    requires a in SupplyAlerts(supplies)
    ensures exists j :: 0 <= j < |supplies| && supplies[j].stock < 10
  {
    var s :| s in supplies && SupplyAlert(s) == Some(a);
    var j :| 0 <= j < |supplies| && supplies[j] == s;
    assert supplies[j].stock < 10;
  }

  lemma WarningHasCause(machines: seq<Machine>, supplies: seq<Supply>, k: int)
    requires 0 <= k < |MachineAlerts(machines) + SupplyAlerts(supplies)|
    requires (MachineAlerts(machines) + SupplyAlerts(supplies))[k].kind == Warning
    ensures (exists i :: 0 <= i < |machines| && NearDue(machines[i]))
      || (exists j :: 0 <= j < |supplies| && supplies[j].stock < 10)
  {
    var ma := MachineAlerts(machines);
    var sa := SupplyAlerts(supplies);
    if k < |ma| {
      assert (ma + sa)[k] == ma[k] && ma[k] in ma;
      MachineWarningHasNearDue(machines, ma[k]);
    } else {
      assert (ma + sa)[k] == sa[k - |ma|] && sa[k - |ma|] in sa;
      SupplyAlertHasLow(supplies, sa[k - |ma|]);
    }
  }

  lemma NearDueWarns(machines: seq<Machine>, supplies: seq<Supply>, i: int)
    requires 0 <= i < |machines| && NearDue(machines[i])
    ensures HasWarning(MachineAlerts(machines) + SupplyAlerts(supplies))
  {
    var ma := MachineAlerts(machines);
    MachineAlertListed(machines, i);
    var k := |MachineAlerts(machines[..i])|;
    assert (ma + SupplyAlerts(supplies))[k] == ma[k];
  }

  lemma LowStockWarns(machines: seq<Machine>, supplies: seq<Supply>, j: int)
    requires 0 <= j < |supplies| && supplies[j].stock < 10
    ensures HasWarning(MachineAlerts(machines) + SupplyAlerts(supplies))
  {
    var ma := MachineAlerts(machines);
    var sa := SupplyAlerts(supplies);
    SupplyAlertListed(supplies, j);
    var k := |SupplyAlerts(supplies[..j])|;
    assert (ma + sa)[|ma| + k] == sa[k];
  }

  /**
    The bell shows a warning exactly when some machine is within 50 h before its
    due reading or some supply is low on stock.
   */
  lemma HasWarningIffNearDueOrLow(machines: seq<Machine>, supplies: seq<Supply>)
    ensures HasWarning(MachineAlerts(machines) + SupplyAlerts(supplies)) <==>
      (exists i :: 0 <= i < |machines| && NearDue(machines[i]))
      || (exists j :: 0 <= j < |supplies| && supplies[j].stock < 10)
  {
    var all := MachineAlerts(machines) + SupplyAlerts(supplies);
    if HasWarning(all) {
      var k :| 0 <= k < |all| && all[k].kind == Warning;
      WarningHasCause(machines, supplies, k);
    }
    if exists i :: 0 <= i < |machines| && NearDue(machines[i]) {
      var i :| 0 <= i < |machines| && NearDue(machines[i]);
      NearDueWarns(machines, supplies, i);
    }
    if exists j :: 0 <= j < |supplies| && supplies[j].stock < 10 {
      var j :| 0 <= j < |supplies| && supplies[j].stock < 10;
      LowStockWarns(machines, supplies, j);
    }
  }

  /** Every alert is either critical or a warning, so the bell shows a badge exactly when the list is not empty. */
  lemma HasAlertsIffNonEmpty(alerts: seq<Alert>)
    ensures HasCritical(alerts) || HasWarning(alerts) <==> |alerts| > 0
  {
    if |alerts| > 0 {
      assert alerts[0].kind == Critical || alerts[0].kind == Warning;
    }
  }
}
