/**
  The fixed values of the application: the PM cycle order and its labels, the
  alert thresholds, the role names the permission checks compare against, and the
  seed records an empty store is filled with.
 */
module Constants {
  import opened Records
  import Js

  /** Hours before the due reading at which a machine counts as "close". */
  const WarningThreshold: int := 50
  /** Hours past the due reading after which a machine may not start a job. */
  const BlockThreshold: int := 15

  /** The eight steps of one 2000-hour cycle. */
  const PmSequence: seq<PmType> := [PM1, PM2, PM1, PM3, PM1, PM2, PM3, PM4]

  const PmTypes: seq<PmType> := [PM1, PM2, PM3, PM4]

  const PmCycleLabels: seq<string> := [
    "PM1 (250 hrs)",
    "PM2 (500 hrs)",
    "PM1 (750 hrs)",
    "PM3 (1000 hrs)",
    "PM1 (1250 hrs)",
    "PM2 (1500 hrs)",
    "PM3 (1750 hrs)",
    "PM4 (2000 hrs - Fin Ciclo)"
  ]

  const AdminRole: string := "Administrador"
  const InstructorRole: string := "Instructor"

  /** The roles of the seeded accounts (their credentials are not modelled). */
  const SeedRoles: seq<string> := ["Administrador", "Usuario", "Visor"]

  const SeedMachine1: Machine := Machine(
    "M1", "Excavadora Cat 320", "320D", "CAT-001",
    5120, 75, PM3, 5370, Performed(PM1), 5120, false, Some(3))

  const SeedMachine2: Machine := Machine(
    "M2", "Cargador Frontal WA470", "WA470-6", "KOM-992",
    260, 40, PM2, 510, Performed(PM1), 260, false, Some(1))

  const SeedMachines: seq<Machine> := [SeedMachine1, SeedMachine2]

  const SeedSupply1: Supply := Supply("S1", "Aceite de Motor SAE 15W-40", 150, "Litros")
  const SeedSupply2: Supply := Supply("S2", "Filtro de Aceite (Grande)", 80, "Unidades")

  const SeedSupplies: seq<Supply> := [SeedSupply1, SeedSupply2]

  /** Eight steps, each a PM kind; PM4 closes the cycle and appears nowhere else. */
  lemma PmSequenceShape()
    ensures |PmSequence| == 8
    ensures forall i :: 0 <= i < |PmSequence| ==> PmSequence[i] in PmTypes
    ensures forall i :: 0 <= i < |PmSequence| ==> (PmSequence[i] == PM4 <==> i == 7)
    ensures forall t :: t in PmTypes ==> t in PmSequence
  {
  }

  /** Label i names step i's PM kind and the cumulative hours 250 * (i + 1) it falls on. */
  predicate LabelMatches(i: int)
    requires 0 <= i < 8
  {
    PmCycleLabels[i] == PmSequence[i].Name() + " (" + Js.NatToString(250 * (i + 1)) + " hrs"
                        + (if i == 7 then " - Fin Ciclo" else "") + ")"
  }

  lemma CycleLabelsMatchSequence()
    ensures |PmCycleLabels| == |PmSequence| == 8
    ensures forall i :: 0 <= i < 8 ==> LabelMatches(i)
  {
    LabelAt0();
    LabelAt1();
    LabelAt2();
    LabelAt3();
    LabelAt4();
    LabelAt5();
    LabelAt6();
    LabelAt7();
    forall i | 0 <= i < 8
      ensures LabelMatches(i)
    {
    }
  }

  // One lemma per label, and one per numeral: the numeral is built one digit at a time.
  lemma LabelAt0()
    ensures LabelMatches(0)
  {
    Numeral250();
  }

  lemma Numeral250()
    ensures Js.NatToString(250) == "250"
  {
    Js.NatToStringSnoc(2, 5); Js.NatToStringSnoc(25, 0);
  }

  lemma LabelAt1()
    ensures LabelMatches(1)
  {
    Numeral500();
  }

  lemma Numeral500()
    ensures Js.NatToString(500) == "500"
  {
    Js.NatToStringSnoc(5, 0); Js.NatToStringSnoc(50, 0);
  }

  lemma LabelAt2()
    ensures LabelMatches(2)
  {
    Numeral750();
  }

  lemma Numeral750()
    ensures Js.NatToString(750) == "750"
  {
    Js.NatToStringSnoc(7, 5); Js.NatToStringSnoc(75, 0);
  }

  lemma LabelAt3()
    ensures LabelMatches(3)
  {
    Numeral1000();
  }

  lemma Numeral1000()
    ensures Js.NatToString(1000) == "1000"
  {
    Js.NatToStringSnoc(1, 0); Js.NatToStringSnoc(10, 0); Js.NatToStringSnoc(100, 0);
  }

  lemma LabelAt4()
    ensures LabelMatches(4)
  {
    Numeral1250();
  }

  lemma Numeral1250()
    ensures Js.NatToString(1250) == "1250"
  {
    Js.NatToStringSnoc(1, 2); Js.NatToStringSnoc(12, 5); Js.NatToStringSnoc(125, 0);
  }

  lemma LabelAt5()
    ensures LabelMatches(5)
  {
    Numeral1500();
  }

  lemma Numeral1500()
    ensures Js.NatToString(1500) == "1500"
  {
    Js.NatToStringSnoc(1, 5); Js.NatToStringSnoc(15, 0); Js.NatToStringSnoc(150, 0);
  }

  lemma LabelAt6()
    ensures LabelMatches(6)
  {
    Numeral1750();
  }

  lemma Numeral1750()
    ensures Js.NatToString(1750) == "1750"
  {
    Js.NatToStringSnoc(1, 7); Js.NatToStringSnoc(17, 5); Js.NatToStringSnoc(175, 0);
  }

  lemma LabelAt7()
    ensures LabelMatches(7)
  {
    Numeral2000();
  }

  lemma Numeral2000()
    ensures Js.NatToString(2000) == "2000"
  {
    Js.NatToStringSnoc(2, 0); Js.NatToStringSnoc(20, 0); Js.NatToStringSnoc(200, 0);
  }

  /** The role the seeded operator account carries is not the one the permission checks name. */
  lemma SeedOperatorRoleIsNotInstructor()
    ensures forall r :: r in SeedRoles ==> r != InstructorRole
    ensures AdminRole in SeedRoles
  {
  }

  /** The seed machines are consistent with the cycle: type from index, due 250 h after the last PM. */
  lemma SeedMachinesConsistent()
    ensures forall m :: m in SeedMachines ==>
      m.seqIndex.Some? && 0 <= m.seqIndex.value < |PmSequence|
      && m.nextPmType == PmSequence[m.seqIndex.value]
      && m.nextPmDueHm == m.lastPmHm + 250
    ensures SeedMachine1.id != SeedMachine2.id && SeedSupply1.id != SeedSupply2.id
    ensures forall s :: s in SeedSupplies ==> s.stock >= 0
  {
  }
}
