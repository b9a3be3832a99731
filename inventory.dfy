/** The inventory page: the supply search, the low-stock badge and restocking. */
module Inventory {
  import opened Records
  import opened Constants
  import opened Bands
  import opened AppState
  import Arrays
  import Js

  /** Creating supplies and restocking are for the administrator and the instructor roles. */
  predicate CanCreate(role: string)
  {
    role == AdminRole || role == InstructorRole
  }

  predicate CanRestock(role: string)
  {
    role == AdminRole || role == InstructorRole
  }

  /** Editing and deleting supplies is for the administrator only. */
  predicate CanEditDelete(role: string)
  {
    role == AdminRole
  }

  lemma PermissionsNested(role: string)
    ensures CanEditDelete(role) ==> CanCreate(role) && CanRestock(role)
    ensures forall k :: 1 <= k <= 2 ==> !CanCreate(SeedRoles[k]) && !CanRestock(SeedRoles[k])
  {
  }

  /** A supply matches the search when its name contains the search text, ignoring case. */
  predicate Matches(search: string, s: Supply)
  {
    Js.Includes(Js.Lower(s.name), Js.Lower(search))
  }

  function SearchSupplies(supplies: seq<Supply>, search: string): (r: seq<Supply>)
    ensures forall x :: x in r <==> x in supplies && Matches(search, x)
    ensures |r| <= |supplies|
  {
    Arrays.Filter(supplies, x => Matches(search, x))
  }

  /** An empty search keeps every supply, in order. */
  lemma EmptySearchKeepsAll(supplies: seq<Supply>)
    ensures SearchSupplies(supplies, "") == supplies
  {
    forall i | 0 <= i < |supplies|
      ensures Matches("", supplies[i])
    {
      Js.IncludesEmpty(Js.Lower(supplies[i].name));
    }
    Arrays.FilterKeepsAll(supplies, x => Matches("", x));
  }

  /** The search ignores the case of the search text. */
  lemma SearchIgnoresCase(supplies: seq<Supply>, search: string)
    ensures SearchSupplies(supplies, Js.Lower(search)) == SearchSupplies(supplies, search)
  {
    Js.LowerIdempotent(search);
    Arrays.FilterAgreeing(supplies, x => Matches(Js.Lower(search), x), x => Matches(search, x));
  }

  /** The red badge on a supply card. */
  function LowStockBadge(s: Supply): (red: bool)
    ensures red <==> s.stock < 10
  {
    IsLowStock(s.stock)
  }

  /** The stock after restocking `qty` units. */
  function Restocked(s: Supply, qty: int): (r: Supply)
    requires qty > 0
    ensures r.stock == s.stock + qty && r.stock > s.stock
    ensures r == s.(stock := r.stock)
  {
    s.(stock := s.stock + qty)
  }

  /**
    Restocking the selected supply: nothing happens without a selection, a quantity
    not above 0 is refused, a supply no longer stored fails, otherwise only that
    supply's stock grows by the quantity.
   */
  method HandleRestock(s: Store, selected: Option<string>, qtyToAdd: int) returns (r: Outcome)
    requires s.Valid()
    modifies s
    ensures s.Valid()
    ensures unchanged(s`machines, s`maintenanceHistory, s`usageHistory, s`pmConfigs, s`currentJob)
    ensures selected.None? ==> r == Rejected(Ignored) && unchanged(s)
    ensures selected.Some? && qtyToAdd <= 0 ==> r == Rejected(InvalidQuantity) && unchanged(s)
    ensures selected.Some? && qtyToAdd > 0 && selected.value !in old(s.supplies) ==> r == Rejected(WriteFailed) && unchanged(s)
    ensures selected.Some? && qtyToAdd > 0 && selected.value in old(s.supplies) ==>
      r == Done && s.supplies == old(s.supplies)[selected.value := Restocked(old(s.supplies[selected.value]), qtyToAdd)]
  {
    if selected.None? {
      return Rejected(Ignored);
    }
    if qtyToAdd <= 0 {
      return Rejected(InvalidQuantity);
    }
    var id := selected.value;
    if id !in s.supplies {
      return Rejected(WriteFailed);
    }
    s.supplies := s.supplies[id := Restocked(s.supplies[id], qtyToAdd)];
    r := Done;
  }
}
