/**
 The active and inactive validator sets: ordered sets of weighted validators,
 and the swaps that keep the strongest validators active.
 */
module ValidatorSets {
  import opened Options

  /** Addresses are used only through their equality and order. */
  type Address = nat

  /** Ordered by voting power first and by address second. */
  datatype Weighted = Weighted(power: nat, address: Address) {
    predicate AtMost(other: Weighted) {
      power < other.power || (power == other.power && address <= other.address)
    }
  }

  datatype ValidatorSet = ValidatorSet(active: set<Weighted>, inactive: set<Weighted>) {
    function All(): set<Weighted> {
      active + inactive
    }
  }

  // ---------- ordered sets ----------

  predicate IsFirst(s: set<Weighted>, w: Weighted) {
    w in s && forall x :: x in s ==> w.AtMost(x)
  }

  predicate IsLast(s: set<Weighted>, w: Weighted) {
    w in s && forall x :: x in s ==> x.AtMost(w)
  }

  lemma {:induction false} FirstExists(s: set<Weighted>)
    requires s != {}
    ensures exists w :: IsFirst(s, w)
    decreases |s|
  {
    var x :| x in s;
    if s == {x} {
      assert IsFirst(s, x);
    } else {
      var rest := s - {x};
      FirstExists(rest);
      var w :| IsFirst(rest, w);
      assert forall y :: y in s ==> y == x || y in rest;
      if x.AtMost(w) {
        assert IsFirst(s, x);
      } else {
        assert IsFirst(s, w);
      }
    }
  }

  lemma {:induction false} LastExists(s: set<Weighted>)
    requires s != {}
    ensures exists w :: IsLast(s, w)
    decreases |s|
  {
    var x :| x in s;
    if s == {x} {
      assert IsLast(s, x);
    } else {
      var rest := s - {x};
      LastExists(rest);
      var w :| IsLast(rest, w);
      assert forall y :: y in s ==> y == x || y in rest;
      if w.AtMost(x) {
        assert IsLast(s, x);
      } else {
        assert IsLast(s, w);
      }
    }
  }

  function First(s: set<Weighted>): (w: Weighted)
    requires s != {}
    ensures IsFirst(s, w)
  {
    FirstExists(s);
    var w :| IsFirst(s, w);
    w
  }

  function Last(s: set<Weighted>): (w: Weighted)
    requires s != {}
    ensures IsLast(s, w)
  {
    LastExists(s);
    var w :| IsLast(s, w);
    w
  }

  /** The weakest validator, if there is one. */
  function FirstShim(s: set<Weighted>): (r: Option<Weighted>)
    ensures r.None? <==> s == {}
    ensures r.Some? ==> IsFirst(s, r.value)
  {
    if s == {} then None else Some(First(s))
  }

  /** The strongest validator, if there is one. */
  function LastShim(s: set<Weighted>): (r: Option<Weighted>)
    ensures r.None? <==> s == {}
    ensures r.Some? ==> IsLast(s, r.value)
  {
    if s == {} then None else Some(Last(s))
  }

  function PowerOf(w: Option<Weighted>): nat {
    if w.Some? then w.value.power else 0
  }

  // ---------- operations on a validator set ----------

  /** Moves a validator from one voting power to another, swapping it with the
      weakest active or the strongest inactive validator when it overtakes or
      falls behind that one. */
  function Reweigh(vs: ValidatorSet, validator: Address, pre: nat, post: nat): (r: ValidatorSet) {
    var before, after := Weighted(pre, validator), Weighted(post, validator);
    if pre == post then vs
    else if before in vs.inactive then
      if post > PowerOf(FirstShim(vs.active)) then
        match FirstShim(vs.active)
        case None => ValidatorSet({after}, vs.inactive - {before})
        case Some(first) => ValidatorSet(vs.active - {first} + {after}, vs.inactive - {before} + {first})
      else ValidatorSet(vs.active, vs.inactive - {before} + {after})
    else
      if post < PowerOf(LastShim(vs.inactive)) then
        var last := Last(vs.inactive);
        ValidatorSet(vs.active - {before} + {last}, vs.inactive - {last} + {after})
      else ValidatorSet(vs.active - {before} + {after}, vs.inactive)
  }

  /** Adds a validator with no voting power. */
  function AddNew(vs: ValidatorSet, validator: Address, slots: nat): (r: ValidatorSet) {
    var newcomer := Weighted(0, validator);
    if |vs.active| < slots then vs.(active := vs.active + {newcomer})
    else vs.(inactive := vs.inactive + {newcomer})
  }

  /** Moves the weakest active validators to the inactive set until the active
      ones fit in the slots. */
  function Trim(vs: ValidatorSet, slots: nat): (r: ValidatorSet)
    decreases |vs.active|
  {
    if |vs.active| <= slots then vs
    else
      var first := First(vs.active);
      Trim(ValidatorSet(vs.active - {first}, vs.inactive + {first}), slots)
  }

  // ---------- well-formedness ----------

  ghost predicate UniqueAddresses(s: set<Weighted>) {
    forall a, b :: a in s && b in s && a.address == b.address ==> a == b
  }

  ghost predicate Ordered(vs: ValidatorSet) {
    forall a, i :: a in vs.active && i in vs.inactive ==> i.power <= a.power
  }

  ghost predicate Slotted(vs: ValidatorSet, slots: nat) {
    && |vs.active| <= slots
    && (vs.inactive != {} ==> |vs.active| == slots)
    && vs.active !! vs.inactive
    && Ordered(vs)
  }

  /** At most `slots` active validators, none inactive unless all slots are
      taken, no inactive validator with more voting power than an active one, and
      addresses unique across both sets. */
  ghost predicate WellFormed(vs: ValidatorSet, slots: nat) {
    Slotted(vs, slots) && UniqueAddresses(vs.All())
  }

  lemma SwapCount(s: set<Weighted>, x: Weighted, y: Weighted)
    requires x in s && y !in s
    ensures |s - {x} + {y}| == |s|
  {
  }

  /** An inactive validator overtakes the weakest active one. */
  lemma Promoted(vs: ValidatorSet, first: Weighted, before: Weighted, after: Weighted, slots: nat)
    requires Slotted(vs, slots) && IsFirst(vs.active, first) && before in vs.inactive && after !in vs.All()
    requires after.power > first.power
    ensures var r := ValidatorSet(vs.active - {first} + {after}, vs.inactive - {before} + {first});
      Slotted(r, slots) && r.All() == vs.All() - {before} + {after}
  {
    SwapCount(vs.active, first, after);
  }

  /** An inactive validator changes without overtaking an active one. */
  lemma StaysInactive(vs: ValidatorSet, first: Weighted, before: Weighted, after: Weighted, slots: nat)
    requires Slotted(vs, slots) && IsFirst(vs.active, first) && before in vs.inactive && after !in vs.All()
    requires after.power <= first.power
    ensures var r := ValidatorSet(vs.active, vs.inactive - {before} + {after});
      Slotted(r, slots) && r.All() == vs.All() - {before} + {after}
  {
  }

  /** An active validator falls behind the strongest inactive one. */
  lemma Demoted(vs: ValidatorSet, last: Weighted, before: Weighted, after: Weighted, slots: nat)
    requires Slotted(vs, slots) && IsLast(vs.inactive, last) && before in vs.active && after !in vs.All()
    requires after.power < last.power
    ensures var r := ValidatorSet(vs.active - {before} + {last}, vs.inactive - {last} + {after});
      Slotted(r, slots) && r.All() == vs.All() - {before} + {after}
  {
    SwapCount(vs.active, before, last);
  }

  /** An active validator changes and stays ahead of the inactive ones. */
  lemma StaysActive(vs: ValidatorSet, before: Weighted, after: Weighted, slots: nat)
    requires Slotted(vs, slots) && before in vs.active && after !in vs.All()
    requires forall i :: i in vs.inactive ==> i.power <= after.power
    ensures var r := ValidatorSet(vs.active - {before} + {after}, vs.inactive);
      Slotted(r, slots) && r.All() == vs.All() - {before} + {after}
  {
    SwapCount(vs.active, before, after);
  }

  lemma ReplaceUnique(s: set<Weighted>, before: Weighted, after: Weighted)
    requires UniqueAddresses(s) && before in s && before.address == after.address
    ensures UniqueAddresses(s - {before} + {after})
    ensures before != after ==> after !in s
  {
  }

  lemma InactiveReweighed(vs: ValidatorSet, before: Weighted, after: Weighted, slots: nat)
    requires Slotted(vs, slots) && slots >= 1 && before.address == after.address && before.power != after.power
    requires before in vs.inactive && after !in vs.All()
    ensures var r := Reweigh(vs, before.address, before.power, after.power);
      Slotted(r, slots) && r.All() == vs.All() - {before} + {after}
  {
    hide Ordered;
    assert vs.active != {};
    var first := FirstShim(vs.active).value;
    if after.power > first.power {
      Promoted(vs, first, before, after, slots);
    } else {
      StaysInactive(vs, first, before, after, slots);
    }
  }

  lemma ActiveReweighed(vs: ValidatorSet, before: Weighted, after: Weighted, slots: nat)
    requires Slotted(vs, slots) && before.address == after.address && before.power != after.power
    requires before in vs.active && after !in vs.All()
    ensures var r := Reweigh(vs, before.address, before.power, after.power);
      Slotted(r, slots) && r.All() == vs.All() - {before} + {after}
  {
    hide Ordered;
    var last := LastShim(vs.inactive);
    if last.Some? && after.power < last.value.power {
      Demoted(vs, last.value, before, after, slots);
    } else {
      StaysActive(vs, before, after, slots);
    }
  }

  lemma ReweighSlotted(vs: ValidatorSet, validator: Address, pre: nat, post: nat, slots: nat)
    requires Slotted(vs, slots) && slots >= 1 && pre != post
    requires Weighted(pre, validator) in vs.All() && Weighted(post, validator) !in vs.All()
    ensures Slotted(Reweigh(vs, validator, pre, post), slots)
    ensures Reweigh(vs, validator, pre, post).All() ==
      vs.All() - {Weighted(pre, validator)} + {Weighted(post, validator)}
  {
    hide Slotted, Reweigh;
    var before, after := Weighted(pre, validator), Weighted(post, validator);
    if before in vs.inactive {
      InactiveReweighed(vs, before, after, slots);
    } else {
      ActiveReweighed(vs, before, after, slots);
    }
  }

  /** Reweighing replaces exactly one weight and keeps the set well formed. */
  lemma ReweighWellFormed(vs: ValidatorSet, validator: Address, pre: nat, post: nat, slots: nat)
    requires WellFormed(vs, slots) && slots >= 1 && Weighted(pre, validator) in vs.All()
    ensures WellFormed(Reweigh(vs, validator, pre, post), slots)
    ensures Reweigh(vs, validator, pre, post).All() ==
      vs.All() - {Weighted(pre, validator)} + {Weighted(post, validator)}
  {
    ReplaceUnique(vs.All(), Weighted(pre, validator), Weighted(post, validator));
    if pre != post {
      ReweighSlotted(vs, validator, pre, post, slots);
    }
  }

  lemma JoinUnique(s: set<Weighted>, w: Weighted)
    requires UniqueAddresses(s) && forall x :: x in s ==> x.address != w.address
    ensures UniqueAddresses(s + {w}) && w !in s
  {
  }

  lemma JoinSlotted(vs: ValidatorSet, validator: Address, slots: nat)
    requires Slotted(vs, slots) && Weighted(0, validator) !in vs.All()
    ensures Slotted(AddNew(vs, validator, slots), slots)
    ensures AddNew(vs, validator, slots).All() == vs.All() + {Weighted(0, validator)}
  {
    if |vs.active| < slots {
      assert |vs.active + {Weighted(0, validator)}| == |vs.active| + 1;
    }
  }

  /** A new validator joins without disturbing the others. */
  lemma AddNewWellFormed(vs: ValidatorSet, validator: Address, slots: nat)
    requires WellFormed(vs, slots)
    requires forall w :: w in vs.All() ==> w.address != validator
    ensures WellFormed(AddNew(vs, validator, slots), slots)
    ensures AddNew(vs, validator, slots).All() == vs.All() + {Weighted(0, validator)}
  {
    hide UniqueAddresses, Slotted, AddNew;
    JoinUnique(vs.All(), Weighted(0, validator));
    JoinSlotted(vs, validator, slots);
  }

  /** Trimming splits the validators into the strongest `slots` and the rest. */
  lemma {:induction false} TrimWellFormed(vs: ValidatorSet, slots: nat)
    requires UniqueAddresses(vs.All()) && Ordered(vs) && vs.active !! vs.inactive
    requires vs.inactive != {} ==> |vs.active| >= slots
    ensures WellFormed(Trim(vs, slots), slots)
    ensures Trim(vs, slots).All() == vs.All()
    decreases |vs.active|
  {
    if |vs.active| > slots {
      var first := First(vs.active);
      var next := ValidatorSet(vs.active - {first}, vs.inactive + {first});
      assert next.All() == vs.All();
      TrimWellFormed(next, slots);
    }
  }
}
