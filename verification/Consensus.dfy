/**
 The validator updates sent to the consensus engine on entering an epoch, and
 what the engine ends up with when it applies them.
 */
module Consensus {
  import opened Options
  import opened Timelines
  import opened Params
  import opened ValidatorSets
  import opened Ledger
  import opened CoreInvariant

  /** An update of the consensus validators. The consensus key of a validator is
      represented by its address. */
  datatype Update = Active(address: Address, power: nat) | Deactivated(address: Address)

  /** The validators of the consensus engine with their voting powers. */
  type Engine = map<Address, nat>

  /** Zero power and deactivation both remove a validator. */
  function Apply(engine: Engine, update: Update): Engine {
    match update
    case Active(a, power) => if power > 0 then engine[a := power] else engine - {a}
    case Deactivated(a) => engine - {a}
  }

  function Replay(engine: Engine, updates: seq<Update>): Engine {
    if updates == [] then engine
    else Apply(Replay(engine, updates[..|updates| - 1]), updates[|updates| - 1])
  }

  /** The active validators with voting power. */
  ghost function Powerful(vs: ValidatorSet): Engine {
    if UniqueAddresses(vs.All()) then map w | w in vs.active && w.power > 0 :: w.address := w.power else map[]
  }

  // ---------- the updates ----------

  /** The validator was still pending at an epoch. */
  predicate PendingAt(s: Pos, v: Address, epoch: nat) {
    v in s.states && Get(Later, s.states[v], epoch) == Some(Pending)
  }

  /** There is a previous validator set: never at epoch zero. */
  predicate HasPrevious(s: Pos, epoch: nat) {
    epoch > 0 && Get(Later, s.sets, epoch - 1).Some?
  }

  /** A validator is skipped when it is unchanged, or new and without power. */
  predicate Skipped(s: Pos, w: Weighted, same: bool, epoch: nat) {
    HasPrevious(s, epoch) && (same || (w.power == 0 && PendingAt(s, w.address, epoch - 1)))
  }

  predicate PrevActive(s: Pos, w: Weighted, epoch: nat) {
    epoch > 0 && w in SetAt(s, epoch - 1).active
  }

  predicate PrevInactive(s: Pos, w: Weighted, epoch: nat) {
    epoch > 0 && w in SetAt(s, epoch - 1).inactive
  }

  function ActiveUpdates(s: Pos, epoch: nat): set<Update> {
    set w | w in SetAt(s, epoch).active && !Skipped(s, w, PrevActive(s, w, epoch), epoch) :: Active(w.address, w.power)
  }

  function Deactivations(s: Pos, epoch: nat): set<Update> {
    set w | w in SetAt(s, epoch).inactive && !Skipped(s, w, PrevInactive(s, w, epoch), epoch) :: Deactivated(w.address)
  }

  /** The updates in some order, each once. */
  ghost predicate Lists(updates: seq<Update>, s: Pos, epoch: nat) {
    && (forall u :: u in updates <==> u in ActiveUpdates(s, epoch) + Deactivations(s, epoch))
    && (forall i, j :: 0 <= i < j < |updates| ==> updates[i] != updates[j])
  }

  ghost predicate DistinctAddresses(updates: seq<Update>) {
    forall i, j :: 0 <= i < j < |updates| ==> updates[i].address != updates[j].address
  }

  // ---------- replaying ----------

  lemma {:induction false} ReplayOthers(engine: Engine, updates: seq<Update>, a: Address)
    requires forall i :: 0 <= i < |updates| ==> updates[i].address != a
    ensures a in Replay(engine, updates) <==> a in engine
    ensures a in engine ==> Replay(engine, updates)[a] == engine[a]
    decreases |updates|
  {
    if updates != [] {
      ReplayOthers(engine, updates[..|updates| - 1], a);
    }
  }

  /** With one update per validator, each update decides its validator. */
  lemma {:induction false} ReplayDecides(engine: Engine, updates: seq<Update>, i: nat)
    requires i < |updates| && DistinctAddresses(updates)
    ensures var r, u := Replay(engine, updates), updates[i];
      if u.Active? && u.power > 0 then u.address in r && r[u.address] == u.power else u.address !in r
    decreases |updates|
  {
    var last := |updates| - 1;
    if i < last {
      ReplayDecides(engine, updates[..last], i);
    }
  }

  lemma UpdatesDistinct(s: Pos, epoch: nat, updates: seq<Update>)
    requires Lists(updates, s, epoch) && UniqueAddresses(SetAt(s, epoch).All())
    requires SetAt(s, epoch).active !! SetAt(s, epoch).inactive
    ensures DistinctAddresses(updates)
  {
    forall i, j | 0 <= i < j < |updates| ensures updates[i].address != updates[j].address {
      var x, y := updates[i], updates[j];
      var v := UpdateFor(s, epoch, x);
      var w := UpdateFor(s, epoch, y);
      assert v in SetAt(s, epoch).All() && w in SetAt(s, epoch).All();
    }
  }

  lemma UpdateFor(s: Pos, epoch: nat, u: Update) returns (w: Weighted)
    requires u in ActiveUpdates(s, epoch) + Deactivations(s, epoch)
    ensures w.address == u.address
    ensures u.Active? ==>
      w in SetAt(s, epoch).active && w.power == u.power && !Skipped(s, w, PrevActive(s, w, epoch), epoch)
    ensures u.Deactivated? ==> w in SetAt(s, epoch).inactive && !Skipped(s, w, PrevInactive(s, w, epoch), epoch)
  {
    hide SetAt, Skipped, PrevActive, PrevInactive;
    if u.Active? {
      w :| w in SetAt(s, epoch).active && !Skipped(s, w, PrevActive(s, w, epoch), epoch)
        && u == Active(w.address, w.power);
    } else {
      w :| w in SetAt(s, epoch).inactive && !Skipped(s, w, PrevInactive(s, w, epoch), epoch)
        && u == Deactivated(w.address);
    }
  }

  /** What replaying the updates does to one address. */
  lemma ReplayAt(s: Pos, epoch: nat, engine: Engine, updates: seq<Update>, a: Address)
    requires Lists(updates, s, epoch) && UniqueAddresses(SetAt(s, epoch).All())
    requires SetAt(s, epoch).active !! SetAt(s, epoch).inactive
    ensures var r := Replay(engine, updates);
      && (forall w ::
            w in SetAt(s, epoch).active && w.address == a && !Skipped(s, w, PrevActive(s, w, epoch), epoch) ==>
            if w.power > 0 then a in r && r[a] == w.power else a !in r)
      && (forall w ::
            w in SetAt(s, epoch).inactive && w.address == a && !Skipped(s, w, PrevInactive(s, w, epoch), epoch) ==>
            a !in r)
      && ((forall u :: u in ActiveUpdates(s, epoch) + Deactivations(s, epoch) ==> u.address != a) ==>
            (a in r <==> a in engine) && (a in engine ==> r[a] == engine[a]))
  {
    hide SetAt, Skipped, PrevActive, PrevInactive, Replay;
    UpdatesDistinct(s, epoch, updates);
    if i :| 0 <= i < |updates| && updates[i].address == a {
      ReplayDecides(engine, updates, i);
      var v := UpdateFor(s, epoch, updates[i]);
      assert updates[i] in ActiveUpdates(s, epoch) + Deactivations(s, epoch);
      forall w | w in SetAt(s, epoch).All() && w.address == a ensures w == v {
      }
    } else {
      ReplayOthers(engine, updates, a);
      forall w | w in SetAt(s, epoch).active && w.address == a ensures Skipped(s, w, PrevActive(s, w, epoch), epoch) {
        var u := Active(w.address, w.power);
        assert u !in updates;
        assert u !in ActiveUpdates(s, epoch) + Deactivations(s, epoch);
      }
      forall w | w in SetAt(s, epoch).inactive && w.address == a
        ensures Skipped(s, w, PrevInactive(s, w, epoch), epoch)
      {
        var u := Deactivated(w.address);
        assert u !in updates;
        assert u !in ActiveUpdates(s, epoch) + Deactivations(s, epoch);
      }
    }
  }

  /** A validator that has joined stays; one that has not is in neither set. */
  lemma SetMembers(s: Pos, epoch: nat, a: Address)
    requires Core(s) && s.epoch <= epoch
    ensures WellFormed(SetAt(s, epoch), s.params.maxValidatorSlots)
    ensures (exists w :: w in SetAt(s, epoch).All() && w.address == a) <==> Joined(s, a, epoch)
    ensures Joined(s, a, epoch) ==> Joined(s, a, epoch + 1)
    ensures PendingAt(s, a, epoch) ==> !Joined(s, a, epoch)
  {
    hide Windows, SetsTrack, StakesFit, PowersFollow, TotalPowerOk, WellFormed, SetAt, Weight, Get;
    assert SetOk(s, epoch);
    if Joined(s, a, epoch) {
      assert Weighted(Weight(s, a, epoch), a) in Members(s, epoch);
      JoinedStays(s, a, epoch);
    }
  }

  lemma JoinedStays(s: Pos, a: Address, epoch: nat)
    requires Windows(s) && s.epoch <= epoch && Joined(s, a, epoch)
    ensures Joined(s, a, epoch + 1)
  {
    hide Get;
    assert StateLine(s.states[a], s.params.pipelineLen);
  }

  lemma PowerfulAt(vs: ValidatorSet, a: Address)
    requires UniqueAddresses(vs.All()) && vs.active !! vs.inactive
    ensures forall w :: w in vs.active && w.address == a ==>
      (a in Powerful(vs) <==> w.power > 0) && (w.power > 0 ==> Powerful(vs)[a] == w.power)
    ensures forall w :: w in vs.inactive && w.address == a ==> a !in Powerful(vs)
    ensures a in Powerful(vs) ==> exists w :: w in vs.All() && w.address == a
  {
    if a in Powerful(vs) {
      var w :| w in vs.active && w.power > 0 && w.address == a;
      assert w in vs.All();
    }
  }

  ghost predicate Entering(s: Pos, updates: seq<Update>) {
    && Core(s) && Lists(updates, s, s.epoch + 1)
    && WellFormed(SetAt(s, s.epoch), s.params.maxValidatorSlots)
    && WellFormed(SetAt(s, s.epoch + 1), s.params.maxValidatorSlots)
  }

  ghost predicate Agree(r: Engine, goal: Engine, a: Address) {
    (a in r <==> a in goal) && (a in r ==> r[a] == goal[a])
  }

  lemma AgreeEverywhere(r: Engine, goal: Engine)
    requires forall a: Address :: Agree(r, goal, a)
    ensures r == goal
  {
    forall a ensures a in r <==> a in goal {
      assert Agree(r, goal, a);
    }
    forall a | a in r ensures r[a] == goal[a] {
      assert Agree(r, goal, a);
    }
  }

  /** A new validator was not in the engine. */
  lemma NewNotInEngine(s: Pos, a: Address)
    requires Core(s) && UniqueAddresses(SetAt(s, s.epoch).All()) && !Joined(s, a, s.epoch)
    ensures a !in Powerful(SetAt(s, s.epoch))
  {
    hide Core, Joined, SetAt, Powerful, UniqueAddresses;
    SetMembers(s, s.epoch, a);
    PowerfulAt(SetAt(s, s.epoch), a);
  }

  /** Why a validator is skipped. */
  lemma SkippedBecause(s: Pos, w: Weighted, same: bool, epoch: nat)
    requires Skipped(s, w, same, epoch)
    ensures epoch > 0 && (same || (w.power == 0 && PendingAt(s, w.address, epoch - 1)))
  {
  }

  lemma EnterActive(s: Pos, updates: seq<Update>, w: Weighted)
    requires Entering(s, updates) && w in SetAt(s, s.epoch + 1).active
    ensures Agree(Replay(Powerful(SetAt(s, s.epoch)), updates), Powerful(SetAt(s, s.epoch + 1)), w.address)
  {
    hide Core, Joined, PendingAt, Replay, SetAt, Powerful, UniqueAddresses, Lists, Skipped, HasPrevious,
      ActiveUpdates, Deactivations, Ordered;
    var c, a := s.epoch, w.address;
    PowerfulAt(SetAt(s, c), a);
    PowerfulAt(SetAt(s, c + 1), a);
    ReplayAt(s, c + 1, Powerful(SetAt(s, c)), updates, a);
    if Skipped(s, w, PrevActive(s, w, c + 1), c + 1) {
      SkippedBecause(s, w, PrevActive(s, w, c + 1), c + 1);
      OneUpdate(s, c + 1, w);
      if w !in SetAt(s, c).active {
        SetMembers(s, c, a);
        NewNotInEngine(s, a);
      }
    }
  }

  lemma EnterInactive(s: Pos, updates: seq<Update>, w: Weighted)
    requires Entering(s, updates) && w in SetAt(s, s.epoch + 1).inactive
    ensures Agree(Replay(Powerful(SetAt(s, s.epoch)), updates), Powerful(SetAt(s, s.epoch + 1)), w.address)
  {
    hide Core, Joined, PendingAt, Replay, SetAt, Powerful, UniqueAddresses, Lists, Skipped, HasPrevious,
      ActiveUpdates, Deactivations, Ordered;
    var c, a := s.epoch, w.address;
    PowerfulAt(SetAt(s, c), a);
    PowerfulAt(SetAt(s, c + 1), a);
    ReplayAt(s, c + 1, Powerful(SetAt(s, c)), updates, a);
    if Skipped(s, w, PrevInactive(s, w, c + 1), c + 1) {
      SkippedBecause(s, w, PrevInactive(s, w, c + 1), c + 1);
      OneUpdate(s, c + 1, w);
      if w !in SetAt(s, c).inactive {
        SetMembers(s, c, a);
        NewNotInEngine(s, a);
      }
    }
  }

  lemma EnterAbsent(s: Pos, updates: seq<Update>, a: Address)
    requires Entering(s, updates) && forall w :: w in SetAt(s, s.epoch + 1).All() ==> w.address != a
    ensures Agree(Replay(Powerful(SetAt(s, s.epoch)), updates), Powerful(SetAt(s, s.epoch + 1)), a)
  {
    hide Core, Joined, PendingAt, Replay, SetAt, Powerful, UniqueAddresses, Lists;
    var c := s.epoch;
    PowerfulAt(SetAt(s, c + 1), a);
    ReplayAt(s, c + 1, Powerful(SetAt(s, c)), updates, a);
    NoUpdate(s, c + 1, a);
    SetMembers(s, c, a);
    SetMembers(s, c + 1, a);
    NewNotInEngine(s, a);
  }

  /** Replaying the updates of the next epoch turns the engine's validators into
      the active validators with power of that epoch. */
  lemma EnterEpoch(s: Pos, updates: seq<Update>)
    requires Core(s) && Lists(updates, s, s.epoch + 1)
    ensures Replay(Powerful(SetAt(s, s.epoch)), updates) == Powerful(SetAt(s, s.epoch + 1))
  {
    hide Core, Replay, SetAt, Powerful, UniqueAddresses, Lists, Agree, Joined, PendingAt, Slotted;
    SetMembers(s, s.epoch, 0);
    SetMembers(s, s.epoch + 1, 0);
    var cur := SetAt(s, s.epoch + 1);
    var r, goal := Replay(Powerful(SetAt(s, s.epoch)), updates), Powerful(cur);
    forall a: Address ensures Agree(r, goal, a) {
      if w :| w in cur.active && w.address == a {
        EnterActive(s, updates, w);
      } else if w :| w in cur.inactive && w.address == a {
        EnterInactive(s, updates, w);
      } else {
        EnterAbsent(s, updates, a);
      }
    }
    AgreeEverywhere(r, goal);
  }

  /** At epoch zero the updates fill an empty engine. */
  lemma EnterGenesis(s: Pos, updates: seq<Update>)
    requires Core(s) && s.epoch == 0 && Lists(updates, s, 0)
    ensures Replay(map[], updates) == Powerful(SetAt(s, 0))
  {
    hide Core, Replay, SetAt, Powerful, UniqueAddresses, Lists, Joined;
    SetMembers(s, 0, 0);
    var r, goal := Replay(map[], updates), Powerful(SetAt(s, 0));
    forall a: Address ensures Agree(r, goal, a) {
      SetMembers(s, 0, a);
      PowerfulAt(SetAt(s, 0), a);
      ReplayAt(s, 0, map[], updates, a);
      if forall w :: w in SetAt(s, 0).All() ==> w.address != a {
        NoUpdate(s, 0, a);
      }
    }
    AgreeEverywhere(r, goal);
  }

  lemma NoUpdate(s: Pos, epoch: nat, a: Address)
    requires forall w :: w in SetAt(s, epoch).All() ==> w.address != a
    ensures forall u :: u in ActiveUpdates(s, epoch) + Deactivations(s, epoch) ==> u.address != a
  {
    hide SetAt, Skipped;
    forall u | u in ActiveUpdates(s, epoch) + Deactivations(s, epoch) ensures u.address != a {
      var w := UpdateFor(s, epoch, u);
      assert w in SetAt(s, epoch).All();
    }
  }

  /** A skipped validator has no update. */
  lemma OneUpdate(s: Pos, epoch: nat, w: Weighted)
    requires WellFormed(SetAt(s, epoch), s.params.maxValidatorSlots) && w in SetAt(s, epoch).All()
    requires w in SetAt(s, epoch).active ==> Skipped(s, w, PrevActive(s, w, epoch), epoch)
    requires w in SetAt(s, epoch).inactive ==> Skipped(s, w, PrevInactive(s, w, epoch), epoch)
    ensures forall u :: u in ActiveUpdates(s, epoch) + Deactivations(s, epoch) ==> u.address != w.address
  {
    hide SetAt, Skipped, PrevActive, PrevInactive;
    forall u | u in ActiveUpdates(s, epoch) + Deactivations(s, epoch) ensures u.address != w.address {
      var v := UpdateFor(s, epoch, u);
      assert v in SetAt(s, epoch).All();
    }
  }

  // ---------- removals of validators the engine does not have ----------

  ghost predicate Removal(u: Update) {
    u.Deactivated? || u.power == 0
  }

  /** Every removal sent on entering an epoch is of a validator that the engine has. */
  ghost predicate RemovesOnlyMembers(s: Pos, epoch: nat)
    requires epoch > 0
  {
    forall u :: u in ActiveUpdates(s, epoch) + Deactivations(s, epoch) && Removal(u) ==>
      u.address in Powerful(SetAt(s, epoch - 1))
  }

  /** A validator without a powered slot now, and without one before, is in the
      same set with the same weight as before, or is new and without power. */
  ghost predicate QuietOutside(s: Pos, epoch: nat)
    requires epoch > 0
  {
    var prev, cur := SetAt(s, epoch - 1), SetAt(s, epoch);
    forall w :: (w in cur.inactive || (w in cur.active && w.power == 0)) && w.address !in Powerful(prev) ==>
      || (w in cur.active && w in prev.active)
      || (w in cur.inactive && w in prev.inactive)
      || (w.power == 0 && PendingAt(s, w.address, epoch - 1))
  }

  lemma PreviousKnown(s: Pos)
    requires Core(s)
    ensures HasPrevious(s, s.epoch + 1)
  {
    hide SetsTrack, StakesFit, SetsOk, PowersFollow, TotalPowerOk, Get;
    SetsPresent(s, s.epoch);
  }

  /** The engine is asked to remove only validators that it has if and only if
      validators outside the engine keep quiet. */
  lemma RemovalsIffQuiet(s: Pos)
    requires Core(s)
    ensures RemovesOnlyMembers(s, s.epoch + 1) <==> QuietOutside(s, s.epoch + 1)
  {
    hide Core, SetAt, Powerful, PendingAt, HasPrevious;
    var e := s.epoch + 1;
    PreviousKnown(s);
    SetMembers(s, e, 0);
    var cur := SetAt(s, e);
    if QuietOutside(s, e) {
      forall u | u in ActiveUpdates(s, e) + Deactivations(s, e) && Removal(u)
        ensures u.address in Powerful(SetAt(s, s.epoch))
      {
        var w := UpdateFor(s, e, u);
      }
    }
    if RemovesOnlyMembers(s, e) {
      forall w | (w in cur.inactive || (w in cur.active && w.power == 0)) && w.address !in Powerful(SetAt(s, s.epoch))
        ensures w in cur.active ==> Skipped(s, w, PrevActive(s, w, e), e)
        ensures w in cur.inactive ==> Skipped(s, w, PrevInactive(s, w, e), e)
      {
        var u := if w in cur.active then Active(w.address, 0) else Deactivated(w.address);
        assert u !in ActiveUpdates(s, e) + Deactivations(s, e);
      }
    }
  }

  /** In particular, when the weight of a validator changes while it stays
      inactive, its removal is sent although the engine does not have it. */
  lemma InactiveChangeIsSent(s: Pos, before: Weighted, after: Weighted)
    requires Core(s) && before.address == after.address && before != after
    requires before in SetAt(s, s.epoch).inactive && after in SetAt(s, s.epoch + 1).inactive
    ensures Deactivated(after.address) in Deactivations(s, s.epoch + 1)
    ensures after.address !in Powerful(SetAt(s, s.epoch))
  {
    hide Core, Joined, SetAt, Powerful;
    SetMembers(s, s.epoch, after.address);
    PowerfulAt(SetAt(s, s.epoch), after.address);
    assert before in SetAt(s, s.epoch).All();
    assert !PrevInactive(s, after, s.epoch + 1);
  }
}
