/**
 The order in which the check visits epochs is that of a hash map. When does the
 verdict depend on it?
 */
module CheckOrder {
  import opened Options
  import opened Timelines
  import opened Sums
  import opened Params
  import opened ValidatorSets
  import opened Ledger
  import opened Validation

  /** Every changed stake shows in the voting power of its own epoch, or makes no
      difference to it. */
  ghost predicate ShowsEverywhere(params: PosParams, f: Findings) {
    forall k :: k in f.stakes ==> StakeShows(params, f, k, None)
  }

  /** A finite set can be listed, each element once. */
  lemma {:induction false} Arrange<T>(s: set<T>) returns (order: seq<T>)
    ensures forall e :: e in order <==> e in s
    ensures forall i, j :: 0 <= i < j < |order| ==> order[i] != order[j]
    decreases s
  {
    if s == {} {
      order := [];
    } else {
      var e :| e in s;
      var rest := Arrange(s - {e});
      order := [e] + rest;
      forall i, j | 0 <= i < j < |order| ensures order[i] != order[j] {
        assert rest[j - 1] in rest;
      }
    }
  }

  /** Any epoch with changed stakes may be visited first. */
  lemma VisitedFirst(f: Findings, e: nat) returns (order: seq<nat>)
    requires AnyStake(f, e)
    ensures VisitOrder(f, order) && order != [] && order[0] == e
  {
    var epochs := set k | k in f.stakes :: k.0;
    var rest := Arrange(epochs - {e});
    order := [e] + rest;
    forall i, j | 0 <= i < j < |order| ensures order[i] != order[j] {
      assert rest[j - 1] in rest;
    }
  }

  /** The changed stakes pass in every order exactly when each of them shows at
      its own epoch; the allowance for the epoch visited before never matters
      then. */
  lemma PassInEveryOrder(params: PosParams, f: Findings)
    ensures (forall order :: VisitOrder(f, order) ==> StakesMatchPowers(params, f, order)) <==>
      ShowsEverywhere(params, f)
  {
    hide VisitOrder, VotingPower;
    if ShowsEverywhere(params, f) {
      forall order ensures StakesMatchPowers(params, f, order) {
        forall i | 0 <= i < |order| ensures ShowAt(params, f, order[i], Previous(order, i)) {
          forall k | k in f.stakes && k.0 == order[i] ensures StakeShows(params, f, k, Previous(order, i)) {
            assert StakeShows(params, f, k, None);
          }
        }
      }
    }
    if forall order :: VisitOrder(f, order) ==> StakesMatchPowers(params, f, order) {
      forall k | k in f.stakes ensures StakeShows(params, f, k, None) {
        assert AnyStake(f, k.0);
        var order := VisitedFirst(f, k.0);
        assert ShowAt(params, f, order[0], Previous(order, 0));
      }
    }
  }

  // ---------- some order passes ----------

  /** An epoch whose changed stakes do not all show by themselves. */
  ghost predicate Hidden(params: PosParams, f: Findings, e: nat) {
    AnyStake(f, e) && !ShowAt(params, f, e, None)
  }

  /** Visiting epoch `p` just before `e` makes the changed stakes of `e` pass. */
  ghost predicate Covers(params: PosParams, f: Findings, p: nat, e: nat) {
    AnyStake(f, p) && p != e && ShowAt(params, f, e, Some(p))
  }

  /** Every hidden epoch has a covering epoch of its own, without going round in
      circles. */
  ghost predicate Covered(params: PosParams, f: Findings, cover: map<nat, nat>, rank: map<nat, nat>) {
    && (forall e :: e in cover <==> Hidden(params, f, e))
    && (forall e :: e in cover ==> Covers(params, f, cover[e], e))
    && (forall d, e :: d in cover && e in cover && cover[d] == cover[e] ==> d == e)
    && (forall e :: AnyStake(f, e) ==> e in rank)
    && (forall e :: e in cover ==> cover[e] in rank && e in rank && rank[cover[e]] < rank[e])
  }

  /** A listing of some epochs in which hidden ones follow their covers. */
  ghost predicate Follows(cover: map<nat, nat>, order: seq<nat>) {
    && (forall i, j :: 0 <= i < j < |order| ==> order[i] != order[j])
    && (forall i :: 0 <= i < |order| && order[i] in cover ==> i > 0 && order[i - 1] == cover[order[i]])
  }

  /** An epoch that needs no cover can be visited first. */
  lemma PutFirst(cover: map<nat, nat>, order: seq<nat>, e: nat)
    requires Follows(cover, order) && e !in order && e !in cover
    ensures Follows(cover, [e] + order) && forall x :: x in [e] + order <==> x == e || x in order
  {
    var next := [e] + order;
    forall i, j | 0 <= i < j < |next| ensures next[i] != next[j] {
      assert order[j - 1] in order;
    }
    forall i | 0 <= i < |next| && next[i] in cover ensures i > 0 && next[i - 1] == cover[next[i]] {
      assert order[i - 1] in cover;
    }
  }

  /** A hidden epoch can be visited right after its cover. */
  lemma PutAfter(cover: map<nat, nat>, order: seq<nat>, at: nat, e: nat)
    requires Follows(cover, order) && e !in order && e in cover && at < |order| && order[at] == cover[e]
    requires forall c, d :: c in cover && d in cover && cover[c] == cover[d] ==> c == d
    ensures var next := order[..at + 1] + [e] + order[at + 1..];
      Follows(cover, next) && forall x :: x in next <==> x == e || x in order
  {
    assert order == order[..at + 1] + order[at + 1..];
    var next := order[..at + 1] + [e] + order[at + 1..];
    forall i, j | 0 <= i < j < |next| ensures next[i] != next[j] {
      assert i <= at ==> order[i] in order;
      assert j > at + 1 ==> order[j - 1] in order;
    }
    forall i | 0 <= i < |next| && next[i] in cover ensures i > 0 && next[i - 1] == cover[next[i]] {
      if i > at + 1 {
        assert order[i - 1] in cover;
      }
    }
  }

  /** Among some epochs, covers rank below what they cover. */
  ghost predicate Ranked(cover: map<nat, nat>, rank: map<nat, nat>, epochs: set<nat>) {
    && (forall e :: e in epochs ==> e in rank)
    && (forall e :: e in epochs && e in cover ==> cover[e] in epochs && rank[cover[e]] < rank[e])
  }

  lemma RankedWithout(cover: map<nat, nat>, rank: map<nat, nat>, epochs: set<nat>, e: nat)
    requires Ranked(cover, rank, epochs) && e in epochs && forall x :: x in epochs ==> rank[x] <= rank[e]
    ensures Ranked(cover, rank, epochs - {e})
    ensures e in cover ==> cover[e] in epochs - {e}
  {
  }

  /** The epochs can be listed so, adding them by rank. */
  lemma {:induction false} ListCovered(cover: map<nat, nat>, rank: map<nat, nat>, epochs: set<nat>)
    returns (order: seq<nat>)
    requires forall c, d :: c in cover && d in cover && cover[c] == cover[d] ==> c == d
    requires Ranked(cover, rank, epochs)
    ensures Follows(cover, order) && forall e :: e in order <==> e in epochs
    decreases epochs
  {
    if epochs == {} {
      order := [];
      assert Follows(cover, order);
    } else {
      hide Follows, Ranked;
      RanksKnown(cover, rank, epochs);
      var e := Highest(epochs, rank);
      RankedWithout(cover, rank, epochs, e);
      var rest := ListCovered(cover, rank, epochs - {e});
      if e in cover {
        assert cover[e] in rest;
        var at :| 0 <= at < |rest| && rest[at] == cover[e];
        PutAfter(cover, rest, at, e);
        order := rest[..at + 1] + [e] + rest[at + 1..];
      } else {
        PutFirst(cover, rest, e);
        order := [e] + rest;
      }
    }
  }

  lemma RanksKnown(cover: map<nat, nat>, rank: map<nat, nat>, epochs: set<nat>)
    requires Ranked(cover, rank, epochs)
    ensures forall e :: e in epochs ==> e in rank
  {
  }

  lemma {:induction false} Highest(epochs: set<nat>, rank: map<nat, nat>) returns (e: nat)
    requires epochs != {} && forall x :: x in epochs ==> x in rank
    ensures e in epochs && forall x :: x in epochs ==> rank[x] <= rank[e]
    decreases epochs
  {
    var d :| d in epochs;
    e := d;
    if epochs - {d} != {} {
      var h := Highest(epochs - {d}, rank);
      e := if rank[d] < rank[h] then h else d;
    }
    forall x | x in epochs ensures rank[x] <= rank[e] {
      if x != d {
        assert x in epochs - {d};
      }
    }
  }

  function Positions(order: seq<nat>): map<nat, nat> {
    if order == [] then map[] else Positions(order[..|order| - 1])[order[|order| - 1] := |order| - 1]
  }

  lemma {:induction false} PositionOf(order: seq<nat>, i: nat)
    requires i < |order| && forall i, j :: 0 <= i < j < |order| ==> order[i] != order[j]
    ensures order[i] in Positions(order) && Positions(order)[order[i]] == i
    decreases |order|
  {
    if i < |order| - 1 {
      PositionOf(order[..|order| - 1], i);
    }
  }

  /** Some order of visiting makes the changed stakes pass if and only if the hidden
      epochs can be covered. */
  lemma SomeOrderPasses(params: PosParams, f: Findings)
    ensures (exists order :: VisitOrder(f, order) && StakesMatchPowers(params, f, order)) <==>
      exists cover, rank :: Covered(params, f, cover, rank)
  {
    if cover, rank :| Covered(params, f, cover, rank) {
      var order := PassingOrder(params, f, cover, rank);
    }
    if order :| VisitOrder(f, order) && StakesMatchPowers(params, f, order) {
      var cover, rank := CoverFrom(params, f, order);
    }
  }

  lemma PassingOrder(params: PosParams, f: Findings, cover: map<nat, nat>, rank: map<nat, nat>)
    returns (order: seq<nat>)
    requires Covered(params, f, cover, rank)
    ensures VisitOrder(f, order) && StakesMatchPowers(params, f, order)
  {
    hide ShowAt, Covered, Ranked;
    var epochs := set k | k in f.stakes :: k.0;
    assert forall e :: e in epochs <==> AnyStake(f, e);
    CoveredRanked(params, f, cover, rank, epochs);
    order := ListCovered(cover, rank, epochs);
    forall i | 0 <= i < |order| ensures ShowAt(params, f, order[i], Previous(order, i)) {
      assert order[i] in epochs;
      CoveredShows(params, f, cover, rank, order[i], Previous(order, i));
    }
  }

  lemma CoveredRanked(params: PosParams, f: Findings, cover: map<nat, nat>, rank: map<nat, nat>, epochs: set<nat>)
    requires Covered(params, f, cover, rank) && forall e :: e in epochs <==> AnyStake(f, e)
    ensures Ranked(cover, rank, epochs)
    ensures forall c, d :: c in cover && d in cover && cover[c] == cover[d] ==> c == d
  {
    hide ShowAt, AnyStake;
    forall e | e in epochs && e in cover ensures cover[e] in epochs && rank[cover[e]] < rank[e] {
      assert Covers(params, f, cover[e], e);
    }
  }

  lemma CoveredShows(params: PosParams, f: Findings, cover: map<nat, nat>, rank: map<nat, nat>, e: nat,
                     previous: Option<nat>)
    requires Covered(params, f, cover, rank) && AnyStake(f, e) && (e in cover ==> previous == Some(cover[e]))
    ensures ShowAt(params, f, e, previous)
  {
    hide ShowAt, AnyStake;
    if e in cover {
      assert Covers(params, f, cover[e], e);
    } else {
      assert !Hidden(params, f, e);
      ShowsAnyhow(params, f, e, previous);
    }
  }

  lemma ShowsAnyhow(params: PosParams, f: Findings, e: nat, previous: Option<nat>)
    requires ShowAt(params, f, e, None)
    ensures ShowAt(params, f, e, previous)
  {
    forall k | k in f.stakes && k.0 == e ensures StakeShows(params, f, k, previous) {
      assert StakeShows(params, f, k, None);
    }
  }

  ghost predicate Distinct(order: seq<nat>) {
    forall i, j :: 0 <= i < j < |order| ==> order[i] != order[j]
  }

  lemma PositionsInvert(order: seq<nat>, e: nat)
    requires Distinct(order) && e in order
    ensures e in Positions(order) && Positions(order)[e] < |order| && order[Positions(order)[e]] == e
  {
    var i :| 0 <= i < |order| && order[i] == e;
    PositionOf(order, i);
  }

  /** The epoch visited just before another one. */
  ghost predicate JustBefore(order: seq<nat>, p: nat, e: nat) {
    && e in Positions(order) && 0 < Positions(order)[e] < |order| && order[Positions(order)[e]] == e
    && order[Positions(order)[e] - 1] == p
  }

  lemma HiddenFollows(params: PosParams, f: Findings, order: seq<nat>, e: nat) returns (p: nat)
    requires VisitOrder(f, order) && StakesMatchPowers(params, f, order) && Hidden(params, f, e)
    ensures JustBefore(order, p, e) && Covers(params, f, p, e) && p in Positions(order)
    ensures Positions(order)[p] == Positions(order)[e] - 1
  {
    hide ShowAt, Positions;
    assert e in order;
    PositionsInvert(order, e);
    var i := Positions(order)[e];
    assert ShowAt(params, f, order[i], Previous(order, i));
    p := order[i - 1];
    assert p in order;
    PositionOf(order, i - 1);
  }

  lemma CoverFrom(params: PosParams, f: Findings, order: seq<nat>) returns (cover: map<nat, nat>, rank: map<nat, nat>)
    requires VisitOrder(f, order) && StakesMatchPowers(params, f, order)
    ensures Covered(params, f, cover, rank)
  {
    hide ShowAt, Positions, Covers, StakesMatchPowers;
    rank := Positions(order);
    var epochs := set k | k in f.stakes :: k.0;
    forall e ensures AnyStake(f, e) ==> e in rank && e in epochs {
      if AnyStake(f, e) {
        assert e in order;
        PositionsInvert(order, e);
      }
    }
    cover := CoverBefore(params, f, order, epochs);
  }

  lemma {:induction false} CoverBefore(params: PosParams, f: Findings, order: seq<nat>, epochs: set<nat>)
    returns (cover: map<nat, nat>)
    requires VisitOrder(f, order) && StakesMatchPowers(params, f, order)
    ensures forall e :: e in cover <==> e in epochs && Hidden(params, f, e)
    ensures forall e :: e in cover ==>
      && JustBefore(order, cover[e], e) && Covers(params, f, cover[e], e)
      && cover[e] in Positions(order) && Positions(order)[cover[e]] == Positions(order)[e] - 1
    decreases epochs
  {
    hide VisitOrder, StakesMatchPowers, Hidden, Positions, Covers;
    if epochs == {} {
      cover := map[];
    } else {
      var e :| e in epochs;
      cover := CoverBefore(params, f, order, epochs - {e});
      if Hidden(params, f, e) {
        var p := HiddenFollows(params, f, order, e);
        cover := cover[e := p];
      }
    }
  }

  // ---------- when the order matters ----------

  /** All but the one check that depends on the order. */
  ghost predicate CleanOtherwise(params: PosParams, f: Findings, current: nat) {
    && f.ok && TotalsMatchBonds(f) && SetsChecked(params, f, current) && PowersMatchStakes(params, f, current)
    && TotalPowerChecked(f) && f.newcomers == {} && f.balance == SumOf(f.bonds) + SumOf(f.unbonds)
  }

  ghost predicate OrderFree(params: PosParams, changes: seq<Change>, current: nat) {
    var f := Collect(params, current, changes);
    forall a, b :: VisitOrder(f, a) && VisitOrder(f, b) ==>
      (Accepts(params, changes, current, a) <==> Accepts(params, changes, current, b))
  }

  /** The verdict on a list of changes does not depend on the visiting order if and
      only if it fails another check, or all its changed stakes show by themselves,
      or the hidden ones cannot be covered. */
  lemma VerdictOrderFree(params: PosParams, changes: seq<Change>, current: nat)
    ensures OrderFree(params, changes, current) <==>
      var f := Collect(params, current, changes);
      || !CleanOtherwise(params, f, current)
      || ShowsEverywhere(params, f)
      || !exists cover, rank :: Covered(params, f, cover, rank)
  {
    hide Collect, CleanOtherwise, ShowsEverywhere, Covered, VisitOrder, StakesMatchPowers, Clean;
    var f := Collect(params, current, changes);
    PassInEveryOrder(params, f);
    SomeOrderPasses(params, f);
    forall order
      ensures Accepts(params, changes, current, order) <==>
        CleanOtherwise(params, f, current) && StakesMatchPowers(params, f, order)
    {
      CleanSplits(params, f, current, order);
    }
    SomeOrder(f);
  }

  lemma CleanSplits(params: PosParams, f: Findings, current: nat, order: seq<nat>)
    ensures Clean(params, f, current, order) <==>
      CleanOtherwise(params, f, current) && StakesMatchPowers(params, f, order)
  {
  }

  lemma SomeOrder(f: Findings)
    ensures exists order :: VisitOrder(f, order)
  {
    var epochs := set k | k in f.stakes :: k.0;
    var order := Arrange(epochs);
    assert VisitOrder(f, order);
  }
}
