/**
 The order of visiting for changes of one validator's stake: whether some order
 passes is a matter of counting, and an accepted list of changes whose verdict
 depends on the order.
 */
module OrderCounting {
  import opened Options
  import opened Timelines
  import opened Sums
  import opened Params
  import opened ValidatorSets
  import opened Ledger
  import opened Validation
  import opened CheckOrder

  // ---------- matching by value ----------

  ghost function Having(m: map<nat, nat>, x: nat): set<nat> {
    set e | e in m && m[e] == x
  }

  /** Every element is matched with one of its own that has the same value. */
  ghost predicate Matches(found: map<nat, nat>, h: map<nat, nat>, g: map<nat, nat>) {
    && found.Keys == h.Keys
    && (forall e :: e in found ==> found[e] in g && g[found[e]] == h[e])
    && (forall d, e :: d in found && e in found && found[d] == found[e] ==> d == e)
  }

  lemma HavingWithout(m: map<nat, nat>, e: nat, x: nat)
    requires e in m
    ensures Having(m - {e}, x) == Having(m, x) - {e}
    ensures |Having(m - {e}, x)| == |Having(m, x)| - if m[e] == x then 1 else 0
  {
    assert Having(m - {e}, x) == Having(m, x) - {e};
  }

  lemma {:induction false} MatchUp(h: map<nat, nat>, g: map<nat, nat>) returns (found: map<nat, nat>)
    requires forall x :: |Having(h, x)| <= |Having(g, x)|
    ensures Matches(found, h, g)
    decreases |h|
  {
    if h == map[] {
      found := map[];
    } else {
      hide Matches;
      var e :| e in h;
      var p := Partner(h, g, e);
      forall x ensures |Having(h - {e}, x)| <= |Having(g - {p}, x)| {
        HavingWithout(h, e, x);
        HavingWithout(g, p, x);
      }
      var rest := MatchUp(h - {e}, g - {p});
      found := rest[e := p];
      MatchOne(rest, h, g, e, p);
    }
  }

  lemma Partner(h: map<nat, nat>, g: map<nat, nat>, e: nat) returns (p: nat)
    requires e in h && |Having(h, h[e])| <= |Having(g, h[e])|
    ensures p in g && g[p] == h[e]
  {
    assert e in Having(h, h[e]);
    assert Having(g, h[e]) != {};
    p :| p in Having(g, h[e]);
  }

  lemma MatchOne(rest: map<nat, nat>, h: map<nat, nat>, g: map<nat, nat>, e: nat, p: nat)
    requires e in h && p in g && g[p] == h[e] && Matches(rest, h - {e}, g - {p})
    ensures Matches(rest[e := p], h, g)
  {
  }

  lemma {:induction false} FewerOrEqual(a: set<nat>, b: set<nat>, found: map<nat, nat>)
    requires forall e :: e in a ==> e in found && found[e] in b
    requires forall d, e :: d in a && e in a && found[d] == found[e] ==> d == e
    ensures |a| <= |b|
    decreases a
  {
    if a != {} {
      var e :| e in a;
      FewerOrEqual(a - {e}, b - {found[e]}, found);
    }
  }

  lemma MatchCounts(found: map<nat, nat>, h: map<nat, nat>, g: map<nat, nat>, x: nat)
    requires Matches(found, h, g)
    ensures |Having(h, x)| <= |Having(g, x)|
  {
    FewerOrEqual(Having(h, x), Having(g, x), found);
  }

  // ---------- one validator ----------

  ghost predicate OneValidator(f: Findings, v: Address) {
    forall k :: k in f.stakes ==> k.1 == v
  }

  /** Only one validator's total deltas are among the changes. */
  ghost predicate ChangesOne(changes: seq<Change>, v: Address) {
    forall i :: 0 <= i < |changes| && changes[i].TotalDeltasChange? ==> changes[i].address == v
  }

  lemma {:induction false} FindingsOfOne(params: PosParams, current: nat, changes: seq<Change>, v: Address)
    requires ChangesOne(changes, v)
    ensures OneValidator(Collect(params, current, changes), v)
    decreases |changes|
  {
    hide OkOf, BondsAfter, UnbondsAfter, TotalsAfter, ExpectedAfter, PowersAfter, SetsAfter, TotalPowerAfter,
      NewcomersAfter, BalanceAfter, PreSum, PostSum, DeltaAt;
    if changes != [] {
      FindingsOfOne(params, current, changes[..|changes| - 1], v);
    }
  }

  /** The epochs whose changed stake makes a difference but has no voting power,
      with the voting power that it should have. */
  ghost function Missing(params: PosParams, f: Findings, v: Address): map<nat, nat> {
    map k | k in f.stakes && k.1 == v && k !in f.powers
      && VotingPower(params, f.stakes[k].0) != VotingPower(params, f.stakes[k].1) ::
      k.0 := VotingPower(params, f.stakes[k].1)
  }

  /** The epochs with a changed stake and a voting power, and that power. */
  ghost function Written(f: Findings, v: Address): map<nat, nat> {
    map k | k in f.stakes && k.1 == v && k in f.powers :: k.0 := f.powers[k]
  }

  /** No voting power differs from that of its stake. */
  ghost predicate NoneWrong(params: PosParams, f: Findings) {
    forall k :: k in f.stakes && k in f.powers ==> f.powers[k] == VotingPower(params, f.stakes[k].1)
  }

  /** For every voting power, it is missing at no more epochs than it is written at. */
  ghost predicate Enough(params: PosParams, f: Findings, v: Address) {
    forall x :: |Having(Missing(params, f, v), x)| <= |Having(Written(f, v), x)|
  }

  lemma MissingAt(params: PosParams, f: Findings, v: Address, e: nat)
    requires OneValidator(f, v) && NoneWrong(params, f)
    ensures e in Missing(params, f, v) <==> Hidden(params, f, e)
    ensures e in Missing(params, f, v) ==>
      (e, v) in f.stakes && Missing(params, f, v)[e] == VotingPower(params, f.stakes[(e, v)].1)
    ensures e in Written(f, v) ==> (e, v) in f.stakes && (e, v) in f.powers && Written(f, v)[e] == f.powers[(e, v)]
    ensures (e, v) in f.stakes && (e, v) in f.powers ==> e in Written(f, v)
  {
    hide VotingPower;
    if (e, v) in f.stakes {
      assert AnyStake(f, e);
      assert ShowAt(params, f, e, None) <==> StakeShows(params, f, (e, v), None);
    }
  }

  lemma CoversByPower(params: PosParams, f: Findings, v: Address, p: nat, e: nat)
    requires OneValidator(f, v) && NoneWrong(params, f) && e in Missing(params, f, v)
    ensures Covers(params, f, p, e) <==> p in Written(f, v) && Written(f, v)[p] == Missing(params, f, v)[e]
  {
    hide VotingPower, Hidden, Missing, Written;
    MissingAt(params, f, v, e);
    MissingAt(params, f, v, p);
    MissingNotWritten(params, f, v, e);
    if AnyStake(f, p) {
      assert (p, v) in f.stakes;
    }
    assert ShowAt(params, f, e, Some(p)) <==> StakeShows(params, f, (e, v), Some(p));
    if p in Written(f, v) {
      assert AnyStake(f, p);
    }
  }

  lemma MissingNotWritten(params: PosParams, f: Findings, v: Address, e: nat)
    requires e in Missing(params, f, v)
    ensures e !in Written(f, v) && (e, v) in f.stakes && (e, v) !in f.powers
    ensures VotingPower(params, f.stakes[(e, v)].0) != VotingPower(params, f.stakes[(e, v)].1)
  {
    hide VotingPower;
  }

  /** The hidden epochs of one validator can be covered if and only if no voting
      power is wrong and none is missing more often than it is written. */
  lemma CoveredIffEnough(params: PosParams, f: Findings, v: Address)
    requires OneValidator(f, v)
    ensures (exists cover, rank :: Covered(params, f, cover, rank)) <==> NoneWrong(params, f) && Enough(params, f, v)
  {
    if NoneWrong(params, f) && Enough(params, f, v) {
      var cover, rank := CoverByCounting(params, f, v);
    }
    if cover, rank :| Covered(params, f, cover, rank) {
      CoveredNoneWrong(params, f, cover, rank);
      CoveredEnough(params, f, v, cover, rank);
    }
  }

  lemma CoveredNoneWrong(params: PosParams, f: Findings, cover: map<nat, nat>, rank: map<nat, nat>)
    requires Covered(params, f, cover, rank)
    ensures NoneWrong(params, f)
  {
    hide VotingPower;
    forall k | k in f.stakes && k in f.powers ensures f.powers[k] == VotingPower(params, f.stakes[k].1) {
      assert AnyStake(f, k.0);
      if Hidden(params, f, k.0) {
        assert Covers(params, f, cover[k.0], k.0);
        assert StakeShows(params, f, k, Some(cover[k.0]));
      } else {
        assert StakeShows(params, f, k, None);
      }
    }
  }

  lemma CoveredEnough(params: PosParams, f: Findings, v: Address, cover: map<nat, nat>, rank: map<nat, nat>)
    requires OneValidator(f, v) && NoneWrong(params, f) && Covered(params, f, cover, rank)
    ensures Enough(params, f, v)
  {
    hide Missing, Written, Hidden, Covers, Having;
    var h, g := Missing(params, f, v), Written(f, v);
    forall e ensures e in h <==> e in cover {
      MissingAt(params, f, v, e);
    }
    forall e | e in h ensures cover[e] in g && g[cover[e]] == h[e] {
      CoversByPower(params, f, v, cover[e], e);
    }
    forall x ensures |Having(h, x)| <= |Having(g, x)| {
      MatchCounts(cover, h, g, x);
    }
  }

  lemma CoverByCounting(params: PosParams, f: Findings, v: Address) returns (cover: map<nat, nat>, rank: map<nat, nat>)
    requires OneValidator(f, v) && NoneWrong(params, f) && Enough(params, f, v)
    ensures Covered(params, f, cover, rank)
  {
    hide Missing, Written, Hidden, Covers, Having;
    var h, g := Missing(params, f, v), Written(f, v);
    cover := MatchUp(h, g);
    var epochs := set k | k in f.stakes :: k.0;
    rank := map e | e in epochs :: if e in h then 1 else 0;
    forall e ensures e in cover <==> Hidden(params, f, e) {
      MissingAt(params, f, v, e);
    }
    forall e | e in cover
      ensures Covers(params, f, cover[e], e) && cover[e] in rank && e in rank && rank[cover[e]] < rank[e]
    {
      CoversByPower(params, f, v, cover[e], e);
      MissingAt(params, f, v, e);
      MissingAt(params, f, v, cover[e]);
      if cover[e] in h {
        MissingNotWritten(params, f, v, cover[e]);
      }
      assert (e, v) in f.stakes && (cover[e], v) in f.stakes;
    }
  }

  /** The verdict on changes of one validator's stake does not depend on the order
      if and only if they fail another check, or no voting power is missing, or one
      is missing at more epochs than it is written at. */
  lemma OneValidatorOrderFree(params: PosParams, changes: seq<Change>, current: nat, v: Address)
    requires ChangesOne(changes, v)
    ensures OrderFree(params, changes, current) <==>
      var f := Collect(params, current, changes);
      || !CleanOtherwise(params, f, current)
      || Missing(params, f, v) == map[]
      || !Enough(params, f, v)
  {
    hide Collect, CleanOtherwise, Covered, OrderFree, Enough, Missing, ShowsEverywhere;
    var f := Collect(params, current, changes);
    FindingsOfOne(params, current, changes, v);
    VerdictOrderFree(params, changes, current);
    CoveredIffEnough(params, f, v);
    if CleanOtherwise(params, f, current) {
      CleanNoneWrong(params, f, current, v);
      NoneMissing(params, f, v);
    }
  }

  lemma CleanNoneWrong(params: PosParams, f: Findings, current: nat, v: Address)
    requires CleanOtherwise(params, f, current) && OneValidator(f, v)
    ensures NoneWrong(params, f)
  {
    hide VotingPower, SetsChecked, TotalsMatchBonds, TotalPowerChecked, SumOf;
    forall k | k in f.stakes && k in f.powers ensures f.powers[k] == VotingPower(params, f.stakes[k].1) {
      assert AnyStake(f, k.0);
      assert PowerMatches(params, f, current, k);
    }
  }

  lemma NoneMissing(params: PosParams, f: Findings, v: Address)
    requires OneValidator(f, v) && NoneWrong(params, f)
    ensures ShowsEverywhere(params, f) <==> Missing(params, f, v) == map[]
  {
    hide VotingPower;
    if Missing(params, f, v) == map[] {
      forall k | k in f.stakes ensures StakeShows(params, f, k, None) {
        assert k.0 !in Missing(params, f, v);
      }
    }
    if Missing(params, f, v) != map[] {
      var e :| e in Missing(params, f, v);
      assert !StakeShows(params, f, (e, v), None);
    }
  }
}
