/** The checks on the stake data that transitions have written within one epoch. */
module StakeReports {
  import opened Options
  import opened Timelines
  import opened Sums
  import opened Params
  import opened ValidatorSets
  import opened Ledger
  import opened StakeViews
  import opened CoreInvariant
  import opened EntryInvariant
  import opened CoreSteps
  import opened DeltaMaps
  import opened BondInvariant
  import opened Solvency
  import opened Validation
  import opened ValidationSound
  import opened WriterAgreement
  import opened ReportedChanges
  import opened Reports

  /** All the stake data of some validators are reported, and no others. */
  ghost predicate StakeKeys(keys: set<Key>, vs: set<Address>) {
    && (forall v :: TotalKey(v) in keys <==> v in vs)
    && (forall v :: PowerKey(v) in keys <==> v in vs)
    && (SetsKey in keys <==> vs != {}) && (TotalPowerKey in keys <==> vs != {})
  }

  predicate IsStakeKey(key: Key) {
    key.TotalKey? || key.PowerKey? || key.SetsKey? || key.TotalPowerKey?
  }

  lemma KnownStakes(s: Pos, t: Pos, vs: set<Address>, keys: set<Key>)
    requires StakesMoved(s, t, vs) && StakeKeys(keys, vs)
    ensures Known(s, t, keys) && vs <= s.totals.Keys && vs <= t.totals.Keys && vs <= s.powers.Keys
    ensures vs <= t.powers.Keys
  {
    hide Core, Entries, StakeMoved, StakeSame, StakeWritten;
    KnownKeys(s, t, vs);
  }

  lemma WrittenStake(s: Pos, t: Pos, vs: set<Address>, v: Address)
    requires StakesMoved(s, t, vs) && v in vs
    ensures v in s.totals && v in t.totals && v in s.powers && v in t.powers && v in t.states
    ensures StakeMoved(s, t, v) && StakeWritten(t, v) && Core(t)
    ensures t.epoch == s.epoch && t.params == s.params && 0 < s.params.pipelineLen < s.params.unbondingLen
    ensures s.powers[v].lastUpdate <= s.epoch
  {
    hide SetsTrack, StakesFit, SetsOk, PowersFollow, TotalPowerOk, Entries, StakeMoved, StakeSame, StateLine,
      MaxTotalVotingPower;
    KnownKeys(s, t, vs);
  }

  /** No error is found in the stake data themselves. */
  lemma StakeKeyOk(s: Pos, t: Pos, vs: set<Address>, keys: set<Key>, key: Key)
    requires StakesMoved(s, t, vs) && StakeKeys(keys, vs) && key in keys && IsStakeKey(key)
    ensures OkOf(s.params, s.epoch, Reported(s, t, key))
  {
    hide Core, Entries, TotalOk, PowerOk, Shift, Kept, At, StakesMoved;
    if key.TotalKey? {
      var v := key.validator;
      WrittenStake(s, t, vs, v);
      TotalAccepted(s.params, s.totals[v], t.totals[v], s.epoch);
    } else if key.PowerKey? {
      var v := key.validator;
      WrittenStake(s, t, vs, v);
      forall e | s.epoch <= e ensures At(t.powers[v], e) >= 0 {
        PowerIsOfStake(t, v, e);
      }
      PowerAccepted(s.params, t.powers[v], s.epoch);
    } else {
      SetsWritten(s, t, vs);
    }
  }

  lemma SetsWritten(s: Pos, t: Pos, vs: set<Address>)
    requires StakesMoved(s, t, vs) && vs != {}
    ensures t.sets.lastUpdate == t.totalPower.lastUpdate == s.epoch && s.totalPower.lastUpdate <= s.epoch
  {
    hide SetsTrack, StakesFit, SetsOk, PowersFollow, TotalPowerOk, Entries, StakeMoved, StakeSame, StakeWritten,
      StateLine, MaxTotalVotingPower;
  }

  lemma FindStakes(f: Findings, s: Pos, t: Pos, vs: set<Address>, keys: set<Key>)
    requires StakesMoved(s, t, vs) && StakeKeys(keys, vs) && Known(s, t, keys) && SummedStakes(f, s, t, keys)
    ensures vs <= s.totals.Keys && vs <= t.totals.Keys && FoundStakes(f, s, t, vs)
  {
    hide Core, Entries, Shift, Kept, At, StakesMoved, DeltaAt, StakeEntries;
    KnownStakes(s, t, vs, keys);
    forall k: (nat, Address) | k.1 in vs
      ensures var m, c, end := StakesFor(s, t, k.1), s.epoch, s.epoch + s.params.unbondingLen;
        && (k in m <==> c <= k.0 <= end && DeltaAt(t.totals[k.1], k.0).Some?)
        && (k in m ==> m[k].0 == At(s.totals[k.1], k.0) && m[k].1 == At(t.totals[k.1], k.0))
    {
      WrittenStake(s, t, vs, k.1);
      StakesOfOne(s.params, k.1, s.totals[k.1], t.totals[k.1], s.epoch, k);
    }
  }

  lemma FindPowers(f: Findings, s: Pos, t: Pos, vs: set<Address>, keys: set<Key>)
    requires StakesMoved(s, t, vs) && StakeKeys(keys, vs) && Known(s, t, keys) && SummedPowers(f, s, t, keys)
    ensures vs <= t.powers.Keys && FoundPowers(f, t, vs)
  {
    hide Core, Entries, Shift, Kept, At, StakesMoved, DeltaAt, PowerEntries, DiffsAt, SumOf;
    KnownStakes(s, t, vs, keys);
    MovedBasics(s, t, vs);
    forall k: (nat, Address) | k.1 in vs
      ensures var m, c, end := PowersFor(s, t, k.1), s.epoch, s.epoch + s.params.unbondingLen;
        && (k in m <==> c <= k.0 <= end && DeltaAt(t.powers[k.1], k.0).Some?)
        && (k in m ==> m[k] == At(t.powers[k.1], k.0))
    {
      var v := k.1;
      WrittenStake(s, t, vs, v);
      forall e | s.epoch <= e ensures At(t.powers[v], e) >= 0 {
        PowerIsOfStake(t, v, e);
      }
      PowersOfOne(s.params, v, t.powers[v], s.epoch, k);
    }
  }

  /** The expected differences in total voting power at an epoch. */
  lemma ExpectedAre(s: Pos, t: Pos, vs: set<Address>, keys: set<Key>, e: nat)
    requires StakesMoved(s, t, vs) && StakeKeys(keys, vs) && Known(s, t, keys)
    ensures SumOf(DiffsAt(s, t, keys, e)) ==
      RiseStep(s.totalPower, t.totalPower, s.epoch, s.epoch + s.params.unbondingLen, e)
  {
    hide Core, Entries, Shift, Kept, At, StakesMoved, PowerDiffs, SumOf, Rise;
    KnownStakes(s, t, vs, keys);
    var c, end, m := s.epoch, s.epoch + s.params.unbondingLen, DiffsAt(s, t, keys, e);
    forall v | v in vs
      ensures ValueAt(DiffsFor(s, t, v), e) == RiseStep(s.powers[v], t.powers[v], c, end, e)
    {
      WrittenStake(s, t, vs, v);
      DiffOfOne(s.powers[v], t.powers[v], c, end, e);
    }
    forall v ensures v in m <==> v in vs {
      if v in vs {
        assert PowerKey(v) in keys;
      }
    }
    if c < e <= end {
      var a, b := PowerChanges(s, t, vs, e), PowerChanges(s, t, vs, e - 1);
      TotalPowerChanges(s, t, vs, e);
      TotalPowerChanges(s, t, vs, e - 1);
      SumPointwise(m, b, a);
    } else if c == e <= end {
      TotalPowerChanges(s, t, vs, e);
      assert m == PowerChanges(s, t, vs, e);
    } else {
      SumPointwise(m, m, m);
    }
  }

  /** The differences in total voting power that are found. */
  lemma TotalDiffsAre(pre: Timeline<int>, post: Timeline<int>, c: nat, end: nat, e: nat)
    requires pre.lastUpdate <= c == post.lastUpdate
    ensures ValueAt(TotalPowerDiffs(pre, post, c, end), e) ==
      RiseStep(pre, post, c, end, e)
  {
    hide At, Delta, Opening;
    if c <= e <= end {
      DeltasDiffer(pre, post, c, e);
    }
  }

  lemma TotalPowerAccepted(f: Findings, s: Pos, t: Pos, vs: set<Address>, keys: set<Key>)
    requires StakesMoved(s, t, vs) && StakeKeys(keys, vs) && Known(s, t, keys) && SummedPowers(f, s, t, keys)
    requires SummedRest(f, s, t, keys)
    ensures TotalPowerChecked(f)
  {
    hide StakesMoved, StakeKeys, SumOf, DiffsAt, TotalPowerDiffs, PowersFor, RiseStep;
    forall e | e in f.expected ensures f.expected[e] == ValueAt(f.totalPower, e) {
      ExpectedAre(s, t, vs, keys, e);
      assert ValueAt(f.expected, e) == SumOf(DiffsAt(s, t, keys, e));
      TotalPowerFound(f, s, t, vs, keys, e);
    }
  }

  lemma TotalPowerFound(f: Findings, s: Pos, t: Pos, vs: set<Address>, keys: set<Key>, e: nat)
    requires StakesMoved(s, t, vs) && StakeKeys(keys, vs) && SummedRest(f, s, t, keys)
    ensures ValueAt(f.totalPower, e) ==
      RiseStep(s.totalPower, t.totalPower, s.epoch, s.epoch + s.params.unbondingLen, e)
  {
    hide Core, Entries, StakeMoved, StakeSame, StakeWritten, TotalPowerDiffs, At;
    if vs != {} {
      SetsWritten(s, t, vs);
      TotalDiffsAre(s.totalPower, t.totalPower, s.epoch, s.epoch + s.params.unbondingLen, e);
      assert map[] + TotalPowerDiffs(s.totalPower, t.totalPower, s.epoch, s.epoch + s.params.unbondingLen) ==
        TotalPowerDiffs(s.totalPower, t.totalPower, s.epoch, s.epoch + s.params.unbondingLen);
    }
  }

  /** The net change of a validator's stake. */
  lemma NetIs(s: Pos, t: Pos, vs: set<Address>, v: Address)
    requires StakesMoved(s, t, vs) && v in vs
    ensures v in s.totals && v in t.totals
    ensures Net(s, t, v) == Rise(s.totals[v], t.totals[v], s.epoch + s.params.unbondingLen)
  {
    hide StakesMoved, Core, Kept, Shift, At, PreSum, PostSum;
    WrittenStake(s, t, vs, v);
    TotalAccepted(s.params, s.totals[v], t.totals[v], s.epoch);
  }

  /** The checks on stakes, voting powers and validator sets find nothing, except
      that the voting powers must be aligned. */
  lemma StakesChecked(f: Findings, s: Pos, t: Pos, vs: set<Address>, keys: set<Key>, order: seq<nat>)
    requires StakesMoved(s, t, vs) && StakeKeys(keys, vs) && Known(s, t, keys) && Summed(f, s, t, keys)
    ensures SetsChecked(s.params, f, s.epoch) && StakesMatchPowers(s.params, f, order) && TotalPowerChecked(f)
    ensures f.newcomers == {}
    ensures vs <= t.totals.Keys && vs <= t.powers.Keys && (PowersMatchStakes(s.params, f, s.epoch) <==> Aligned(t, vs))
  {
    hide StakesMoved, SummedBonds, SummedUnbonds, SummedTotals, SummedPowers, SetsChecked, StakesMatchPowers,
      TotalPowerChecked, PowersMatchStakes, Aligned, StakesFor, FoundStakes, FoundPowers;
    FindStakes(f, s, t, vs, keys);
    FindPowers(f, s, t, vs, keys);
    PowersChecked(f, s, t, vs, order);
    TotalPowerAccepted(f, s, t, vs, keys);
    if vs == {} {
      NoPowers(f, s, t);
    } else {
      SetsAccepted(f, s, t, vs);
    }
  }

  lemma NoPowers(f: Findings, s: Pos, t: Pos)
    requires FoundPowers(f, t, {}) && f.sets == None
    ensures SetsChecked(s.params, f, s.epoch)
  {
    hide DeltaAt, At;
    assert f.powers == map[];
  }

  // ---------- the verdict ----------

  /** The net change of a validator's stake within the epoch. */
  ghost function NetOf(s: Pos, t: Pos, v: Address): int {
    Stake(t, v, s.epoch + s.params.unbondingLen) - Stake(s, v, s.epoch + s.params.unbondingLen)
  }

  /** The stake of a validator has changed in the end. */
  ghost predicate Restaked(s: Pos, t: Pos, vs: set<Address>, v: Address) {
    v in vs && NetOf(s, t, v) != 0
  }

  /** The contributions of a validator's bonds and unbonds against its stake. */
  ghost predicate NetMatches(s: Pos, t: Pos, vs: set<Address>, keys: set<Key>, v: Address) {
    if Restaked(s, t, vs, v) then SumOf(BondsTo(s, t, keys, v)) == NetOf(s, t, v)
    else !Contributes(s, t, keys, v) && SumOf(UnbondsTo(s, t, keys, v)) <= 0
  }

  ghost predicate BalanceMatches(s: Pos, t: Pos, keys: set<Key>) {
    (if BalanceKey in keys then t.balance - s.balance else 0) ==
      SumOf(AllBonds(s, t, keys)) + SumOf(AllUnbonds(s, t, keys))
  }

  /** No error is found in the reported balance, bonds and unbonds themselves. */
  ghost predicate TokenKeysOk(s: Pos, t: Pos, keys: set<Key>) {
    forall k :: k in keys && !IsStakeKey(k) ==> OkOf(s.params, s.epoch, Reported(s, t, k))
  }

  lemma NetOfStake(s: Pos, t: Pos, vs: set<Address>, v: Address)
    requires StakesMoved(s, t, vs) && v in vs
    ensures v in s.totals && v in t.totals && Net(s, t, v) == NetOf(s, t, v)
  {
    hide StakesMoved, At, Net;
    NetIs(s, t, vs, v);
  }

  lemma TotalsChecked(f: Findings, s: Pos, t: Pos, vs: set<Address>, keys: set<Key>)
    requires StakesMoved(s, t, vs) && StakeKeys(keys, vs) && Known(s, t, keys)
    requires SummedTotals(f, s, t, keys) && SummedBonds(f, s, t, keys) && SummedUnbonds(f, s, t, keys)
    ensures TotalsMatchBonds(f) <==> forall v :: NetMatches(s, t, vs, keys, v)
  {
    hide StakesMoved, BondsTo, UnbondsTo, AllBonds, AllUnbonds, Contributes, SumOf, Net, NetOf;
    forall v ensures v in f.totals <==> Restaked(s, t, vs, v) && v in s.totals && v in t.totals {
      if v in vs { NetOfStake(s, t, vs, v); }
    }
    forall v | v in f.totals ensures f.totals[v] == NetOf(s, t, v) {
      NetOfStake(s, t, vs, v);
    }
    forall v ensures v in f.totals <==> Restaked(s, t, vs, v) {
      if v in vs { NetOfStake(s, t, vs, v); }
    }
    if TotalsMatchBonds(f) {
      forall v ensures NetMatches(s, t, vs, keys, v) {
        assert ValueAt(f.bonds, v) == SumOf(BondsTo(s, t, keys, v))
          && ValueAt(f.unbonds, v) == SumOf(UnbondsTo(s, t, keys, v));
      }
    }
    if forall v :: NetMatches(s, t, vs, keys, v) {
      forall v ensures (v in f.totals ==> f.totals[v] == ValueAt(f.bonds, v)) && (v in f.bonds ==> v in f.totals)
      ensures v in f.unbonds && f.unbonds[v] > 0 ==> v in f.totals
      {
        assert NetMatches(s, t, vs, keys, v);
        assert ValueAt(f.bonds, v) == SumOf(BondsTo(s, t, keys, v))
          && ValueAt(f.unbonds, v) == SumOf(UnbondsTo(s, t, keys, v));
      }
    }
  }

  /** Exactly when the check accepts the changes between two sound states within one
      epoch, whatever the order in which they are reported and the epochs visited. */
  lemma AcceptsIff(changes: seq<Change>, s: Pos, t: Pos, vs: set<Address>, order: seq<nat>)
    requires StakesMoved(s, t, vs) && Genuine(changes, s, t) && StakeKeys(KeysIn(changes), vs)
    ensures vs <= t.totals.Keys && vs <= t.powers.Keys
    ensures var keys := KeysIn(changes);
      Accepts(s.params, changes, s.epoch, order) <==>
        && TokenKeysOk(s, t, keys) && (forall v :: NetMatches(s, t, vs, keys, v)) && BalanceMatches(s, t, keys)
        && Aligned(t, vs)
  {
    hide StakesMoved, KeysIn, Collect, Genuine, StakeKeys, Known, OkOf, Reported, SummedTotals, SummedStakes,
      SummedPowers, TotalsMatchBonds, SetsChecked, PowersMatchStakes, StakesMatchPowers, TotalPowerChecked, Aligned,
      NetMatches, SumOf, AllBonds, AllUnbonds, BondsTo, UnbondsTo, Contributes, IsStakeKey;
    var keys, f := KeysIn(changes), Collect(s.params, s.epoch, changes);
    KnownStakes(s, t, vs, keys);
    CollectGenuine(changes, s, t);
    CollectOk(changes, s, t);
    StakesChecked(f, s, t, vs, keys, order);
    TotalsChecked(f, s, t, vs, keys);
    forall k | k in keys && IsStakeKey(k) ensures OkOf(s.params, s.epoch, Reported(s, t, k)) {
      StakeKeyOk(s, t, vs, keys, k);
    }
  }

  // ---------- transitions ----------

  /** Only the stake data count. */
  lemma SameStakes(s: Pos, m: Pos, t: Pos, vs: set<Address>)
    requires StakesMoved(s, m, vs) && Core(t) && t.epoch == m.epoch && t.params == m.params && t.states == m.states
    requires t.totals == m.totals && t.powers == m.powers && t.sets == m.sets && t.totalPower == m.totalPower
    ensures StakesMoved(s, t, vs)
  {
    hide Core, Shift, Kept, EntriesMatch;
    SameEntries(m, t);
    KnownKeys(s, m, vs);
    forall v | v in s.states ensures StakeMoved(s, t, v) && if v in vs then StakeWritten(t, v) else StakeSame(s, t, v) {
      assert StakeMoved(s, m, v);
    }
  }

  lemma BondMoves(s: Pos, m: Pos, vs: set<Address>, source: Option<Address>, v: Address, amount: nat, t: Pos)
    requires StakesMoved(s, m, vs) && WindowsFit(m) && BondTokens(m, source, v, amount) == Ok(t)
    ensures StakesMoved(s, t, vs + {v})
  {
    hide Entries, StakeMoved, StakeSame, StakeWritten, SetsTrack, StakesFit, SetsOk, PowersFollow, TotalPowerOk,
      Windows, BondTokens, Changed, BondAfter, MaxTotalVotingPower;
    var u := BondParts(m, source, v, amount, t);
    MovedMore(s, m, vs, v, amount, m.params.pipelineLen, u);
    BondCore(m, source, v, amount, t);
    SameStakes(s, u, t, vs + {v});
  }

  lemma UnbondMoves(s: Pos, m: Pos, vs: set<Address>, source: Option<Address>, v: Address, amount: nat,
                    taken: seq<Bond>, t: Pos)
    requires StakesMoved(s, m, vs) && WindowsFit(m) && UnbondTokens(m, source, v, amount, taken) == Ok(t)
    requires Takeable(m, IdOf(source, v), amount, taken)
    ensures StakesMoved(s, t, vs + {v})
  {
    hide Entries, StakeMoved, StakeSame, StakeWritten, SetsTrack, StakesFit, SetsOk, PowersFollow, TotalPowerOk,
      Windows, UnbondTokens, Changed, BondLeft, UnbondAfter, MaxTotalVotingPower, Takeable, SumOf, Get, WorthInAll;
    var u := UnbondParts(m, source, v, amount, taken, t);
    MovedMore(s, m, vs, v, 0 - WorthInAll(taken, SlashesOf(m, v)) as int, m.params.unbondingLen, u);
    UnbondCore(m, source, v, amount, taken, t);
    SameStakes(s, u, t, vs + {v});
  }

  lemma WithdrawMoves(s: Pos, m: Pos, vs: set<Address>, source: Option<Address>, v: Address, t: Pos)
    requires StakesMoved(s, m, vs) && WindowsFit(m) && BondsShaped(m) && WithdrawTokens(m, source, v) == Ok(t)
    ensures StakesMoved(s, t, vs)
  {
    hide Entries, StakeMoved, StakeSame, StakeWritten, SetsTrack, StakesFit, SetsOk, PowersFollow, TotalPowerOk,
      Windows, WithdrawTokens, BondsShaped, MaxTotalVotingPower, DueBy, UnbondsOf, AddAmounts, Withdrawable;
    WithdrawEffect(m, source, v, t);
    WithdrawCore(m, source, v, t);
    SameStakes(s, m, t, vs);
  }
}
