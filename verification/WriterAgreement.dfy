/**
 The stake data that transitions write within one epoch, for any number of
 validators, and what the check finds in it.
 */
module WriterAgreement {
  import opened Options
  import opened Timelines
  import opened Sums
  import opened Params
  import opened ValidatorSets
  import opened Ledger
  import opened StakeViews
  import opened CoreInvariant
  import opened EntryInvariant
  import opened Validation
  import opened ValidationSound

  // ---------- how stakes move within an epoch ----------

  /** How much a value has risen at an epoch. */
  ghost function Rise(pre: Timeline<int>, post: Timeline<int>, epoch: nat): int {
    At(post, epoch) - At(pre, epoch)
  }

  /** What an epoch of the window adds to the rise. */
  ghost function RiseStep(pre: Timeline<int>, post: Timeline<int>, c: nat, end: nat, e: nat): int {
    if c < e <= end then Rise(pre, post, e) - Rise(pre, post, e - 1) else if c == e <= end then Rise(pre, post, c)
      else 0
  }

  /** Up by one amount from the pipeline offset on, and down by another from the
      unbonding offset on. */
  ghost predicate Shift(params: PosParams, pre: Timeline<int>, post: Timeline<int>, c: nat) {
    var pipeline, unbonding := c + params.pipelineLen, c + params.unbondingLen;
    && pre.lastUpdate <= c && post.lastUpdate <= c
    && (forall e :: c <= e ==> FitsU64(At(pre, e)) && FitsU64(At(post, e)))
    && (forall e :: c <= e < pipeline ==> Rise(pre, post, e) == 0)
    && (forall e :: pipeline <= e < unbonding ==> Rise(pre, post, e) == Rise(pre, post, pipeline))
    && (forall e :: unbonding <= e ==> Rise(pre, post, e) == Rise(pre, post, unbonding))
    && 0 <= Rise(pre, post, pipeline) && Rise(pre, post, unbonding) <= Rise(pre, post, pipeline)
  }

  /** Entries that there were are still there. */
  ghost predicate Kept(pre: Timeline<int>, post: Timeline<int>, c: nat) {
    forall x :: c <= x && HasEntry(pre, c, x) ==> HasEntry(post, c, x)
  }

  ghost predicate StakeMoved(s: Pos, t: Pos, v: Address)
    requires v in s.totals && v in t.totals && v in s.powers && v in t.powers
  {
    && Shift(s.params, s.totals[v], t.totals[v], s.epoch)
    && Kept(s.totals[v], t.totals[v], s.epoch) && Kept(s.powers[v], t.powers[v], s.epoch)
  }

  ghost predicate StakeWritten(t: Pos, v: Address)
    requires v in t.totals && v in t.powers
  {
    t.totals[v].lastUpdate == t.powers[v].lastUpdate == t.epoch
  }

  ghost predicate StakeSame(s: Pos, t: Pos, v: Address)
    requires v in s.totals && v in t.totals && v in s.powers && v in t.powers
  {
    t.totals[v] == s.totals[v] && t.powers[v] == s.powers[v]
  }

  /** Two sound states within one epoch, and the validators whose stake data were
      written in between. */
  ghost predicate StakesMoved(s: Pos, t: Pos, vs: set<Address>) {
    && Core(s) && Core(t) && Entries(t)
    && t.epoch == s.epoch && t.params == s.params && t.states == s.states && vs <= s.states.Keys
    && (forall v :: v in s.states ==> StakeMoved(s, t, v) && if v in vs then StakeWritten(t, v) else StakeSame(s, t, v))
    && (if vs == {} then t.sets == s.sets && t.totalPower == s.totalPower
        else t.sets.lastUpdate == t.totalPower.lastUpdate == s.epoch)
  }

  lemma Unmoved(s: Pos)
    requires Core(s) && Entries(s)
    ensures StakesMoved(s, s, {})
  {
    hide SetsTrack, SetsOk, PowersFollow, TotalPowerOk, At, Entries, HasEntry, StateLine, MaxTotalVotingPower;
    forall v | v in s.states ensures StakeMoved(s, s, v) {
      forall e | s.epoch <= e ensures FitsU64(At(s.totals[v], e)) {
        assert FitsU64(Stake(s, v, e));
      }
    }
  }

  lemma ShiftMore(params: PosParams, pre: Timeline<int>, mid: Timeline<int>, post: Timeline<int>, change: int, i: nat,
                  c: nat)
    requires Shift(params, pre, mid, c) && post.lastUpdate == c && params.pipelineLen < params.unbondingLen
    requires forall e :: c <= e ==> At(post, e) == At(mid, e) + if e < c + i then 0 else change
    requires forall e :: c <= e ==> FitsU64(At(post, e))
    requires (change > 0 && i == params.pipelineLen) || (change <= 0 && i == params.unbondingLen)
    ensures Shift(params, pre, post, c)
  {
    hide At;
    forall e | c <= e ensures Rise(pre, post, e) == Rise(pre, mid, e) + if e < c + i then 0 else change {
    }
    assert c <= c + params.pipelineLen && c <= c + params.unbondingLen;
  }

  lemma KeptMore(pre: Timeline<int>, mid: Timeline<int>, post: Timeline<int>, c: nat)
    requires Kept(pre, mid, c) && post.lastUpdate == c
    requires forall x :: c <= x && HasEntry(mid, c, x) ==> DeltaAt(post, x).Some?
    ensures Kept(pre, post, c)
  {
    hide Get, DeltaAt;
    HeadEntry(post);
  }

  /** A change of stake keeps what is known of sound states and writes one
      validator's stake data. */
  lemma ChangeWritten(m: Pos, v: Address, change: int, i: nat, t: Pos)
    requires Core(m) && Entries(m) && Changed(m, v, change, i, t) && m.params.pipelineLen <= i
    ensures Core(t) && Entries(t) && t.epoch == m.epoch && t.params == m.params && t.states == m.states
    ensures v in t.totals && v in t.powers && t.totals == m.totals[v := t.totals[v]]
    ensures t.powers == m.powers[v := t.powers[v]]
    ensures StakeWritten(t, v) && t.sets.lastUpdate == t.totalPower.lastUpdate == m.epoch
  {
    hide SetsTrack, StakesFit, SetsOk, PowersFollow, TotalPowerOk, ChangeStake, EntriesMatch, StateLine,
      MaxTotalVotingPower, AddAt, UpdateFrom, UpdatePowers, Mover, MoveFits, Entries, Fits;
    ChangeCore(m, v, change, i, t);
    ChangeEntries(m, v, change, i, t);
    ChangeFrame(m, v, change, i, t);
    ChangeWindows(m, v, change, i, t);
    ChangePowers(m, v, change, i, t);
    AddAtShape(AddInts, m.totals[v], change, m.epoch, i, m.params.unbondingLen);
  }

  /** One more change of stake: of tokens bonded or unbonded now. */
  lemma MovedMore(s: Pos, m: Pos, vs: set<Address>, v: Address, change: int, i: nat, t: Pos)
    requires StakesMoved(s, m, vs) && Changed(m, v, change, i, t)
    requires (change > 0 && i == s.params.pipelineLen) || (change <= 0 && i == s.params.unbondingLen)
    ensures StakesMoved(s, t, vs + {v})
  {
    hide Core, Entries, Changed, StakeMoved, StakeSame;
    KnownKeys(s, m, vs);
    ChangeWritten(m, v, change, i, t);
    ChangeOfKnown(m, v, change, i, t);
    MovedTotal(s, m, v, change, i, t);
    MovedPower(s, m, v, change, i, t);
    forall w | w in s.states ensures
      && w in t.totals && w in t.powers && StakeMoved(s, t, w)
      && if w in vs + {v} then StakeWritten(t, w) else StakeSame(s, t, w)
    {
      MovedOther(s, m, vs, v, t, w);
    }
  }

  lemma ChangeOfKnown(m: Pos, v: Address, change: int, i: nat, t: Pos)
    requires Core(m) && Changed(m, v, change, i, t)
    ensures v in m.states
  {
    hide SetsTrack, StakesFit, SetsOk, PowersFollow, TotalPowerOk, ChangeStake, StateLine, MaxTotalVotingPower;
  }

  lemma MovedOther(s: Pos, m: Pos, vs: set<Address>, v: Address, t: Pos, w: Address)
    requires StakesMoved(s, m, vs) && w in s.states
    requires s.totals.Keys == s.powers.Keys == s.states.Keys == m.totals.Keys == m.powers.Keys
    requires v in s.states && v in t.totals && v in t.powers && t.epoch == m.epoch
    requires t.totals == m.totals[v := t.totals[v]] && t.powers == m.powers[v := t.powers[v]] && StakeWritten(t, v)
    requires Shift(s.params, s.totals[v], t.totals[v], s.epoch)
    requires Kept(s.totals[v], t.totals[v], s.epoch) && Kept(s.powers[v], t.powers[v], s.epoch)
    ensures w in t.totals && w in t.powers && StakeMoved(s, t, w)
    ensures if w in vs + {v} then StakeWritten(t, w) else StakeSame(s, t, w)
  {
    hide Core, Entries, Shift, Kept;
    assert StakeMoved(s, m, w);
  }

  lemma MovedTotal(s: Pos, m: Pos, v: Address, change: int, i: nat, t: Pos)
    requires Core(m) && Core(t) && Changed(m, v, change, i, t) && m.epoch == s.epoch && m.params == s.params
    requires t.epoch == s.epoch
    requires v in s.totals && v in s.powers && v in t.totals && v in t.states && StakeMoved(s, m, v)
    requires (change > 0 && i == s.params.pipelineLen) || (change <= 0 && i == s.params.unbondingLen)
    ensures Shift(s.params, s.totals[v], t.totals[v], s.epoch) && Kept(s.totals[v], t.totals[v], s.epoch)
  {
    hide SetsTrack, SetsOk, PowersFollow, TotalPowerOk, ChangeStake, StateLine, MaxTotalVotingPower, At, Shift, Kept,
      AddAt, UpdateFrom, UpdatePowers, Mover, MoveFits, HasEntry, DeltaAt;
    var c, off := s.epoch, s.params.unbondingLen;
    ChangeFrame(m, v, change, i, t);
    ChangeStakes(m, v, change, i, t);
    forall e | c <= e
      ensures FitsU64(At(t.totals[v], e)) && At(t.totals[v], e) == At(m.totals[v], e) + if e < c + i then 0 else change
    {
      assert FitsU64(Stake(t, v, e));
      assert Stake(t, v, e) == Stake(m, v, e) + if e < c + i then 0 else change;
    }
    AddAtShape(AddInts, m.totals[v], change, c, i, off);
    ShiftMore(s.params, s.totals[v], m.totals[v], t.totals[v], change, i, c);
    forall x | c <= x && HasEntry(m.totals[v], c, x) ensures DeltaAt(t.totals[v], x).Some? {
      AddAtSome(m.totals[v], change, c, i, off, x);
    }
    KeptMore(s.totals[v], m.totals[v], t.totals[v], c);
  }

  lemma MovedPower(s: Pos, m: Pos, v: Address, change: int, i: nat, t: Pos)
    requires Core(m) && Changed(m, v, change, i, t) && m.epoch == s.epoch && m.params == s.params && t.epoch == s.epoch
    requires v in s.totals && v in s.powers && v in t.powers && v in t.totals && StakeMoved(s, m, v)
    requires StakeWritten(t, v)
    ensures Kept(s.powers[v], t.powers[v], s.epoch)
  {
    hide SetsTrack, StakesFit, SetsOk, PowersFollow, TotalPowerOk, ChangeStake, StateLine, MaxTotalVotingPower, At,
      Shift, Kept, AddAt, UpdateFrom, UpdatePowers, Mover, MoveFits, HasEntry, DeltaAt;
    var c := s.epoch;
    ChangeFrame(m, v, change, i, t);
    forall x | c <= x && HasEntry(m.powers[v], c, x) ensures DeltaAt(t.powers[v], x).Some? {
      UpdatePowersSome(s.params, t.totals[v], m.powers[v], m.totalPower, c, c + i, t.powers[v], t.totalPower, x);
    }
    KeptMore(s.powers[v], m.powers[v], t.powers[v], c);
  }

  // ---------- the change of total deltas ----------

  lemma DeltaIsStep(t: Timeline<int>, epoch: nat)
    requires t.lastUpdate < epoch
    ensures Delta(t, epoch) == At(t, epoch) - At(t, epoch - 1)
  {
  }

  lemma HeadIsAt(t: Timeline<int>)
    ensures Delta(t, t.lastUpdate) == At(t, t.lastUpdate)
  {
  }

  /** The deltas differ by how the change of the values changes. */
  lemma DeltasDiffer(pre: Timeline<int>, post: Timeline<int>, c: nat, epoch: nat)
    requires pre.lastUpdate <= c == post.lastUpdate <= epoch
    ensures epoch == c ==> Delta(post, epoch) - Opening(Some(pre), c, epoch) == Rise(pre, post, c)
    ensures epoch > c ==>
      Delta(post, epoch) - Opening(Some(pre), c, epoch) == Rise(pre, post, epoch) - Rise(pre, post, epoch - 1)
  {
    hide At;
    HeadIsAt(post);
    if epoch > c {
      DeltaIsStep(pre, epoch);
      DeltaIsStep(post, epoch);
    }
  }

  lemma TotalAccepted(params: PosParams, pre: Timeline<int>, post: Timeline<int>, c: nat)
    requires Shift(params, pre, post, c) && post.lastUpdate == c && 0 < params.pipelineLen < params.unbondingLen
    ensures TotalOk(params, Some(pre), post, c)
    ensures var end := c + params.unbondingLen;
      PostSum(post, c, end) - PreSum(Some(pre), c, end) == Rise(pre, post, end)
  {
    hide At, PreSum, PostSum, Delta, Opening;
    var end := c + params.unbondingLen;
    forall e | c <= e <= end ensures TotalAllowed(params, Some(pre), post, c, e) {
      PreSumIsAt(pre, c, e);
      PostSumIsAt(post, e);
      DeltasDiffer(pre, post, c, e);
    }
    PreSumIsAt(pre, c, end);
    PostSumIsAt(post, end);
  }

  /** The stakes found for a validator are those before and after, at its entries. */
  lemma StakesOfOne(params: PosParams, v: Address, pre: Timeline<int>, post: Timeline<int>, c: nat, k: (nat, Address))
    requires Shift(params, pre, post, c) && post.lastUpdate == c && k.1 == v
    ensures var m, end := StakeEntries(v, Some(pre), post, c, c + params.unbondingLen), c + params.unbondingLen;
      && (k in m <==> c <= k.0 <= end && DeltaAt(post, k.0).Some?)
      && (k in m ==> m[k].0 == At(pre, k.0) && m[k].1 == At(post, k.0))
  {
    hide At, PreSum, PostSum, DeltaAt;
    if c <= k.0 {
      PreSumIsAt(pre, c, k.0);
      PostSumIsAt(post, k.0);
    }
  }

  // ---------- the change of voting power ----------

  lemma PowerAccepted(params: PosParams, post: Timeline<int>, c: nat)
    requires post.lastUpdate == c && forall e :: c <= e ==> At(post, e) >= 0
    ensures PowerOk(params, post, c)
  {
    hide At, PostSum, DeltaAt;
    forall e | c <= e ensures PostSum(post, c, e) == At(post, e) {
      PostSumIsAt(post, e);
    }
  }

  lemma PowersOfOne(params: PosParams, v: Address, post: Timeline<int>, c: nat, k: (nat, Address))
    requires post.lastUpdate == c && k.1 == v && forall e :: c <= e ==> At(post, e) >= 0
    ensures var m, end := PowerEntries(v, post, c, c + params.unbondingLen), c + params.unbondingLen;
      && (k in m <==> c <= k.0 <= end && DeltaAt(post, k.0).Some?)
      && (k in m ==> m[k] == At(post, k.0))
  {
    hide At, PostSum, DeltaAt;
    if c <= k.0 {
      PostSumIsAt(post, k.0);
    }
  }

  /** Where a voting power has no entry it does not change. */
  lemma DiffOfOne(pre: Timeline<int>, post: Timeline<int>, c: nat, end: nat, e: nat)
    requires pre.lastUpdate <= c == post.lastUpdate && Kept(pre, post, c)
    ensures ValueAt(PowerDiffs(Some(pre), post, c, end), e) ==
      RiseStep(pre, post, c, end, e)
  {
    hide At, Get;
    if c <= e <= end {
      DeltasDiffer(pre, post, c, e);
      HeadEntry(post);
      if DeltaAt(post, e).None? {
        assert !HasEntry(pre, c, e);
        NoEntryNoValue(pre, c);
      }
    }
  }

  lemma NoEntryNoValue(t: Timeline<int>, c: nat)
    ensures Get(AddInts, t, c).None? ==> At(t, c) == 0
  {
  }

  // ---------- voting powers against stakes ----------

  /** The stakes and voting powers that are found are those of the written validators
      at their entries. */
  ghost predicate FoundStakes(f: Findings, s: Pos, t: Pos, vs: set<Address>)
    requires vs <= s.totals.Keys && vs <= t.totals.Keys
  {
    var c, end := s.epoch, s.epoch + s.params.unbondingLen;
    && (forall k :: k in f.stakes <==> k.1 in vs && c <= k.0 <= end && DeltaAt(t.totals[k.1], k.0).Some?)
    && (forall k :: k in f.stakes ==>
      f.stakes[k].0 == At(s.totals[k.1], k.0) && f.stakes[k].1 == At(t.totals[k.1], k.0))
  }

  ghost predicate FoundPowers(f: Findings, t: Pos, vs: set<Address>)
    requires vs <= t.powers.Keys
  {
    var c, end := t.epoch, t.epoch + t.params.unbondingLen;
    && (forall k :: k in f.powers <==> k.1 in vs && c <= k.0 <= end && DeltaAt(t.powers[k.1], k.0).Some?)
    && (forall k :: k in f.powers ==> f.powers[k] == At(t.powers[k.1], k.0))
  }

  lemma KnownKeys(s: Pos, t: Pos, vs: set<Address>)
    requires StakesMoved(s, t, vs)
    ensures s.totals.Keys == t.totals.Keys == s.powers.Keys == t.powers.Keys == s.states.Keys
    ensures 0 < s.params.pipelineLen < s.params.unbondingLen
  {
    hide SetsTrack, StakesFit, SetsOk, PowersFollow, TotalPowerOk, Entries, StateLine, MaxTotalVotingPower,
      StakeMoved;
  }

  /** Of the written validators, this one has an entry for its stake at the latest
      epoch up to `epoch` at which any of them has one. */
  ghost predicate OwnLatest(t: Pos, vs: set<Address>, v: Address, epoch: nat)
    requires vs <= t.totals.Keys && v in t.totals
  {
    exists x :: t.epoch <= x <= epoch && DeltaAt(t.totals[v], x).Some? && NoneAfter(t, vs, x, epoch)
  }

  ghost predicate NoneAfter(t: Pos, vs: set<Address>, x: nat, epoch: nat)
    requires vs <= t.totals.Keys
  {
    forall w, y: nat :: w in vs && x < y <= epoch ==> DeltaAt(t.totals[w], y).None?
  }

  /** Every entry for a voting power is preceded by one for the validator's own
      stake, with none of another written validator in between. */
  ghost predicate Aligned(t: Pos, vs: set<Address>)
    requires vs <= t.totals.Keys && vs <= t.powers.Keys
  {
    forall v, e :: v in vs && t.epoch <= e <= t.epoch + t.params.unbondingLen && DeltaAt(t.powers[v], e).Some? ==>
      OwnLatest(t, vs, v, e)
  }

  lemma {:induction false} LatestFound(f: Findings, s: Pos, t: Pos, vs: set<Address>, e: nat)
    requires vs <= s.totals.Keys && vs <= t.totals.Keys && FoundStakes(f, s, t, vs) && t.epoch == s.epoch
    requires s.epoch <= e <= s.epoch + s.params.unbondingLen
    ensures LatestEpoch(f, s.epoch, e).Some? ==>
      var x := LatestEpoch(f, s.epoch, e).value;
      s.epoch <= x <= e && AnyStake(f, x) && NoneAfter(t, vs, x, e)
    ensures LatestEpoch(f, s.epoch, e).None? ==> forall x :: s.epoch <= x <= e ==> !AnyStake(f, x)
    decreases e
  {
    hide At, DeltaAt;
    if !AnyStake(f, e) && e > s.epoch {
      LatestFound(f, s, t, vs, e - 1);
      NoneHere(f, s, t, vs, e);
    }
  }

  lemma NoneHere(f: Findings, s: Pos, t: Pos, vs: set<Address>, e: nat)
    requires vs <= s.totals.Keys && vs <= t.totals.Keys && FoundStakes(f, s, t, vs)
    requires s.epoch <= e <= s.epoch + s.params.unbondingLen && !AnyStake(f, e)
    ensures forall w :: w in vs ==> DeltaAt(t.totals[w], e).None?
  {
    hide At, DeltaAt;
    forall w | w in vs ensures DeltaAt(t.totals[w], e).None? {
      assert (e, w) !in f.stakes;
    }
  }

  /** A validator's own latest stake. */
  lemma {:induction false} LatestStakeFound(f: Findings, s: Pos, t: Pos, vs: set<Address>, v: Address, e: nat)
    requires vs <= s.totals.Keys && vs <= t.totals.Keys && FoundStakes(f, s, t, vs) && v in vs
    requires t.totals[v].lastUpdate == s.epoch
    requires s.epoch <= e <= s.epoch + s.params.unbondingLen
    ensures LatestStake(f, v, s.epoch, e).Some? <==> Get(AddInts, t.totals[v], e).Some?
    ensures LatestStake(f, v, s.epoch, e).Some? ==> LatestStake(f, v, s.epoch, e).value == At(t.totals[v], e)
    decreases e
  {
    hide DeltaAt;
    if (e, v) !in f.stakes && e > s.epoch {
      LatestStakeFound(f, s, t, vs, v, e - 1);
    }
  }

  /** What is known of the findings of written stakes. */
  ghost predicate Found(f: Findings, s: Pos, t: Pos, vs: set<Address>) {
    && StakesMoved(s, t, vs) && vs <= s.totals.Keys && vs <= t.totals.Keys && vs <= t.powers.Keys
    && FoundStakes(f, s, t, vs) && FoundPowers(f, t, vs)
  }

  lemma PowerIsOfStake(t: Pos, v: Address, e: nat)
    requires Core(t) && v in t.states && t.epoch <= e
    ensures v in t.totals && v in t.powers
    ensures At(t.totals[v], e) >= 0 && At(t.powers[v], e) == VotingPower(t.params, At(t.totals[v], e)) >= 0
  {
    hide SetsTrack, SetsOk, TotalPowerOk, At, StateLine, VotingPower, Fits, MaxTotalVotingPower;
    assert Power(t, v, e) == Weight(t, v, e) && FitsU64(Stake(t, v, e));
  }

  lemma SameSince(t: Timeline<int>, x: nat, e: nat)
    requires t.lastUpdate <= x <= e && forall y: nat :: x < y <= e ==> DeltaAt(t, y).None?
    ensures At(t, x) == At(t, e)
  {
    hide Get, DeltaAt;
    GetConstant(AddInts, t, x, e);
  }

  /** A voting power passes exactly when the validator's own stake is the latest. */
  lemma PowerAgrees(f: Findings, s: Pos, t: Pos, vs: set<Address>, k: (nat, Address))
    requires Found(f, s, t, vs) && k in f.powers
    ensures k.1 in vs && s.epoch <= k.0 <= s.epoch + s.params.unbondingLen && DeltaAt(t.powers[k.1], k.0).Some?
    ensures PowerMatches(s.params, f, s.epoch, k) <==> OwnLatest(t, vs, k.1, k.0)
  {
    hide Core, Entries, At, VotingPower, LatestEpoch, DeltaAt, StakeMoved, StakeSame, AnyStake;
    var e, v := k.0, k.1;
    LatestFound(f, s, t, vs, e);
    PowerIsOfStake(t, v, e);
    var latest := LatestEpoch(f, s.epoch, e);
    if latest.Some? && (latest.value, v) in f.stakes {
      assert OwnLatest(t, vs, v, e);
      SameSince(t.totals[v], latest.value, e);
    }
    if x :| s.epoch <= x <= e && DeltaAt(t.totals[v], x).Some? && NoneAfter(t, vs, x, e) {
      LatestHere(f, s, t, vs, v, x, e);
    }
  }

  lemma LatestHere(f: Findings, s: Pos, t: Pos, vs: set<Address>, v: Address, x: nat, e: nat)
    requires vs <= s.totals.Keys && vs <= t.totals.Keys && FoundStakes(f, s, t, vs) && t.epoch == s.epoch && v in vs
    requires s.epoch <= x <= e <= s.epoch + s.params.unbondingLen && DeltaAt(t.totals[v], x).Some?
    requires NoneAfter(t, vs, x, e)
    ensures LatestEpoch(f, s.epoch, e) == Some(x) && (x, v) in f.stakes
  {
    hide At, DeltaAt, LatestEpoch;
    LatestFound(f, s, t, vs, e);
    assert (x, v) in f.stakes;
    assert AnyStake(f, x);
    var latest := LatestEpoch(f, s.epoch, e).value;
    assert x <= latest;
    var k :| k in f.stakes && k.0 == latest;
    assert k.1 in vs && DeltaAt(t.totals[k.1], latest).Some?;
    assert latest <= x;
  }

  lemma StakeAgrees(f: Findings, s: Pos, t: Pos, vs: set<Address>, k: (nat, Address))
    requires Found(f, s, t, vs) && k in f.stakes
    ensures k in f.powers && f.powers[k] == VotingPower(s.params, f.stakes[k].1)
  {
    hide Core, At, Get, VotingPower, DeltaAt, StakeMoved, StakeSame, StakeWritten;
    var e, v := k.0, k.1;
    PowerIsOfStake(t, v, e);
    assert EntriesMatch(t.totals[v], t.powers[v]);
    assert DeltaAt(t.totals[v], e).Some?;
  }

  /** The voting powers pass exactly when they are aligned; the stakes pass in
      whatever order the epochs are visited. */
  lemma PowersChecked(f: Findings, s: Pos, t: Pos, vs: set<Address>, order: seq<nat>)
    requires Found(f, s, t, vs)
    ensures PowersMatchStakes(s.params, f, s.epoch) <==> Aligned(t, vs)
    ensures StakesMatchPowers(s.params, f, order)
  {
    hide StakesMoved, VotingPower, PowerMatches, OwnLatest, FoundStakes, At;
    MovedBasics(s, t, vs);
    forall k | k in f.powers
      ensures k.1 in vs && s.epoch <= k.0 <= s.epoch + s.params.unbondingLen && DeltaAt(t.powers[k.1], k.0).Some?
      ensures PowerMatches(s.params, f, s.epoch, k) <==> OwnLatest(t, vs, k.1, k.0)
    {
      PowerAgrees(f, s, t, vs, k);
    }
    if PowersMatchStakes(s.params, f, s.epoch) {
      forall v, e | v in vs && t.epoch <= e <= t.epoch + t.params.unbondingLen && DeltaAt(t.powers[v], e).Some?
        ensures OwnLatest(t, vs, v, e)
      {
        assert (e, v) in f.powers;
      }
    }
    forall e, previous ensures ShowAt(s.params, f, e, previous) {
      forall k | k in f.stakes && k.0 == e ensures StakeShows(s.params, f, k, previous) {
        StakeAgrees(f, s, t, vs, k);
      }
    }
  }

  lemma MovedBasics(s: Pos, t: Pos, vs: set<Address>)
    requires StakesMoved(s, t, vs)
    ensures t.epoch == s.epoch && t.params == s.params && t.states == s.states
  {
    hide Core, Entries, StakeMoved, StakeSame, StakeWritten;
  }

  /** The stake data of one validator are aligned. */
  lemma OneAligned(s: Pos, t: Pos, v: Address)
    requires StakesMoved(s, t, {v})
    ensures {v} <= t.totals.Keys && {v} <= t.powers.Keys && Aligned(t, {v})
  {
    hide Core, DeltaAt, Get, StakeMoved, StakeSame;
    KnownKeys(s, t, {v});
    assert v in s.states;
    assert StakeWritten(t, v);
    forall e | t.epoch <= e <= t.epoch + t.params.unbondingLen && DeltaAt(t.powers[v], e).Some?
      ensures OwnLatest(t, {v}, v, e)
    {
      assert EntriesMatch(t.totals[v], t.powers[v]);
      var x := LastEntry(t.totals[v], e);
      assert NoneAfter(t, {v}, x, e);
    }
  }

  lemma {:induction false} LastEntry(t: Timeline<int>, e: nat) returns (x: nat)
    requires Get(AddInts, t, e).Some? && t.lastUpdate <= e
    ensures t.lastUpdate <= x <= e && DeltaAt(t, x).Some? && forall y: nat :: x < y <= e ==> DeltaAt(t, y).None?
    decreases e
  {
    hide DeltaAt;
    if DeltaAt(t, e).Some? {
      x := e;
    } else {
      x := LastEntry(t, e - 1);
    }
  }

  // ---------- validator sets against stakes ----------

  /** The weight of a member is that of its stake; unless its stake changed it was
      in the set before. */
  lemma MemberWeight(s: Pos, t: Pos, vs: set<Address>, epoch: nat, w: Weighted)
    requires StakesMoved(s, t, vs) && s.epoch <= epoch && w in SetAt(t, epoch).All()
    ensures w.address in s.states && w.address in t.totals && At(t.totals[w.address], epoch) >= 0
    ensures w.power == VotingPower(s.params, At(t.totals[w.address], epoch))
    ensures Stake(t, w.address, epoch) == Stake(s, w.address, epoch) ==> w in SetAt(s, epoch).All()
  {
    hide SetsTrack, PowersFollow, TotalPowerOk, MaxTotalVotingPower, SetAt, WellFormed, VotingPower, At, Get,
      StateLine, Entries, StakeMoved, StakeSame, StakeWritten;
    assert SetOk(t, epoch) && SetOk(s, epoch);
    var a := w.address;
    assert FitsU64(Stake(t, a, epoch));
    if Stake(t, a, epoch) == Stake(s, a, epoch) {
      assert Joined(s, a, epoch);
      assert Weighted(Weight(s, a, epoch), a) in Members(s, epoch);
    }
  }

  /** Without any entry so far the stake is as it was. */
  lemma NoEntryYet(s: Pos, t: Pos, vs: set<Address>, v: Address, epoch: nat)
    requires StakesMoved(s, t, vs) && s.epoch <= epoch && v in vs
    ensures v in t.totals && (Get(AddInts, t.totals[v], epoch).None? ==> Stake(t, v, epoch) == Stake(s, v, epoch))
  {
    hide SetsTrack, StakesFit, SetsOk, PowersFollow, TotalPowerOk, MaxTotalVotingPower, Get, StateLine, Shift,
      Entries, DeltaAt;
    KnownKeys(s, t, vs);
    assert StakeMoved(s, t, v) && StakeWritten(t, v);
    var pre, post, c := s.totals[v], t.totals[v], s.epoch;
    if Get(AddInts, post, epoch).None? {
      if Get(AddInts, pre, epoch).Some? {
        EntryStays(pre, post, c, epoch);
      }
    }
  }

  lemma EntryStays(pre: Timeline<int>, post: Timeline<int>, c: nat, epoch: nat)
    requires Kept(pre, post, c) && pre.lastUpdate <= c == post.lastUpdate <= epoch && Get(AddInts, pre, epoch).Some?
    ensures Get(AddInts, post, epoch).Some?
  {
    hide Get, DeltaAt;
    var x := SomeEntry(pre, epoch);
    HeadEntry(post);
    if x <= c {
      SomeFrom(pre, x, c);
      assert HasEntry(pre, c, c);
      SomeFrom(post, c, epoch);
    } else {
      assert HasEntry(pre, c, x);
      SomeFrom(post, x, epoch);
    }
  }

  lemma LatestBefore(f: Findings, v: Address, c: nat, epoch: nat)
    requires c <= epoch
    ensures (epoch, v) !in f.stakes && LatestStake(f, v, c, epoch).Some? ==>
      epoch > c && LatestStake(f, v, c, epoch - 1) == LatestStake(f, v, c, epoch)
  {
  }

  /** A member of the set after the change has the right weight for the check. */
  lemma MemberAccepted(f: Findings, s: Pos, t: Pos, vs: set<Address>, epoch: nat, w: Weighted)
    requires Found(f, s, t, vs) && s.epoch <= epoch <= s.epoch + s.params.unbondingLen && w in SetAt(t, epoch).All()
    ensures WeightOk(s.params, f, SetAt(s, epoch), w, s.epoch, epoch)
  {
    hide Core, Entries, SetAt, VotingPower, At, Get, LatestStake, DeltaAt, StakeMoved, FoundPowers;
    var a := w.address;
    MemberWeight(s, t, vs, epoch, w);
    KnownKeys(s, t, vs);
    if a in vs {
      assert StakeWritten(t, a);
      LatestStakeFound(f, s, t, vs, a, epoch);
      NoEntryYet(s, t, vs, a, epoch);
      LatestBefore(f, a, s.epoch, epoch);
    } else {
      assert StakeSame(s, t, a);
    }
  }

  lemma EntryIsLatest(sets: Timeline<ValidatorSet>, epoch: nat)
    requires sets.lastUpdate <= epoch
    ensures EntryAt(sets, epoch) == DeltaAt(sets, epoch)
    ensures DeltaAt(sets, epoch).Some? ==> Get(Later, sets, epoch) == DeltaAt(sets, epoch)
  {
  }

  /** A stake has no entry where the validator sets have none. */
  lemma SetEntryThere(f: Findings, s: Pos, t: Pos, vs: set<Address>, epoch: nat)
    requires Found(f, s, t, vs) && s.epoch <= epoch
    ensures AnyStake(f, epoch) ==> t.sets.lastUpdate == s.epoch && DeltaAt(t.sets, epoch).Some?
  {
    hide StakesFit, SetsOk, PowersFollow, TotalPowerOk, ParamsOk, Get, At, StateLine, DeltaAt, Entries, StakeMoved,
      FoundPowers, Fits;
    if AnyStake(f, epoch) {
      var k :| k in f.stakes && k.0 == epoch;
      assert DeltaAt(t.totals[k.1], epoch).Some?;
      assert vs != {};
    }
  }

  lemma SetsKnown(s: Pos, epoch: nat)
    requires Core(s) && s.epoch <= epoch
    ensures Get(Later, s.sets, epoch) == Some(SetAt(s, epoch))
    ensures WellFormed(SetAt(s, epoch), s.params.maxValidatorSlots)
  {
    hide StakesFit, PowersFollow, TotalPowerOk, ParamsOk, Get, StateLine, DeltaAt, SetsTrack, WellFormed, SetAt;
    SetsPresent(s, epoch);
    assert SetOk(s, epoch);
  }

  lemma SetAccepted(f: Findings, s: Pos, t: Pos, vs: set<Address>, epoch: nat)
    requires Found(f, s, t, vs) && vs != {} && s.epoch <= epoch <= s.epoch + s.params.unbondingLen
    ensures SetAtOk(s.params, f, s.sets, t.sets, s.epoch, epoch)
  {
    hide Core, Entries, Get, DeltaAt, StakeMoved, StakeSame, StakeWritten, SetAt, WeightOk, FoundStakes, FoundPowers,
      AnyStake, UniqueAddresses;
    SetsKnown(s, epoch);
    SetsKnown(t, epoch);
    EntryIsLatest(t.sets, epoch);
    SetEntryThere(f, s, t, vs, epoch);
    if DeltaAt(t.sets, epoch).Some? {
      var now := SetAt(t, epoch);
      forall w | w in now.active + now.inactive ensures WeightOk(s.params, f, SetAt(s, epoch), w, s.epoch, epoch) {
        MemberAccepted(f, s, t, vs, epoch, w);
      }
    }
  }

  lemma SetsAccepted(f: Findings, s: Pos, t: Pos, vs: set<Address>)
    requires Found(f, s, t, vs) && vs != {} && f.sets == Some((s.sets, t.sets))
    ensures SetsChecked(s.params, f, s.epoch)
  {
    hide Found, SetAtOk;
    forall e | s.epoch <= e <= s.epoch + s.params.unbondingLen
      ensures SetAtOk(s.params, f, s.sets, t.sets, s.epoch, e)
    {
      SetAccepted(f, s, t, vs, e);
    }
  }

  // ---------- the total voting power ----------

  /** By how much the voting powers of the written validators have changed. */
  ghost function PowerChanges(s: Pos, t: Pos, vs: set<Address>, e: nat): map<Address, int>
    requires vs <= s.powers.Keys && vs <= t.powers.Keys
  {
    map v | v in vs :: Rise(s.powers[v], t.powers[v], e)
  }

  /** The total changes by the sum of the changes. */
  lemma TotalPowerChanges(s: Pos, t: Pos, vs: set<Address>, e: nat)
    requires StakesMoved(s, t, vs) && s.epoch <= e
    ensures vs <= s.powers.Keys && vs <= t.powers.Keys
    ensures Rise(s.totalPower, t.totalPower, e) == SumOf(PowerChanges(s, t, vs, e))
  {
    hide SetsTrack, StakesFit, SetsOk, PowersFollow, Entries, At, SumOf, StateLine, MaxTotalVotingPower, StakeMoved,
      StakeWritten, Fits;
    KnownKeys(s, t, vs);
    var a, b, d := PowersAt(s, e), PowersAt(t, e), PowerChanges(s, t, vs, e);
    forall v | v in b ensures ValueAt(b, v) == ValueAt(a, v) + ValueAt(d, v) {
      assert v in s.states;
      if v !in vs {
        assert StakeSame(s, t, v);
      }
    }
    SumPointwise(a, d, b);
  }
}
