/**
 Runs that reach the states in which something goes wrong: a slash aborts, the
 engine is asked to remove a validator that it does not have, and updates that are
 computed late leave the engine with the previous epoch's voting powers.
 */
module RunExamples {
  import opened Options
  import opened Timelines
  import opened Sums
  import opened Params
  import opened ValidatorSets
  import opened Ledger
  import opened StakeViews
  import opened CoreInvariant
  import opened CoreSteps
  import opened DeltaMaps
  import opened BondInvariant
  import opened Solvency
  import opened Outcomes
  import opened Consensus
  import opened Runs
  import opened RunTheorems
  import opened RunProgress
  import opened LateUpdates

  /** The validators of genesis with their stakes, one of which changes at an epoch. */
  ghost predicate OneChange(s: Pos, params: PosParams, tokens: map<Address, nat>, now: nat, v: Address, change: int,
                            at: nat) {
    && s.params == params && s.epoch == now && s.states.Keys == tokens.Keys
    && (forall w, e :: w in tokens && now <= e ==> Joined(s, w, e))
    && (forall w, e :: w in tokens && now <= e ==>
      Stake(s, w, e) == tokens[w] + if w == v && at <= e then change else 0)
  }

  lemma GenesisNoChange(params: PosParams, tokens: map<Address, nat>, g: nat, v: Address)
    requires GenesisOk(params, tokens)
    ensures OneChange(Genesis(params, tokens, g), params, tokens, g, v, 0, g)
  {
    hide Genesis, Joined, Stake, SumOf, ParamsOk, Trim, GenesisWeights, VotingPower, GenesisPowers;
    GenesisFields(params, tokens, g);
    forall w, e | w in tokens && g <= e
      ensures Joined(Genesis(params, tokens, g), w, e) && Stake(Genesis(params, tokens, g), w, e) == tokens[w]
    {
      GenesisViews(params, tokens, g, e);
    }
  }

  /** The change of a stake that genesis has set. */
  lemma FirstChange(s: Pos, params: PosParams, tokens: map<Address, nat>, v: Address, change: int, i: nat, t: Pos)
    requires Core(s) && OneChange(s, params, tokens, s.epoch, v, 0, s.epoch) && Changed(s, v, change, i, t)
    requires v in tokens
    ensures OneChange(t, params, tokens, s.epoch, v, change, s.epoch + i)
  {
    hide Stake, SetsTrack, StakesFit, SetsOk, PowersFollow, TotalPowerOk, StateLine, ChangeStake, Get;
    ChangeStakes(s, v, change, i, t);
    ChangeFrame(s, v, change, i, t);
    forall w, e | w in tokens && s.epoch <= e
      ensures Joined(t, w, e) && Stake(t, w, e) == tokens[w] + if w == v && s.epoch + i <= e then change else 0
    {
      assert Joined(s, w, e);
      assert Stake(s, w, e) == tokens[w];
    }
  }

  /** Only the stakes and the states count. */
  lemma SameChange(s: Pos, t: Pos, params: PosParams, tokens: map<Address, nat>, now: nat, later: nat, v: Address,
                   change: int, at: nat)
    requires OneChange(s, params, tokens, now, v, change, at) && now <= later
    requires t.params == s.params && t.states == s.states && t.totals == s.totals && t.epoch == later
    ensures OneChange(t, params, tokens, later, v, change, at)
  {
    hide Get;
    forall w, e | w in tokens && later <= e
      ensures Joined(t, w, e) && Stake(t, w, e) == tokens[w] + if w == v && at <= e then change else 0
    {
      assert Joined(s, w, e);
      assert Stake(s, w, e) == tokens[w] + if w == v && at <= e then change else 0;
    }
  }

  /** From genesis, a validator bonds tokens to itself. */
  lemma RunWithBond(params: PosParams, tokens: map<Address, nat>, g: nat, v: Address, amount: nat)
    returns (xs: seq<System>, actions: seq<Action>)
    requires GenesisOk(params, tokens) && v in tokens && amount > 0 && SumOf(tokens) + amount <= U64_MAX
    ensures Run(xs, actions) && |xs| == |actions| + 1
    ensures OneChange(xs[|actions|].pos, params, tokens, g, v, amount, g + params.pipelineLen)
  {
    hide OneChange, Run, Inv, GenesisOk, Genesis, Solvent, BondTokens, SumOf, Next, AfterBond, Core, BondAfter,
      Changed;
    var x := RunStarts(params, tokens, g);
    var s := x.pos;
    RunInv([x], [], 0);
    GenesisNoChange(params, tokens, g, v);
    GenesisFields(params, tokens, g);
    GenesisSolvent(params, tokens, g);
    InvCore(x);
    BondOutcome(s, None, v, amount);
    var b, y := RunGoesOn([x], [], DoBond(None, v, amount));
    xs, actions := [x] + [y], [] + [b];
    RunStep(xs, actions, 0);
    RunSize(xs, actions);
    BondedTo(x, v, amount, y, params, tokens);
  }

  lemma InvCore(x: System)
    requires Inv(x)
    ensures Core(x.pos) && WindowsFit(x.pos) && BondsShaped(x.pos) && Valid(x.pos.params)
  {
    hide BondsShaped, Books, EngineOk, SetsTrack, StakesFit, SetsOk, PowersFollow, TotalPowerOk, StateLine,
      MaxTotalVotingPower;
  }

  lemma BondedTo(x: System, v: Address, amount: nat, y: System, params: PosParams, tokens: map<Address, nat>)
    requires Core(x.pos) && WindowsFit(x.pos) && Next(x, DoBond(None, v, amount), y)
    requires BondTokens(x.pos, None, v, amount).Ok?
    requires OneChange(x.pos, params, tokens, x.pos.epoch, v, 0, x.pos.epoch) && v in tokens
    ensures OneChange(y.pos, params, tokens, x.pos.epoch, v, amount, x.pos.epoch + params.pipelineLen)
  {
    hide OneChange, BondTokens, AfterBond, SetsTrack, StakesFit, SetsOk, PowersFollow, TotalPowerOk, StateLine,
      BondAfter, Changed, Windows, MaxTotalVotingPower;
    var s := x.pos;
    var t := BondParts(s, None, v, amount, y.pos);
    FirstChange(s, params, tokens, v, amount, s.params.pipelineLen, t);
    ParamsOfChange(s, params, tokens, s.epoch, v, 0, s.epoch);
    SameChange(t, y.pos, params, tokens, s.epoch, s.epoch, v, amount, s.epoch + params.pipelineLen);
  }

  lemma ParamsOfChange(s: Pos, params: PosParams, tokens: map<Address, nat>, now: nat, v: Address, change: int, at: nat)
    requires OneChange(s, params, tokens, now, v, change, at)
    ensures s.params == params && s.epoch == now && s.states.Keys == tokens.Keys
  {
  }

  /** From genesis, a validator unbonds all its tokens. */
  lemma RunWithUnbond(params: PosParams, tokens: map<Address, nat>, g: nat, v: Address)
    returns (xs: seq<System>, actions: seq<Action>)
    requires GenesisOk(params, tokens) && v in tokens
    ensures Run(xs, actions) && |xs| == |actions| + 1
    ensures OneChange(xs[|actions|].pos, params, tokens, g, v, 0 - tokens[v] as int, g + params.unbondingLen)
  {
    hide OneChange, Run, Inv, Genesis, Solvent, UnbondTokens, SumOf, Next, Core, Changed, Takeable, ParamsOk, BondOk,
      BondsOf;
    var x := RunStarts(params, tokens, g);
    var s, id := x.pos, BondId(v, v);
    RunInv([x], [], 0);
    GenesisNoChange(params, tokens, g, v);
    GenesisFields(params, tokens, g);
    GenesisSolvent(params, tokens, g);
    GenesisBond(params, tokens, g, id);
    SumSingle<nat>(g, tokens[v]);
    InvCore(x);
    var b, y := RunGoesOn([x], [], DoUnbond(None, v, tokens[v], []));
    xs, actions := [x] + [y], [] + [b];
    RunStep(xs, actions, 0);
    RunSize(xs, actions);
    UnbondedFrom(x, v, b.taken, y, params, tokens);
  }

  lemma UnbondedFrom(x: System, v: Address, taken: seq<Bond>, y: System, params: PosParams, tokens: map<Address, nat>)
    requires Core(x.pos) && Solvent(x.pos) && BondsShaped(x.pos) && WindowsFit(x.pos) && x.pos.slashes == map[]
    requires v in tokens && Next(x, DoUnbond(None, v, tokens[v], taken), y)
    requires Takeable(x.pos, BondId(v, v), tokens[v], taken)
    requires BondId(v, v) in x.pos.bonds && 0 < tokens[v] == SumOf(BondsOf(x.pos, BondId(v, v)))
    requires OneChange(x.pos, params, tokens, x.pos.epoch, v, 0, x.pos.epoch)
    ensures OneChange(y.pos, params, tokens, x.pos.epoch, v, 0 - tokens[v] as int, x.pos.epoch + params.unbondingLen)
  {
    hide OneChange, UnbondTokens, AfterUnbond, SetsTrack, StakesFit, SetsOk, PowersFollow, TotalPowerOk, StateLine,
      Changed, Windows, Solvent, MaxTotalVotingPower, Takeable, BondsShaped, SumOf, BondsOf, WorthInAll, BondLeft,
      UnbondAfter, Get, TakenInAll, UnbondDelta, AddAmounts;
    var s := x.pos;
    UnbondOutcome(s, None, v, tokens[v], taken);
    var t := UnbondParts(s, None, v, tokens[v], taken, y.pos);
    UnbondEffect(s, None, v, tokens[v], taken, y.pos);
    WorthUnslashed(taken);
    ParamsOfChange(s, params, tokens, s.epoch, v, 0, s.epoch);
    FirstChange(s, params, tokens, v, 0 - tokens[v] as int, s.params.unbondingLen, t);
    SameChange(t, y.pos, params, tokens, s.epoch, s.epoch, v, 0 - tokens[v] as int, s.epoch + params.unbondingLen);
  }

  /** The epochs go by. */
  lemma {:induction false} RunEpochs(xs: seq<System>, actions: seq<Action>, n: nat)
    returns (ys: seq<System>, bs: seq<Action>)
    requires Run(xs, actions) && |xs| == |actions| + 1
    ensures Run(ys, bs) && |ys| == |bs| + 1
    ensures ys[|bs|].pos == xs[|actions|].pos.(epoch := xs[|actions|].pos.epoch + n)
    decreases n
  {
    hide Run, Next;
    if n == 0 {
      ys, bs := xs, actions;
    } else {
      var zs, cs := RunEpochs(xs, actions, n - 1);
      ys, bs := RunOneEpoch(zs, cs);
    }
  }

  lemma RunOneEpoch(xs: seq<System>, actions: seq<Action>) returns (ys: seq<System>, bs: seq<Action>)
    requires Run(xs, actions) && |xs| == |actions| + 1
    ensures Run(ys, bs) && |ys| == |bs| + 1 == |xs| + 1 && ys[..|xs|] == xs
    ensures bs[|actions|].DoNextEpoch? && ys[|bs|].pos == xs[|actions|].pos.(epoch := xs[|actions|].pos.epoch + 1)
  {
    hide Run, Next;
    var b, y := RunGoesOn(xs, actions, DoNextEpoch([]));
    ys, bs := xs + [y], actions + [b];
    RunSize(ys, bs);
    EpochStep(ys, bs, |actions|);
  }

  // ---------- a slash that aborts ----------

  /** From every genesis: once a validator has unbonded all its tokens, a slash of
      it aborts in each of the following epochs until they are unbonded, unless the
      slash takes nothing. */
  lemma SlashAborts(params: PosParams, tokens: map<Address, nat>, g: nat, v: Address, slashType: SlashType, n: nat)
    returns (xs: seq<System>, actions: seq<Action>)
    requires GenesisOk(params, tokens) && v in tokens && n < params.unbondingLen
    requires MulBps(SlashRate(params, slashType), tokens[v]) > 0
    ensures Run(xs, actions) && |xs| == |actions| + 1 && xs[|actions|].pos.epoch == g + n
    ensures xs[|actions|].pos.params == params
    ensures WindowsFit(xs[|actions|].pos)
    ensures forall evidence :: SlashValidator(xs[|actions|].pos, v, slashType, evidence).Panicked?
  {
    hide Run, Inv, OneChange, GenesisOk, SlashValidator, MulBps, SlashRate, Core;
    var ys, bs := RunWithUnbond(params, tokens, g, v);
    xs, actions := RunEpochs(ys, bs, n);
    var s := xs[|actions|].pos;
    var leaves := 0 - tokens[v] as int;
    ParamsOfChange(ys[|bs|].pos, params, tokens, g, v, leaves, g + params.unbondingLen);
    SameChange(ys[|bs|].pos, s, params, tokens, g, g + n, v, leaves, g + params.unbondingLen);
    RunInv(xs, actions, |actions|);
    InvCore(xs[|actions|]);
    forall evidence ensures SlashValidator(s, v, slashType, evidence).Panicked? {
      AllUnbonded(s, params, tokens, g, n, v, slashType, evidence);
    }
  }

  lemma AllUnbonded(s: Pos, params: PosParams, tokens: map<Address, nat>, g: nat, n: nat, v: Address,
                    slashType: SlashType, evidence: nat)
    requires Core(s) && WindowsFit(s) && v in tokens && n < params.unbondingLen
    requires OneChange(s, params, tokens, g + n, v, 0 - tokens[v] as int, g + params.unbondingLen)
    requires MulBps(SlashRate(params, slashType), tokens[v]) > 0
    ensures SlashValidator(s, v, slashType, evidence).Panicked?
  {
    hide SetsTrack, StakesFit, SetsOk, PowersFollow, TotalPowerOk, StateLine, SlashValidator, MulBps, SlashRate, At,
      Windows, Joined, MaxTotalVotingPower;
    SlashOutcome(s, v, slashType, evidence);
    assert Stake(s, v, s.epoch) == tokens[v];
    var e := g + n + params.unbondingLen;
    assert s.epoch + s.params.pipelineLen <= e && Stake(s, v, e) == 0;
  }

  // ---------- the removal of a validator that the engine does not have ----------

  /** From every genesis with one slot and two validators: when tokens are bonded
      to the weaker one without giving it more voting power than the other has, and
      its voting power changes, the engine is asked to remove it on entering the
      epoch at which the change takes effect, although it does not have it. */
  lemma AbsentRemoved(params: PosParams, strong: Address, weak: Address, x: nat, y: nat, amount: nat, g: nat)
    returns (xs: seq<System>, actions: seq<Action>)
    requires strong != weak && GenesisOk(params, map[strong := x, weak := y]) && params.maxValidatorSlots == 1
    requires amount > 0 && x + y + amount <= U64_MAX
    requires VotingPower(params, y) < VotingPower(params, y + amount) < VotingPower(params, x)
    ensures Run(xs, actions) && |xs| == |actions| + 1 && xs[|actions|].pos.params == params
    ensures var s := xs[|actions|].pos;
      && Deactivated(weak) in Deactivations(s, s.epoch + 1)
      && weak !in xs[|actions|].hist.engine
      && !RemovesOnlyMembers(s, s.epoch + 1)
  {
    hide Run, OneChange, GenesisOk, VotingPower, Core, SumOf, BondsShaped, Filled, Books, SetAt, Powerful,
      Deactivations, RemovesOnlyMembers;
    var tokens: map<Address, nat> := map[strong := x, weak := y];
    SumOfTwo(strong, weak, x, y);
    LengthsOk(params, tokens);
    var ys, bs := RunWithBond(params, tokens, g, weak, amount);
    var n := params.pipelineLen - 1;
    xs, actions := RunEpochs(ys, bs, n);
    var s := xs[|actions|].pos;
    ParamsOfChange(ys[|bs|].pos, params, tokens, g, weak, amount, g + params.pipelineLen);
    SameChange(ys[|bs|].pos, s, params, tokens, g, g + n, weak, amount, g + params.pipelineLen);
    RunInv(xs, actions, |actions|);
    InactiveThen(s, params, strong, weak, x, y, amount, g + n, g + n);
    InactiveThen(s, params, strong, weak, x, y, amount, g + n, g + n + 1);
    InactiveChangeIsSent(s, Weighted(VotingPower(params, y), weak), Weighted(VotingPower(params, y + amount), weak));
    SentNotMember(s, weak);
  }

  lemma SumOfTwo(a: Address, b: Address, x: nat, y: nat)
    requires a != b
    ensures SumOf<Address>(map[a := x, b := y]) == x + y
  {
    var m: map<Address, nat> := map[a := x];
    SumSingle<Address>(a, x);
    SumUpdate(m, b, y);
    assert m[b := y] == map[a := x, b := y];
  }

  lemma LengthsOk(params: PosParams, tokens: map<Address, nat>)
    requires GenesisOk(params, tokens)
    ensures 2 <= params.pipelineLen < params.unbondingLen
  {
    hide SumOf, MaxTotalVotingPower;
  }

  lemma SentNotMember(s: Pos, weak: Address)
    requires Deactivated(weak) in Deactivations(s, s.epoch + 1) && weak !in Powerful(SetAt(s, s.epoch))
    ensures !RemovesOnlyMembers(s, s.epoch + 1)
  {
    hide Deactivations, ActiveUpdates, Powerful, SetAt;
    assert Deactivated(weak) in ActiveUpdates(s, s.epoch + 1) + Deactivations(s, s.epoch + 1);
    assert Removal(Deactivated(weak));
  }

  /** With one slot the weaker validator is inactive. */
  lemma InactiveThen(s: Pos, params: PosParams, strong: Address, weak: Address, x: nat, y: nat, amount: nat, now: nat,
                     e: nat)
    requires Core(s) && strong != weak && params.maxValidatorSlots == 1 && now <= e <= now + 1
    requires OneChange(s, params, map[strong := x, weak := y], now, weak, amount, now + 1)
    requires VotingPower(params, y) < VotingPower(params, y + amount) < VotingPower(params, x)
    ensures Weighted(VotingPower(params, if e == now then y else y + amount), weak) in SetAt(s, e).inactive
  {
    hide Windows, SetsTrack, StakesFit, PowersFollow, TotalPowerOk, VotingPower, SetAt, MaxTotalVotingPower, Members,
      OneChange, WellFormed;
    var tokens := map[strong := x, weak := y];
    var top, low := Weighted(VotingPower(params, x), strong),
      Weighted(VotingPower(params, if e == now then y else y + amount), weak);
    ParamsOfChange(s, params, tokens, now, weak, amount, now + 1);
    assert SetOk(s, e);
    MemberThen(s, params, tokens, now, weak, amount, now + 1, strong, e);
    MemberThen(s, params, tokens, now, weak, amount, now + 1, weak, e);
    OneSlot(SetAt(s, e), top, low);
  }

  lemma OneSlot(vs: ValidatorSet, top: Weighted, low: Weighted)
    requires WellFormed(vs, 1) && top in vs.All() && low in vs.All() && low.power < top.power
    ensures low in vs.inactive
  {
    if low in vs.active {
      if top in vs.active {
        assert {low, top} <= vs.active;
        SubsetCount({low, top}, vs.active);
      }
    }
  }

  lemma SubsetCount<T>(a: set<T>, b: set<T>)
    requires a <= b
    ensures |a| <= |b|
  {
    assert b == a + (b - a);
  }

  // ---------- late updates ----------

  /** No update is sent, and without one the engine is wrong. */
  ghost predicate LeftBehind(engine: Engine, s: Pos) {
    forall updates :: Lists(updates, s, s.epoch) ==>
      updates == [] && Replay(engine, updates) != Powerful(SetAt(s, s.epoch))
  }

  /** From every genesis with one validator: when tokens are bonded to it that
      change its voting power, and it is slashed in the epoch in which the change
      takes effect before the updates are computed, then nothing is sent and the
      engine keeps the old voting power. */
  lemma LateEngineWrong(params: PosParams, v: Address, x: nat, amount: nat, g: nat, slashType: SlashType, evidence: nat)
    returns (xs: seq<System>, actions: seq<Action>, i: nat)
    requires GenesisOk(params, map[v := x]) && amount > 0 && x + amount <= U64_MAX
    requires VotingPower(params, x) < VotingPower(params, x + amount)
    ensures Run(xs, actions) && |xs| == |actions| + 1 == i + 3 && xs[i].pos.params == params
    ensures actions[i].DoNextEpoch? && actions[i + 1] == DoSlash(v, slashType, evidence)
    ensures LeftBehind(xs[i].hist.engine, xs[i + 2].pos)
  {
    hide Run, OneChange, GenesisOk, VotingPower, Core, SumOf, BondsShaped, Filled, Books, SetAt, Powerful, Lists,
      Replay, SetsWritten, EngineOk, Next;
    var tokens: map<Address, nat> := map[v := x];
    SumSingle<Address>(v, x);
    LengthsOk(params, tokens);
    var ys, bs := RunWithBond(params, tokens, g, v, amount);
    var n := params.pipelineLen - 1;
    var zs, cs := RunEpochs(ys, bs, n);
    var ws, ds := RunOneEpoch(zs, cs);
    i := |cs|;
    var b, z := RunGoesOn(ws, ds, DoSlash(v, slashType, evidence));
    xs, actions := ws + [z], ds + [b];
    var s, r := xs[i].pos, xs[i + 1].pos;
    ParamsOfChange(ys[|bs|].pos, params, tokens, g, v, amount, g + params.pipelineLen);
    SameChange(ys[|bs|].pos, s, params, tokens, g, g + n, v, amount, g + params.pipelineLen);
    RunInv(xs, actions, i);
    RunInv(xs, actions, i + 1);
    PowerChanges(s, params, v, x, amount, g + n);
    SameChange(s, r, params, tokens, g + n, g + n + 1, v, amount, g + params.pipelineLen);
    RunStep(xs, actions, i + 1);
    SlashWrites(xs[i + 1], params, v, x, amount, g + n + 1, slashType, evidence, xs[i + 2]);
    var engine, t := xs[i].hist.engine, xs[i + 2].pos;
    forall late | Lists(late, t, t.epoch) ensures late == [] && Replay(engine, late) != Powerful(SetAt(t, t.epoch)) {
      LateEngineOfRuns(xs, actions, i, i + 2, late);
    }
  }

  lemma PowerChanges(s: Pos, params: PosParams, v: Address, x: nat, amount: nat, now: nat)
    requires Core(s) && OneChange(s, params, map[v := x], now, v, amount, now + 1)
    requires VotingPower(params, x) < VotingPower(params, x + amount)
    ensures Powerful(SetAt(s, now)) != Powerful(SetAt(s, now + 1))
  {
    hide Core, VotingPower, SetAt, Powerful, Stake, Joined, OneChange;
    OnlyMember(s, params, v, x, amount, now, now);
    OnlyMember(s, params, v, x, amount, now, now + 1);
  }

  lemma OnlyMember(s: Pos, params: PosParams, v: Address, x: nat, amount: nat, now: nat, e: nat)
    requires Core(s) && OneChange(s, params, map[v := x], now, v, amount, now + 1) && now <= e <= now + 1
    ensures var power := VotingPower(params, if e == now then x else x + amount);
      if power > 0 then v in Powerful(SetAt(s, e)) && Powerful(SetAt(s, e))[v] == power else v !in Powerful(SetAt(s, e))
  {
    hide Windows, SetsTrack, StakesFit, PowersFollow, TotalPowerOk, VotingPower, SetAt, MaxTotalVotingPower, Powerful,
      Members, OneChange, Slotted;
    var tokens := map[v := x];
    var w := Weighted(VotingPower(params, if e == now then x else x + amount), v);
    ParamsOfChange(s, params, tokens, now, v, amount, now + 1);
    assert SetOk(s, e);
    MemberThen(s, params, tokens, now, v, amount, now + 1, v, e);
    OnlyKnown(s, e);
    assert SetAt(s, e).All() == {w};
    OneActive(SetAt(s, e), s.params.maxValidatorSlots, w);
    PowerfulAt(SetAt(s, e), v);
  }

  /** A validator of genesis is a member with the weight of its stake. */
  lemma MemberThen(s: Pos, params: PosParams, tokens: map<Address, nat>, now: nat, v: Address, change: int, at: nat,
                   w: Address, e: nat)
    requires OneChange(s, params, tokens, now, v, change, at) && w in tokens && now <= e
    ensures var x := tokens[w] + if w == v && at <= e then change else 0;
      x >= 0 ==> Weighted(VotingPower(params, x), w) in Members(s, e)
  {
    hide VotingPower, Stake, Joined;
    assert Joined(s, w, e);
    assert Stake(s, w, e) == tokens[w] + if w == v && at <= e then change else 0;
  }

  lemma OnlyKnown(s: Pos, e: nat)
    ensures forall w :: w in Members(s, e) ==> w.address in s.states
    ensures UniqueAddresses(Members(s, e))
  {
    hide Weight, Joined;
  }

  lemma OneActive(vs: ValidatorSet, slots: nat, w: Weighted)
    requires WellFormed(vs, slots) && vs.All() == {w} && slots >= 1
    ensures w in vs.active && vs.active !! vs.inactive
  {
    assert vs.active <= {w};
    assert vs.active == {} ==> |vs.active| == 0;
  }

  /** A slash of a validator whose stake stays goes through. */
  lemma SlashWrites(x: System, params: PosParams, v: Address, stake: nat, amount: nat, now: nat, slashType: SlashType,
                    evidence: nat, y: System)
    requires Inv(x) && OneChange(x.pos, params, map[v := stake], now, v, amount, now)
    requires Next(x, DoSlash(v, slashType, evidence), y)
    ensures SetsWritten(y.pos)
  {
    hide SetsTrack, SetsOk, PowersFollow, TotalPowerOk, StateLine, SlashValidator, At, Joined, MaxTotalVotingPower,
      StakesFit, Books, EngineOk, BondsShaped, Filled, ChangeStake, MulBpsSigned, MulBps;
    var s := x.pos;
    var tokens := map[v := stake];
    assert v in tokens;
    SlashOutcome(s, v, slashType, evidence);
    SlashedWithin(s, v, slashType);
    forall e | s.epoch + s.params.pipelineLen <= e ensures SlashedAmount(s, v, slashType) <= Stake(s, v, e) {
      assert Stake(s, v, e) == Stake(s, v, s.epoch);
    }
    var t, slashed := SlashParts(s, v, slashType, evidence, SlashValidator(s, v, slashType, evidence).value);
    ChangeWrites(s, v, -slashed, s.params.pipelineLen, t);
  }

  // ---------- with the default parameters ----------

  const DEFAULT := PosParams(128, 2, 6, 10, 500, 500)

  /** A thousand tokens, in micro units, are worth a voting power of one. */
  const THOUSAND: nat := 1_000_000_000

  lemma DefaultPowers(slots: nat)
    requires 1 <= slots <= 128
    ensures ParamsOk(DEFAULT.(maxValidatorSlots := slots))
    ensures VotingPower(DEFAULT.(maxValidatorSlots := slots), THOUSAND) == 1
    ensures VotingPower(DEFAULT.(maxValidatorSlots := slots), 2 * THOUSAND) == 2
    ensures VotingPower(DEFAULT.(maxValidatorSlots := slots), 3 * THOUSAND) == 3
    ensures MulBps(500, THOUSAND) > 0
  {
    assert MulBps(10, TOKEN_MAX_AMOUNT) == 18_446_744_073;
  }

  /** All three happen with the default parameters, but for the number of slots in
      the second. */
  lemma WithDefaults()
    returns (xs: seq<System>, actions: seq<Action>, ys: seq<System>, bs: seq<Action>, zs: seq<System>,
      cs: seq<Action>, i: nat)
    ensures Run(xs, actions) && |xs| == |actions| + 1 && xs[|actions|].pos.params == DEFAULT
    ensures WindowsFit(xs[|actions|].pos)
    ensures SlashValidator(xs[|actions|].pos, 0, DuplicateVote, 0).Panicked?
    ensures Run(ys, bs) && |ys| == |bs| + 1 && ys[|bs|].pos.params == DEFAULT.(maxValidatorSlots := 1)
    ensures !RemovesOnlyMembers(ys[|bs|].pos, ys[|bs|].pos.epoch + 1)
    ensures Run(zs, cs) && |zs| == i + 3 && zs[i].pos.params == DEFAULT && LeftBehind(zs[i].hist.engine, zs[i + 2].pos)
  {
    hide Run, VotingPower, MulBps, SumOf, SlashValidator, RemovesOnlyMembers, LeftBehind, ParamsOk;
    DefaultPowers(128);
    DefaultPowers(1);
    SumSingle<Address>(0, THOUSAND);
    SumOfTwo(0, 1, 3 * THOUSAND, THOUSAND);
    xs, actions := SlashAborts(DEFAULT, map[0 := THOUSAND], 0, 0, DuplicateVote, 0);
    ys, bs := AbsentRemoved(DEFAULT.(maxValidatorSlots := 1), 0, 1, 3 * THOUSAND, THOUSAND, THOUSAND, 0);
    zs, cs, i := LateEngineWrong(DEFAULT, 0, THOUSAND, THOUSAND, 0, DuplicateVote, 0);
  }
}
