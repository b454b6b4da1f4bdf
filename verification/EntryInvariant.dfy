/**
 The epochs at which stakes and voting powers have entries of their own: where a
 stake has one the voting power has one too, and a voting power has none before
 the first of the stake. Every transition keeps this, in every run.
 */
module EntryInvariant {
  import opened Options
  import opened Timelines
  import opened Sums
  import opened Params
  import opened ValidatorSets
  import opened Ledger
  import opened StakeViews
  import opened CoreInvariant
  import opened CoreSteps
  import opened BondInvariant
  import opened Solvency
  import opened Consensus
  import opened Runs
  import opened RunTheorems

  ghost predicate EntriesMatch(total: Timeline<int>, power: Timeline<int>) {
    && (forall x :: DeltaAt(total, x).Some? ==> DeltaAt(power, x).Some?)
    && (forall x :: DeltaAt(power, x).Some? ==> Get(AddInts, total, x).Some?)
  }

  ghost predicate Entries(s: Pos) {
    forall v :: v in s.totals && v in s.powers ==> EntriesMatch(s.totals[v], s.powers[v])
  }

  /** The container has an entry at an epoch once it is brought forward. */
  ghost predicate HasEntry(t: Timeline<int>, current: nat, epoch: nat) {
    if epoch == current then Get(AddInts, t, current).Some? else DeltaAt(t, epoch).Some?
  }

  lemma AddAtSome(t: Timeline<int>, delta: int, current: nat, i: nat, off: nat, epoch: nat)
    requires Fits(t, off) && i <= off && t.lastUpdate <= current
    ensures DeltaAt(AddAt(AddInts, t, delta, current, i, off), epoch).Some? <==>
      epoch >= current && (epoch == current + i || HasEntry(t, current, epoch))
  {
    hide AddAt, Advance, Get;
    AddIntsLaws();
    AddAtDelta(AddInts, t, delta, current, i, off, epoch);
    if epoch < current {
      AddAtShape(AddInts, t, delta, current, i, off);
    } else if epoch == current {
      AdvanceHead(AddInts, t, current, off);
    } else {
      AdvanceTail(AddInts, t, current, off, epoch);
    }
  }

  lemma SomeFrom(t: Timeline<int>, entry: nat, epoch: nat)
    requires DeltaAt(t, entry).Some? && entry <= epoch
    ensures Get(AddInts, t, epoch).Some?
  {
    hide Get;
    GetNone(AddInts, t, epoch);
  }

  lemma SomeEntry(t: Timeline<int>, epoch: nat) returns (entry: nat)
    requires Get(AddInts, t, epoch).Some? && t.lastUpdate <= epoch
    ensures entry <= epoch && DeltaAt(t, entry).Some?
  {
    hide Get;
    GetNone(AddInts, t, epoch);
    entry :| t.lastUpdate <= entry <= epoch && DeltaAt(t, entry) != None;
  }

  lemma {:induction false} UpdatePowersSome(params: PosParams, total: Timeline<int>, power: Timeline<int>,
                                            totalPower: Timeline<int>, current: nat, x: nat, p: Timeline<int>,
                                            t: Timeline<int>, epoch: nat)
    requires current <= x <= current + params.unbondingLen && PowersReady(params, power, totalPower, current)
    requires UpdatePowers(params, total, power, totalPower, current, x) == Ok((p, t))
    ensures DeltaAt(p, epoch).Some? <==>
      epoch >= current && (x <= epoch <= current + params.unbondingLen || HasEntry(power, current, epoch))
    decreases current + params.unbondingLen + 1 - x
  {
    hide AddAt, Get, VotingPower, DeltaAt;
    var off := params.unbondingLen;
    var delta := TryVotingPowerDelta(params, At(total, x)).value - At(power, x);
    var p1 := AddAt(AddInts, power, delta, current, x - current, off);
    var t1 := AddAt(AddInts, totalPower, delta, current, x - current, off);
    AddAtShape(AddInts, power, delta, current, x - current, off);
    AddAtShape(AddInts, totalPower, delta, current, x - current, off);
    AddAtSome(power, delta, current, x - current, off, epoch);
    if x < current + off {
      UpdatePowersSome(params, total, p1, t1, current, x + 1, p, t, epoch);
      HeadEntry(p1);
    }
  }

  lemma HeadEntry(t: Timeline<int>)
    ensures forall x :: HasEntry(t, t.lastUpdate, x) <==> DeltaAt(t, x).Some?
  {
  }

  /** A change of stake keeps the entries in step. */
  lemma ChangedEntries(total: Timeline<int>, power: Timeline<int>, total': Timeline<int>, power': Timeline<int>,
                       current: nat, i: nat, off: nat)
    requires EntriesMatch(total, power) && i <= off
    requires total.lastUpdate <= current && power.lastUpdate <= current
    requires forall x: nat :: DeltaAt(total', x).Some? <==>
      x >= current && (x == current + i || HasEntry(total, current, x))
    requires forall x: nat :: DeltaAt(power', x).Some? <==>
      x >= current && (current + i <= x <= current + off || HasEntry(power, current, x))
    ensures EntriesMatch(total', power')
  {
    hide Get, DeltaAt;
    forall x | DeltaAt(total', x).Some? ensures DeltaAt(power', x).Some? {
      if x == current && HasEntry(total, current, x) {
        var y := SomeEntry(total, current);
        SomeFrom(power, y, current);
      }
    }
    forall x | DeltaAt(power', x).Some? ensures Get(AddInts, total', x).Some? {
      if current + i <= x {
        SomeFrom(total', current + i, x);
      } else {
        EarlierEntry(total, power, current, x);
        var y := SomeEntry(total, x);
        if y <= current {
          SomeFrom(total, y, current);
          SomeFrom(total', current, x);
        } else {
          SomeFrom(total', y, x);
        }
      }
    }
  }

  lemma EarlierEntry(total: Timeline<int>, power: Timeline<int>, current: nat, x: nat)
    requires EntriesMatch(total, power) && total.lastUpdate <= current <= x && power.lastUpdate <= current
    requires HasEntry(power, current, x)
    ensures Get(AddInts, total, x).Some?
  {
    hide Get, DeltaAt;
    if x == current {
      var y := SomeEntry(power, current);
      assert Get(AddInts, total, y).Some?;
      if y < total.lastUpdate {
        HeadRead(total, y);
        SomeFrom(total, total.lastUpdate, x);
      } else {
        var z := SomeEntry(total, y);
        SomeFrom(total, z, x);
      }
    }
  }

  lemma HeadRead(t: Timeline<int>, epoch: nat)
    requires epoch <= t.lastUpdate
    ensures Get(AddInts, t, epoch) == DeltaAt(t, t.lastUpdate)
  {
  }

  // ---------- steps ----------

  lemma ChangeEntries(s: Pos, v: Address, change: int, i: nat, s': Pos)
    requires Windows(s) && Entries(s) && Changed(s, v, change, i, s')
    ensures Entries(s')
  {
    hide ChangeStake, EntriesMatch, HasEntry, DeltaAt, StateLine, AddAt, UpdatePowers, UpdateFrom, Mover, MoveFits;
    var c, off := s.epoch, s.params.unbondingLen;
    ChangeFrame(s, v, change, i, s');
    forall x: nat ensures DeltaAt(s'.totals[v], x).Some? <==> x >= c && (x == c + i || HasEntry(s.totals[v], c, x)) {
      AddAtSome(s.totals[v], change, c, i, off, x);
    }
    forall x: nat
      ensures DeltaAt(s'.powers[v], x).Some? <==> x >= c && (c + i <= x <= c + off || HasEntry(s.powers[v], c, x))
    {
      UpdatePowersSome(s.params, s'.totals[v], s.powers[v], s.totalPower, c, c + i, s'.powers[v], s'.totalPower, x);
    }
    ChangedEntries(s.totals[v], s.powers[v], s'.totals[v], s'.powers[v], c, i, off);
  }

  lemma NewEntries(total: int, power: int, current: nat, i: nat)
    ensures EntriesMatch(InitAt(total, current, i), InitAt(power, current, i))
  {
    hide Get;
    var t, p := InitAt(total, current, i), InitAt(power, current, i);
    InitAtGet(AddInts, total, current, i, current + i);
    forall x ensures DeltaAt(t, x).Some? <==> x == current + i {
    }
    forall x ensures DeltaAt(p, x).Some? <==> x == current + i {
    }
  }

  lemma SameEntries(s: Pos, s': Pos)
    requires Entries(s) && s'.totals == s.totals && s'.powers == s.powers
    ensures Entries(s')
  {
  }

  lemma BecomeEntries(s: Pos, a: Address, reward: Address, s': Pos)
    requires WindowsFit(s) && Entries(s) && BecomeValidator(s, a, reward) == Ok(s')
    ensures Entries(s')
  {
    hide EntriesMatch, InitAt, AddAt, UpdateFrom;
    NewEntries(0, 0, s.epoch, s.params.pipelineLen);
  }

  lemma GenesisEntries(params: PosParams, tokens: map<Address, nat>, g: nat)
    requires 0 <= SumOf(tokens)
    ensures Entries(Genesis(params, tokens, g))
  {
    hide EntriesMatch, InitAt, VotingPower, SumOf;
    var s := Genesis(params, tokens, g);
    forall v | v in s.totals && v in s.powers ensures EntriesMatch(s.totals[v], s.powers[v]) {
      NewEntries(tokens[v], VotingPower(params, tokens[v]), g, 0);
    }
  }

  lemma StepEntries(x: System, a: Action, y: System)
    requires Inv(x) && Entries(x.pos) && Next(x, a, y)
    ensures Entries(y.pos)
  {
    hide SetsTrack, StakesFit, SetsOk, PowersFollow, TotalPowerOk, BondsShaped, Books, EngineOk, Entries, Windows,
      Valid, BondTokens, UnbondTokens, Withdraw, SlashValidator, BecomeValidator, Takeable, Lists, Replay, DueBy,
      ChangeStake, AddAmounts, UnbondsOf, Withdrawable, BondAfter, BondLeft, UnbondAfter, WorthInAll, SumOf, Get,
      MulBpsSigned, At;
    var s := x.pos;
    match a
    case DoBecome(address, reward) =>
      var r := BecomeValidator(s, address, reward);
      if r.Ok? { BecomeEntries(s, address, reward, r.value); }
    case DoBond(source, v, amount) =>
      var r := BondTokens(s, source, v, amount);
      if r.Ok? {
        var t := BondParts(s, source, v, amount, r.value);
        ChangeEntries(s, v, amount, s.params.pipelineLen, t);
        SameEntries(t, r.value);
      }
    case DoUnbond(source, v, amount, taken) =>
      var r := UnbondTokens(s, source, v, amount, taken);
      if r.Ok? {
        var t := UnbondParts(s, source, v, amount, taken, r.value);
        ChangeEntries(s, v, 0 - WorthInAll(taken, SlashesOf(s, v)) as int, s.params.unbondingLen, t);
        SameEntries(t, r.value);
      }
    case DoWithdraw(source, v) =>
      var r := WithdrawTokens(s, source, v);
      if r.Ok? {
        WithdrawEffect(s, source, v, r.value);
        SameEntries(s, r.value);
      }
    case DoSlash(v, slashType, evidenceEpoch) =>
      var r := SlashValidator(s, v, slashType, evidenceEpoch);
      if r.Ok? {
        var t, slashed := SlashParts(s, v, slashType, evidenceEpoch, r.value);
        ChangeEntries(s, v, -slashed, s.params.pipelineLen, t);
        SameEntries(t, r.value);
      }
    case DoNextEpoch(updates) =>
      SameEntries(s, y.pos);
  }

  /** The entries are in step in every state of every run. */
  lemma {:induction false} RunEntries(xs: seq<System>, actions: seq<Action>, i: nat)
    requires Run(xs, actions) && i < |xs|
    ensures Entries(xs[i].pos)
    decreases i
  {
    hide Inv, Next, Entries, Genesis, GenesisOk;
    if i == 0 {
      var params, tokens, g :| Initial(xs[0], params, tokens, g);
      GenesisStart(xs[0], params, tokens, g);
    } else {
      RunEntries(xs, actions, i - 1);
      RunInv(xs, actions, i - 1);
      RunStep(xs, actions, i - 1);
      StepEntries(xs[i - 1], actions[i - 1], xs[i]);
    }
  }

  lemma GenesisStart(x: System, params: PosParams, tokens: map<Address, nat>, g: nat)
    requires Initial(x, params, tokens, g)
    ensures Entries(x.pos)
  {
    hide Entries, Genesis, Powerful, SetAt, SumOf, ParamsOk;
    GenesisEntries(params, tokens, g);
  }
}
