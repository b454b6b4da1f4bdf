/**
 What each transition does to the amounts of a bond and of its unbond, and the
 shape that stored bonds and unbonds keep.
 */
module BondInvariant {
  import opened Options
  import opened Timelines
  import opened Sums
  import opened Params
  import opened ValidatorSets
  import opened Ledger
  import opened StakeViews
  import opened CoreInvariant
  import opened DeltaMaps

  /** A bond belongs to the epoch in which it starts. */
  function StartRank(key: nat): nat { key }

  /** An unbond belongs to the epoch after the last one in which it is at stake. */
  function EndRank(key: (nat, nat)): nat { key.1 + 1 }

  /** All the tokens of a bond, by start. */
  ghost function BondsOf(s: Pos, id: BondId): Bond {
    if id in s.bonds then AllOf(s.bonds[id], s.params.pipelineLen) else map[]
  }

  /** All the tokens unbonded from a bond and not withdrawn, by start and end. */
  ghost function UnbondsOf(s: Pos, id: BondId): Unbond {
    if id in s.unbonds then AllOf(s.unbonds[id], s.params.unbondingLen) else map[]
  }

  /** The unbonded tokens that are withdrawable by an epoch. */
  ghost function DueBy(s: Pos, id: BondId, epoch: nat): Unbond {
    if id in s.unbonds then Total(Get(AddAmounts<(nat, nat)>, s.unbonds[id], epoch)) else map[]
  }

  ghost predicate BondOk(t: Timeline<Bond>, params: PosParams, epoch: nat) {
    Fits(t, params.pipelineLen) && t.lastUpdate <= epoch && Shaped(t, StartRank)
  }

  ghost predicate UnbondOk(t: Timeline<Unbond>, params: PosParams, epoch: nat) {
    Fits(t, params.unbondingLen) && t.lastUpdate <= epoch && Shaped(t, EndRank)
  }

  /** Stored bonds and unbonds belong to known validators, fit their windows, and
      hold positive amounts under the epochs they belong to. */
  ghost predicate BondsShaped(s: Pos) {
    && (forall id :: id in s.bonds ==> BondOk(s.bonds[id], s.params, s.epoch) && id.validator in s.states)
    && (forall id :: id in s.unbonds ==> UnbondOk(s.unbonds[id], s.params, s.epoch) && id.validator in s.states)
  }

  /** No stored unbond has an empty entry. */
  ghost predicate Filled(s: Pos) {
    forall id :: id in s.unbonds ==> FilledLine(s.unbonds[id])
  }

  function IdOf(source: Option<Address>, v: Address): BondId {
    BondId(source.UnwrapOr(v), v)
  }

  /** The part of the invariants that transitions on bonds rely on. */
  ghost predicate Sound(s: Pos) {
    Windows(s) && Valid(s.params) && BondsShaped(s)
  }

  lemma ShapedFrame(s: Pos, s': Pos, id: BondId)
    requires BondsShaped(s) && s'.params == s.params && s'.epoch == s.epoch && s.states.Keys <= s'.states.Keys
    requires id.validator in s'.states
    requires s'.bonds - {id} == s.bonds - {id} && s'.unbonds - {id} == s.unbonds - {id}
    requires id in s'.bonds ==> BondOk(s'.bonds[id], s.params, s.epoch)
    requires id in s'.unbonds ==> UnbondOk(s'.unbonds[id], s.params, s.epoch)
    ensures BondsShaped(s')
    ensures forall j :: j != id ==> BondsOf(s', j) == BondsOf(s, j) && UnbondsOf(s', j) == UnbondsOf(s, j)
    ensures forall j, e :: j != id ==> DueBy(s', j, e) == DueBy(s, j, e)
  {
    hide BondOk, UnbondOk, AllOf, Get;
    RestSame(s.bonds, s'.bonds, id);
    RestSame(s.unbonds, s'.unbonds, id);
  }

  lemma RestSame<K, V>(m: map<K, V>, n: map<K, V>, k: K)
    requires n - {k} == m - {k}
    ensures forall j :: j != k ==> (j in n <==> j in m)
    ensures forall j :: j != k && j in m ==> n[j] == m[j]
  {
    forall j | j != k ensures j in n <==> j in m {
      assert j in n - {k} <==> j in m - {k};
    }
    forall j | j != k && j in m ensures n[j] == m[j] {
      assert (n - {k})[j] == (m - {k})[j];
    }
  }

  // ---------- bonding ----------

  /** The delta of a new bond. */
  ghost function BondDelta(s: Pos, amount: nat): Bond {
    map[s.epoch + s.params.pipelineLen := amount]
  }

  ghost function BondAfter(s: Pos, id: BondId, amount: nat): Timeline<Bond> {
    var c, pipeline := s.epoch, s.params.pipelineLen;
    var value := BondDelta(s, amount);
    if id in s.bonds then AddAt(AddAmounts<nat>, s.bonds[id], value, c, pipeline, pipeline)
      else InitAt(value, c, pipeline)
  }

  lemma BondParts(s: Pos, source: Option<Address>, v: Address, amount: nat, s': Pos) returns (t: Pos)
    requires Windows(s) && Valid(s.params) && BondTokens(s, source, v, amount) == Ok(s')
    ensures amount > 0 && Changed(s, v, amount, s.params.pipelineLen, t)
    ensures s' == t.(bonds := s.bonds[IdOf(source, v) := BondAfter(s, IdOf(source, v), amount)],
      balance := s.balance + amount)
    ensures t.bonds == s.bonds && t.unbonds == s.unbonds && t.slashes == s.slashes && t.balance == s.balance
    ensures t.epoch == s.epoch && t.params == s.params && t.states == s.states
    ensures s.balance + amount <= U64_MAX && v in s.states
  {
    hide ChangeStake, Get, AddAt, InitAt, StateLine, MaxTotalVotingPower;
    t := ChangeStake(s, v, amount, s.params.pipelineLen).value;
    ChangeFrame(s, v, amount, s.params.pipelineLen, t);
  }

  lemma BondAfterOk(s: Pos, id: BondId, amount: nat)
    requires BondsShaped(s) && amount > 0 && Valid(s.params)
    ensures BondOk(BondAfter(s, id, amount), s.params, s.epoch)
    ensures AllOf(BondAfter(s, id, amount), s.params.pipelineLen) == AddAmounts(BondsOf(s, id), BondDelta(s, amount))
  {
    hide AddAt, InitAt, Get, AddAmounts, AllOf, Shaped;
    var c, pipeline := s.epoch, s.params.pipelineLen;
    var value := BondDelta(s, amount);
    if id in s.bonds {
      AllOfAdd(s.bonds[id], value, c, pipeline, pipeline);
      ShapedAdd(s.bonds[id], StartRank, value, c, pipeline, pipeline);
      AddAtShape(AddAmounts<nat>, s.bonds[id], value, c, pipeline, pipeline);
    } else {
      AllOfInit(value, c, pipeline, pipeline);
      ShapedInit(StartRank, value, c, pipeline);
      InitAtFits(value, c, pipeline);
      NothingAdded(value);
    }
  }

  lemma InitAtFits<T>(value: T, current: nat, i: nat)
    ensures InitAt(value, current, i).lastUpdate == current && |InitAt(value, current, i).data| == i + 1
  {
  }

  lemma NothingAdded<K>(m: map<K, nat>)
    ensures AddAmounts(map[], m) == m
  {
  }

  /** Bonding adds the amount under the pipeline epoch and nothing else. */
  lemma BondEffect(s: Pos, source: Option<Address>, v: Address, amount: nat, s': Pos)
    requires Sound(s) && BondTokens(s, source, v, amount) == Ok(s')
    ensures BondsShaped(s')
    ensures BondsOf(s', IdOf(source, v)) == AddAmounts(BondsOf(s, IdOf(source, v)), BondDelta(s, amount))
    ensures s'.bonds - {IdOf(source, v)} == s.bonds - {IdOf(source, v)} && s'.unbonds == s.unbonds
    ensures s'.balance == s.balance + amount && s'.slashes == s.slashes
    ensures s'.params == s.params && s'.epoch == s.epoch && s'.states == s.states
  {
    hide BondTokens, Get, AddAmounts, AllOf, BondOk, UnbondOk, StateLine, BondAfter, ChangeStake, Windows;
    var id := IdOf(source, v);
    var t := BondParts(s, source, v, amount, s');
    BondAfterOk(s, id, amount);
    assert s'.bonds - {id} == s.bonds - {id};
    ShapedFrame(s, s', id);
  }

  // ---------- unbonding ----------

  /** The tokens to unbond can be taken as `taken` says. */
  ghost predicate Takeable(s: Pos, id: BondId, amount: nat, taken: seq<Bond>) {
    id in s.bonds && Takes(Advance(AddAmounts<nat>, s.bonds[id], s.epoch, s.params.pipelineLen).data, amount, taken)
  }

  ghost function BondLeft(s: Pos, id: BondId, taken: seq<Bond>): Timeline<Bond>
    requires id in s.bonds && |taken| == |Advance(AddAmounts<nat>, s.bonds[id], s.epoch, s.params.pipelineLen).data|
  {
    var advanced := Advance(AddAmounts<nat>, s.bonds[id], s.epoch, s.params.pipelineLen);
    advanced.(data := LeftOvers(advanced.data, taken))
  }

  /** The delta of an unbond. */
  ghost function UnbondDelta(s: Pos, taken: seq<Bond>): Unbond
    requires s.params.unbondingLen > 0
  {
    Ending(TakenInAll(taken), s.epoch + s.params.unbondingLen - 1)
  }

  ghost function UnbondBefore(s: Pos, id: BondId): Timeline<Unbond> {
    if id in s.unbonds then s.unbonds[id] else InitAt(map[], s.epoch, s.params.unbondingLen)
  }

  ghost function UnbondAfter(s: Pos, id: BondId, taken: seq<Bond>): Timeline<Unbond>
    requires s.params.unbondingLen > 0
  {
    AddAt(AddAmounts<(nat, nat)>, UnbondBefore(s, id), UnbondDelta(s, taken), s.epoch, s.params.unbondingLen,
      s.params.unbondingLen)
  }

  lemma UnbondParts(s: Pos, source: Option<Address>, v: Address, amount: nat, taken: seq<Bond>, s': Pos)
    returns (t: Pos)
    requires Windows(s) && Valid(s.params) && UnbondTokens(s, source, v, amount, taken) == Ok(s')
    requires Takeable(s, IdOf(source, v), amount, taken)
    ensures amount > 0 && Changed(s, v, 0 - WorthInAll(taken, SlashesOf(s, v)) as int, s.params.unbondingLen, t)
    ensures var id := IdOf(source, v);
      var bond := BondLeft(s, id, taken);
      var bonds := if SumOf(Total(Get(AddAmounts<nat>, bond, s.epoch + s.params.pipelineLen))) != 0
        then s.bonds[id := bond] else s.bonds - {id};
      s' == t.(bonds := bonds, unbonds := s.unbonds[id := UnbondAfter(s, id, taken)])
    ensures t.slashes == s.slashes && t.balance == s.balance && t.epoch == s.epoch && t.params == s.params
    ensures t.states == s.states
    ensures amount <= SumOf(Total(Get(AddAmounts<nat>, s.bonds[IdOf(source, v)], s.epoch + s.params.pipelineLen)))
  {
    hide ChangeStake, Get, AddAt, InitAt, StateLine, MaxTotalVotingPower, SumOf, WorthInAll, LeftOvers, TakenInAll,
      Ending, Advance;
    var change := 0 - WorthInAll(taken, SlashesOf(s, v)) as int;
    t := ChangeStake(s, v, change, s.params.unbondingLen).value;
    ChangeFrame(s, v, change, s.params.unbondingLen, t);
  }

  lemma LeftOverPlaced(bond: Option<Bond>, taken: Bond, epoch: nat, head: bool)
    requires Placed(Total(bond), StartRank, epoch, head)
    ensures Placed(Total(LeftOver(bond, taken)), StartRank, epoch, head)
  {
  }

  /** What is left of the bond keeps its shape, and with what was taken it makes
      up the bond there was. */
  lemma BondLeftOk(s: Pos, id: BondId, amount: nat, taken: seq<Bond>)
    requires BondsShaped(s) && Takeable(s, id, amount, taken)
    ensures BondOk(BondLeft(s, id, taken), s.params, s.epoch)
    ensures BondsOf(s, id) == AddAmounts(AllOf(BondLeft(s, id, taken), s.params.pipelineLen), TakenInAll(taken))
    ensures SumOf(TakenInAll(taken)) == Min(amount, SumOf(BondsOf(s, id)))
  {
    hide AddAmounts, LeftOver, Get, Advance, SumOf, TakenInAll, Fold, Placed;
    var c, pipeline := s.epoch, s.params.pipelineLen;
    var u := Advance(AddAmounts<nat>, s.bonds[id], c, pipeline);
    var left := BondLeft(s, id, taken);
    AdvanceShape(AddAmounts<nat>, s.bonds[id], c, pipeline);
    ShapedAdvance(s.bonds[id], StartRank, c, pipeline);
    forall x | c <= x ensures Placed(Total(DeltaAt(left, x)), StartRank, x, x == c) {
      assert Placed(Total(DeltaAt(u, x)), StartRank, x, x == c);
      if x < c + |u.data| {
        LeftOverPlaced(u.data[x - c], taken[x - c], x, x == c);
      }
    }
    LeftOversAdd(u.data, amount, taken);
    TakenSum(u.data, amount, taken);
    AllOfAdvance(s.bonds[id], c, pipeline);
    AllOfFold(u, pipeline);
    AllOfFold(left, pipeline);
  }

  lemma AllOfFold<K(!new)>(t: Timeline<map<K, nat>>, off: nat)
    requires |t.data| == off + 1
    ensures AllOf(t, off) == Total(Fold(AddAmounts<K>, t.data))
  {
    FoldIsGet(AddAmounts<K>, t, t.lastUpdate + off);
    assert t.data[..off + 1] == t.data;
  }

  ghost predicate Positive<K>(m: map<K, nat>) {
    forall k :: k in m ==> m[k] > 0
  }

  /** Tokens are taken only from where there are some. */
  lemma {:induction false} TakenPlaced(data: seq<Option<Bond>>, want: nat, taken: seq<Bond>)
    requires Takes(data, want, taken) && forall i :: 0 <= i < |data| ==> Positive(Total(data[i]))
    ensures Positive(TakenInAll(taken)) && TakenInAll(taken).Keys <= Total(Fold(AddAmounts<nat>, data)).Keys
    decreases |data|
  {
    hide SumOf;
    if data != [] {
      var last := |data| - 1;
      var rest := want - Min(want, SumOf(Total(data[last])));
      PlusAmounts(Fold(AddAmounts<nat>, data[..last]), data[last]);
      TakenPlaced(data[..last], rest, taken[..last]);
    }
  }

  lemma ShapedPositive(t: Timeline<Bond>, i: nat)
    requires Shaped(t, StartRank) && i < |t.data|
    ensures Positive(Total(t.data[i]))
  {
    assert Placed(Total(DeltaAt(t, t.lastUpdate + i)), StartRank, t.lastUpdate + i, i == 0);
  }

  /** What was taken started by the pipeline epoch. */
  lemma TakenStarts(s: Pos, id: BondId, amount: nat, taken: seq<Bond>)
    requires BondsShaped(s) && Takeable(s, id, amount, taken)
    ensures Placed(TakenInAll(taken), StartRank, s.epoch + s.params.pipelineLen, true)
  {
    hide AddAmounts, Get, Advance, SumOf, TakenInAll, Fold;
    var c, pipeline := s.epoch, s.params.pipelineLen;
    var u := Advance(AddAmounts<nat>, s.bonds[id], c, pipeline);
    AdvanceShape(AddAmounts<nat>, s.bonds[id], c, pipeline);
    ShapedAdvance(s.bonds[id], StartRank, c, pipeline);
    forall i | 0 <= i < |u.data| ensures Positive(Total(u.data[i])) {
      ShapedPositive(u, i);
    }
    TakenPlaced(u.data, amount, taken);
    AllOfFold(u, pipeline);
    ShapedGet(u, StartRank, c + pipeline);
  }

  lemma UnbondDeltaPlaced(s: Pos, id: BondId, amount: nat, taken: seq<Bond>)
    requires BondsShaped(s) && Takeable(s, id, amount, taken) && s.params.unbondingLen > 0
    ensures Placed(UnbondDelta(s, taken), EndRank, s.epoch + s.params.unbondingLen, false)
    ensures SumOf(UnbondDelta(s, taken)) == SumOf(TakenInAll(taken))
  {
    hide AddAmounts, TakenInAll, Takes, SumOf;
    TakenStarts(s, id, amount, taken);
    SumEnding(TakenInAll(taken), s.epoch + s.params.unbondingLen - 1);
  }

  lemma UnbondBeforeOk(s: Pos, id: BondId)
    requires BondsShaped(s)
    ensures UnbondOk(UnbondBefore(s, id), s.params, s.epoch)
    ensures AllOf(UnbondBefore(s, id), s.params.unbondingLen) == UnbondsOf(s, id)
    ensures forall e :: s.epoch <= e ==> Total(Get(AddAmounts<(nat, nat)>, UnbondBefore(s, id), e)) == DueBy(s, id, e)
  {
    hide AddAmounts, InitAt, Get, AllOf, Shaped;
    if id !in s.unbonds {
      var off := s.params.unbondingLen;
      var none: Unbond := map[];
      ShapedInit(EndRank, none, s.epoch, off);
      InitAtFits(none, s.epoch, off);
      AllOfInit(none, s.epoch, off, off);
      forall e | s.epoch <= e ensures Total(Get(AddAmounts<(nat, nat)>, UnbondBefore(s, id), e)) == map[] {
        InitAtGet(AddAmounts<(nat, nat)>, none, s.epoch, off, e);
      }
    }
  }

  /** The unbonded tokens become due after the unbonding length and not before. */
  lemma UnbondAfterOk(s: Pos, id: BondId, amount: nat, taken: seq<Bond>)
    requires BondsShaped(s) && Takeable(s, id, amount, taken) && s.params.unbondingLen > 0
    ensures UnbondOk(UnbondAfter(s, id, taken), s.params, s.epoch)
    ensures AllOf(UnbondAfter(s, id, taken), s.params.unbondingLen) ==
      AddAmounts(UnbondsOf(s, id), UnbondDelta(s, taken))
    ensures forall e :: s.epoch <= e ==>
      Total(Get(AddAmounts<(nat, nat)>, UnbondAfter(s, id, taken), e)) ==
        if e < s.epoch + s.params.unbondingLen then DueBy(s, id, e)
          else AddAmounts(DueBy(s, id, e), UnbondDelta(s, taken))
  {
    hide AddAmounts, AddAt, Get, AllOf, Shaped, DueBy, UnbondsOf, UnbondBefore, UnbondDelta, Takeable, BondsShaped;
    var off := s.params.unbondingLen;
    var t, value := UnbondBefore(s, id), UnbondDelta(s, taken);
    UnbondBeforeOk(s, id);
    UnbondDeltaPlaced(s, id, amount, taken);
    ShapedAdd(t, EndRank, value, s.epoch, off, off);
    AddAtShape(AddAmounts<(nat, nat)>, t, value, s.epoch, off, off);
    AllOfAdd(t, value, s.epoch, off, off);
    forall e | s.epoch <= e ensures Total(Get(AddAmounts<(nat, nat)>, UnbondAfter(s, id, taken), e)) ==
      if e < s.epoch + off then DueBy(s, id, e) else AddAmounts(DueBy(s, id, e), value)
    {
      AddAmountsLaws<(nat, nat)>();
      AddAtGet(AddAmounts<(nat, nat)>, t, value, s.epoch, off, off, e);
      PlusAmounts(Get(AddAmounts<(nat, nat)>, t, e), Some(value));
    }
  }

  lemma EmptyWhenSumZero<K(!new)>(t: Timeline<map<K, nat>>, rank: K -> nat, epoch: nat)
    requires Shaped(t, rank) && t.lastUpdate <= epoch && SumOf(Total(Get(AddAmounts<K>, t, epoch))) == 0
    ensures Total(Get(AddAmounts<K>, t, epoch)) == map[]
  {
    hide Get, AddAmounts, Shaped, SumOf;
    ShapedGet(t, rank, epoch);
    SumZeroEmpty(Total(Get(AddAmounts<K>, t, epoch)));
  }

  /** Unbonding moves exactly the amount from the bond to the unbond, whatever the
      order in which the deltas are visited, also when the bond is deleted. */
  lemma UnbondEffect(s: Pos, source: Option<Address>, v: Address, amount: nat, taken: seq<Bond>, s': Pos)
    requires Sound(s) && UnbondTokens(s, source, v, amount, taken) == Ok(s')
    requires Takeable(s, IdOf(source, v), amount, taken)
    ensures BondsShaped(s')
    ensures SumOf(TakenInAll(taken)) == amount
    ensures BondsOf(s, IdOf(source, v)) == AddAmounts(BondsOf(s', IdOf(source, v)), TakenInAll(taken))
    ensures UnbondsOf(s', IdOf(source, v)) == AddAmounts(UnbondsOf(s, IdOf(source, v)), UnbondDelta(s, taken))
    ensures forall e :: s.epoch <= e ==>
      DueBy(s', IdOf(source, v), e) ==
        if e < s.epoch + s.params.unbondingLen then DueBy(s, IdOf(source, v), e)
        else AddAmounts(DueBy(s, IdOf(source, v), e), UnbondDelta(s, taken))
    ensures s'.balance == s.balance && s'.slashes == s.slashes
    ensures s'.params == s.params && s'.epoch == s.epoch && s'.states == s.states
    ensures s'.bonds - {IdOf(source, v)} == s.bonds - {IdOf(source, v)}
    ensures s'.unbonds - {IdOf(source, v)} == s.unbonds - {IdOf(source, v)}
  {
    hide UnbondTokens, Get, AddAmounts, AllOf, BondOk, UnbondOk, ChangeStake, SumOf, UnbondAfter, UnbondDelta,
      TakenInAll, WorthInAll, Advance, Windows, LeftOvers, LeftOver, BondLeft;
    var id := IdOf(source, v);
    var t := UnbondParts(s, source, v, amount, taken, s');
    var left := BondLeft(s, id, taken);
    BondLeftOk(s, id, amount, taken);
    UnbondAfterOk(s, id, amount, taken);
    BondEnd(s, id);
    if SumOf(Total(Get(AddAmounts<nat>, left, s.epoch + s.params.pipelineLen))) == 0 {
      BondGone(left, s.params, s.epoch);
    }
    assert s'.bonds - {id} == s.bonds - {id};
    assert s'.unbonds - {id} == s.unbonds - {id};
    ShapedFrame(s, s', id);
  }

  lemma NothingBefore(current: nat, off: nat, epoch: nat)
    requires off > 0 && epoch != current + off
    ensures var none: Unbond := map[];
      DeltaAt(Advance(AddAmounts<(nat, nat)>, InitAt(none, current, off), current, off), epoch) == None
  {
    hide AddAmounts, Advance, InitAt, Get;
    var none: Unbond := map[];
    var t := InitAt(none, current, off);
    InitAtFits(none, current, off);
    AddAmountsLaws<(nat, nat)>();
    AdvanceShape(AddAmounts<(nat, nat)>, t, current, off);
    if epoch == current {
      AdvanceHead(AddAmounts<(nat, nat)>, t, current, off);
      InitAtGet(AddAmounts<(nat, nat)>, none, current, off, current);
    } else if epoch > current {
      AdvanceTail(AddAmounts<(nat, nat)>, t, current, off, epoch);
      OneEntry(none, current, off, epoch);
    }
  }

  lemma OneEntry<T>(value: T, current: nat, i: nat, epoch: nat)
    requires epoch != current + i
    ensures DeltaAt(InitAt(value, current, i), epoch) == None
  {
  }

  lemma UnbondFilled(s: Pos, source: Option<Address>, v: Address, amount: nat, taken: seq<Bond>, s': Pos)
    requires Sound(s) && Filled(s)
    requires UnbondTokens(s, source, v, amount, taken) == Ok(s') && Takeable(s, IdOf(source, v), amount, taken)
    ensures Filled(s')
  {
    hide UnbondTokens, Get, AddAmounts, AllOf, BondOk, ChangeStake, SumOf, TakenInAll, WorthInAll, Advance, Windows,
      LeftOvers, LeftOver, BondLeft, AddAt, Takes, DeltaAt, Shaped, MaxTotalVotingPower, UnbondDelta;
    var id, c, off := IdOf(source, v), s.epoch, s.params.unbondingLen;
    var t := UnbondParts(s, source, v, amount, taken, s');
    UnbondEffect(s, source, v, amount, taken, s');
    UnbondDeltaPlaced(s, id, amount, taken);
    SumOfNothing<(nat, nat)>();
    var before := UnbondBefore(s, id);
    forall x: nat | x != c + off
      ensures var u := Advance(AddAmounts<(nat, nat)>, before, c, off);
        DeltaAt(u, x).Some? ==> DeltaAt(u, x).value != map[]
    {
      if id !in s.unbonds {
        NothingBefore(c, off, x);
      } else if x >= c {
        FilledAdvance(before, c, off, x);
      } else {
        AdvanceShape(AddAmounts<(nat, nat)>, before, c, off);
        NoEntryBefore(Advance(AddAmounts<(nat, nat)>, before, c, off), x);
      }
    }
    UnbondBeforeOk(s, id);
    FilledAdd(before, UnbondDelta(s, taken), c, off, off);
    RestSame(s.unbonds, s'.unbonds, id);
  }

  lemma BondEnd(s: Pos, id: BondId)
    requires BondsShaped(s) && id in s.bonds
    ensures Total(Get(AddAmounts<nat>, s.bonds[id], s.epoch + s.params.pipelineLen)) == BondsOf(s, id)
  {
    hide Get, AddAmounts, Shaped;
    AllOfAt(s.bonds[id], s.params.pipelineLen, s.epoch + s.params.pipelineLen);
  }

  lemma BondGone(t: Timeline<Bond>, params: PosParams, epoch: nat)
    requires BondOk(t, params, epoch) && SumOf(Total(Get(AddAmounts<nat>, t, epoch + params.pipelineLen))) == 0
    ensures AllOf(t, params.pipelineLen) == map[]
  {
    hide Get, AddAmounts, Shaped, SumOf;
    EmptyWhenSumZero(t, StartRank, epoch + params.pipelineLen);
    AllOfAt(t, params.pipelineLen, epoch + params.pipelineLen);
  }

  // ---------- withdrawing ----------

  lemma WithdrawParts(s: Pos, source: Option<Address>, v: Address, s': Pos)
    returns (t: Timeline<Unbond>, r: Timeline<Unbond>)
    requires Sound(s) && WithdrawTokens(s, source, v) == Ok(s')
    ensures IdOf(source, v) in s.unbonds && t == s.unbonds[IdOf(source, v)]
    ensures r == DeleteHead(AddAmounts<(nat, nat)>, t, s.epoch, s.params.unbondingLen)
    ensures s' == s.(unbonds := s'.unbonds, balance := s'.balance)
    ensures IdOf(source, v) in s'.unbonds ==> s'.unbonds == s.unbonds[IdOf(source, v) := r]
    ensures IdOf(source, v) !in s'.unbonds ==> s'.unbonds == s.unbonds - {IdOf(source, v)}
    ensures IdOf(source, v) !in s'.unbonds ==>
      SumOf(Total(Get(AddAmounts<(nat, nat)>, r, s.epoch + s.params.unbondingLen))) == 0
    ensures s'.balance == s.balance - Withdrawable(DueBy(s, IdOf(source, v), s.epoch), SlashesOf(s, v))
    ensures Get(AddAmounts<(nat, nat)>, t, s.epoch).Some?
  {
    hide Get, AddAmounts, Windows, BondsShaped, SumOf, DeleteHead, Withdrawable;
    t := s.unbonds[IdOf(source, v)];
    r := DeleteHead(AddAmounts<(nat, nat)>, t, s.epoch, s.params.unbondingLen);
  }

  /** Withdrawing takes out exactly the tokens that are due, also when the unbond
      is deleted. */
  lemma WithdrawEffect(s: Pos, source: Option<Address>, v: Address, s': Pos)
    requires Sound(s) && WithdrawTokens(s, source, v) == Ok(s')
    ensures BondsShaped(s')
    ensures var id := IdOf(source, v);
      forall e :: s.epoch <= e ==> DueBy(s, id, e) == AddAmounts(DueBy(s, id, s.epoch), DueBy(s', id, e))
    ensures UnbondsOf(s, IdOf(source, v)) ==
      AddAmounts(DueBy(s, IdOf(source, v), s.epoch), UnbondsOf(s', IdOf(source, v)))
    ensures s' == s.(unbonds := s'.unbonds, balance := s'.balance)
    ensures s'.unbonds - {IdOf(source, v)} == s.unbonds - {IdOf(source, v)}
    ensures s'.balance == s.balance - Withdrawable(DueBy(s, IdOf(source, v), s.epoch), SlashesOf(s, v))
  {
    hide Get, AddAmounts, Windows, SumOf, DeleteHead, Withdrawable, WithdrawTokens, Shaped, AllOf;
    var id := IdOf(source, v);
    var c, off := s.epoch, s.params.unbondingLen;
    var t, r := WithdrawParts(s, source, v, s');
    ShapedDelete(t, EndRank, c, off);
    DeleteHeadDelta(AddAmounts<(nat, nat)>, t, c, off, c);
    forall e | c <= e ensures DueBy(s, id, e) == AddAmounts(DueBy(s, id, c), DueBy(s', id, e)) {
      AllOfDelete(t, c, off, e);
      UnbondKept(r, off, c, e, id in s'.unbonds, DueBy(s', id, e));
    }
    AllOfAt(t, off, c + off);
    assert DueBy(s, id, c + off) == AddAmounts(DueBy(s, id, c), DueBy(s', id, c + off));
    if id in s'.unbonds {
      AllOfAt(r, off, c + off);
    }
    assert s'.unbonds - {id} == s.unbonds - {id};
    ShapedFrame(s, s', id);
  }

  lemma WithdrawFilled(s: Pos, source: Option<Address>, v: Address, s': Pos)
    requires Sound(s) && Filled(s) && WithdrawTokens(s, source, v) == Ok(s')
    ensures Filled(s')
  {
    hide Get, AddAmounts, Windows, SumOf, DeleteHead, Withdrawable, WithdrawTokens, Shaped, FilledLine;
    var t, r := WithdrawParts(s, source, v, s');
    FilledDelete(t, s.epoch, s.params.unbondingLen);
    RestSame(s.unbonds, s'.unbonds, IdOf(source, v));
  }

  lemma {:induction false} SumGetGrows<K(!new)>(t: Timeline<map<K, nat>>, lo: nat, hi: nat)
    requires t.lastUpdate <= lo <= hi
    ensures 0 <= SumOf(Total(Get(AddAmounts<K>, t, lo))) <= SumOf(Total(Get(AddAmounts<K>, t, hi)))
    decreases hi
  {
    hide AddAmounts, DeltaAt, SumOf;
    SumNonNegative(Total(Get(AddAmounts<K>, t, lo)));
    if lo < hi {
      SumGetGrows(t, lo, hi - 1);
      PlusAmounts(Get(AddAmounts<K>, t, hi - 1), DeltaAt(t, hi));
      SumAddAmounts(Total(Get(AddAmounts<K>, t, hi - 1)), Total(DeltaAt(t, hi)));
      SumNonNegative(Total(DeltaAt(t, hi)));
    }
  }

  /** An unbond that is deleted because nothing is left reads as nothing. */
  lemma UnbondKept(r: Timeline<Unbond>, off: nat, c: nat, epoch: nat, kept: bool, due: Unbond)
    requires r.lastUpdate == c <= epoch && Fits(r, off) && Shaped(r, EndRank)
    requires kept ==> due == Total(Get(AddAmounts<(nat, nat)>, r, epoch))
    requires !kept ==> due == map[] && SumOf(Total(Get(AddAmounts<(nat, nat)>, r, c + off))) == 0
    ensures due == Total(Get(AddAmounts<(nat, nat)>, r, epoch))
  {
    hide Get, AddAmounts, Shaped, SumOf;
    if !kept {
      if epoch <= c + off {
        SumGetGrows(r, epoch, c + off);
      } else {
        PastWindow(AddAmounts<(nat, nat)>, r, off, c + off, epoch);
      }
      EmptyWhenSumZero(r, EndRank, epoch);
    }
  }
}
