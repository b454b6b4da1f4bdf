/**
 Transactions made of any number of bondings, unbondings and withdrawals within
 one epoch, in runs without slashes: exactly when the check accepts what they
 have written together.
 */
module Composition {
  import opened Options
  import opened Timelines
  import opened Sums
  import opened Params
  import opened ValidatorSets
  import opened Ledger
  import opened StakeViews
  import opened CoreInvariant
  import opened CoreSteps
  import opened DeltaMaps
  import opened BondInvariant
  import opened Solvency
  import opened Runs
  import opened RunTheorems
  import opened EntryInvariant
  import opened Validation
  import opened ValidationSound
  import opened WriterAgreement
  import opened Contributions
  import opened ReportedChanges
  import opened Reports
  import opened StakeReports
  import opened Agreement

  // ---------- bonds and unbonds within an epoch ----------

  ghost predicate Elsewhere(s: Pos, e: nat) {
    s.epoch <= e && e != s.epoch + s.params.pipelineLen
  }

  /** What was bonded before is at most taken from; a new bond has an entry at the
      pipeline offset only, and is not empty. */
  ghost predicate BondMoved(s: Pos, t: Pos, id: BondId) {
    id in t.bonds ==>
      && t.bonds[id].lastUpdate == s.epoch
      && if id in s.bonds
         then forall e :: Elsewhere(s, e) ==>
           Within(Total(DeltaAt(t.bonds[id], e)), Total(Get(AddAmounts<nat>, s.bonds[id], e)))
         else SumOf(BondsOf(t, id)) > 0 && forall e :: Elsewhere(s, e) ==> DeltaAt(t.bonds[id], e).None?
  }

  /** Two states within one epoch and the keys of the tokens written in between. */
  ghost predicate TokensMoved(s: Pos, t: Pos, keys: set<Key>) {
    && BondsShaped(s) && BondsShaped(t) && t.epoch == s.epoch && t.params == s.params
    && s.slashes == map[] && t.slashes == map[]
    && (forall id :: if BondKey(id) in keys then BondMoved(s, t, id) else Find(t.bonds, id) == Find(s.bonds, id))
    && (forall id :: if UnbondKey(id) in keys then id in t.unbonds ==> t.unbonds[id].lastUpdate == s.epoch
                     else Find(t.unbonds, id) == Find(s.unbonds, id))
    && (BalanceKey !in keys ==> t.balance == s.balance)
  }

  lemma AdvanceEntries(t: Timeline<Bond>, off: nat, e: nat)
    requires Fits(t, off) && t.lastUpdate <= e
    ensures DeltaAt(Advance(AddAmounts<nat>, t, t.lastUpdate, off), e) == DeltaAt(t, e)
  {
    hide Advance, AddAmounts;
    AddAmountsLaws<nat>();
    if e == t.lastUpdate {
      AdvanceHead(AddAmounts<nat>, t, t.lastUpdate, off);
    } else {
      AdvanceTail(AddAmounts<nat>, t, t.lastUpdate, off, e);
    }
  }

  /** An entry of a bond brought forward, against the bond at the start. */
  lemma BroughtForward(s: Pos, m: Pos, keys: set<Key>, id: BondId, e: nat)
    requires TokensMoved(s, m, keys) && id in m.bonds && Elsewhere(s, e)
    ensures var entry := DeltaAt(Advance(AddAmounts<nat>, m.bonds[id], s.epoch, s.params.pipelineLen), e);
      if id in s.bonds then Within(Total(entry), Total(Get(AddAmounts<nat>, s.bonds[id], e))) else entry.None?
  {
    hide Get, AddAmounts, Advance, DeltaAt, SumOf, Within, Shaped;
    assert if BondKey(id) in keys then BondMoved(s, m, id) else Find(m.bonds, id) == Find(s.bonds, id);
    if BondKey(id) in keys {
      AdvanceEntries(m.bonds[id], s.params.pipelineLen, e);
    } else {
      EntryWithin(s.bonds[id], s.epoch, s.params.pipelineLen, e);
    }
  }

  lemma BondMovedByBond(s: Pos, m: Pos, keys: set<Key>, source: Option<Address>, v: Address, amount: nat, t: Pos)
    requires TokensMoved(s, m, keys) && Sound(m) && BondTokens(m, source, v, amount) == Ok(t)
    ensures BondMoved(s, t, IdOf(source, v))
  {
    hide Get, AddAmounts, Advance, DeltaAt, SumOf, Within, BondTokens, Windows, BondsShaped, Changed, Valid, AddAt,
      InitAt, BondsOf;
    var id, c, off := IdOf(source, v), s.epoch, s.params.pipelineLen;
    var u := BondParts(m, source, v, amount, t);
    BondEffect(m, source, v, amount, t);
    BondAfterFresh(m, id, amount);
    SumAddAmounts(BondsOf(m, id), BondDelta(m, amount));
    SumSingle<nat>(c + off, amount);
    SumNonNegative(BondsOf(m, id));
    forall e | Elsewhere(s, e)
      ensures if id in s.bonds then Within(Total(DeltaAt(t.bonds[id], e)), Total(Get(AddAmounts<nat>, s.bonds[id], e)))
        else DeltaAt(t.bonds[id], e).None?
    {
      BondAfterEntry(s, m, keys, id, amount, e);
    }
  }

  lemma BondAfterEntry(s: Pos, m: Pos, keys: set<Key>, id: BondId, amount: nat, e: nat)
    requires TokensMoved(s, m, keys) && Elsewhere(s, e)
    ensures var entry := DeltaAt(BondAfter(m, id, amount), e);
      if id in s.bonds then Within(Total(entry), Total(Get(AddAmounts<nat>, s.bonds[id], e))) else entry.None?
  {
    hide Get, AddAmounts, Advance, SumOf, Shaped, AddAt;
    var c, off := s.epoch, s.params.pipelineLen;
    if id in m.bonds {
      AddAtDelta(AddAmounts<nat>, m.bonds[id], BondDelta(m, amount), c, off, off, e);
      BroughtForward(s, m, keys, id, e);
    }
  }

  lemma BondMovedByUnbond(s: Pos, m: Pos, keys: set<Key>, source: Option<Address>, v: Address, amount: nat,
                          taken: seq<Bond>, t: Pos)
    requires TokensMoved(s, m, keys) && Sound(m) && UnbondTokens(m, source, v, amount, taken) == Ok(t)
    requires Takeable(m, IdOf(source, v), amount, taken)
    ensures BondMoved(s, t, IdOf(source, v))
  {
    hide Get, AddAmounts, Advance, DeltaAt, SumOf, Within, UnbondTokens, Windows, BondsShaped, Changed, BondLeft,
      UnbondAfter, Takes, WorthInAll, BondOk, AllOf, MaxTotalVotingPower;
    var id, c, off := IdOf(source, v), s.epoch, s.params.pipelineLen;
    var u := UnbondParts(m, source, v, amount, taken, t);
    UnbondAfterFresh(m, id, amount, taken);
    BondLeftOk(m, id, amount, taken);
    TakesSize(Advance(AddAmounts<nat>, m.bonds[id], c, off).data, amount, taken);
    if id in t.bonds {
      BondSum(m, id, taken);
      SumNonNegative(BondsOf(t, id));
      forall e | Elsewhere(s, e)
        ensures if id in s.bonds
          then Within(Total(DeltaAt(t.bonds[id], e)), Total(Get(AddAmounts<nat>, s.bonds[id], e)))
          else DeltaAt(t.bonds[id], e).None?
      {
        BondLeftEntry(s, m, keys, id, amount, taken, e);
      }
    }
  }

  lemma BondSum(m: Pos, id: BondId, taken: seq<Bond>)
    requires id in m.bonds && |taken| == |Advance(AddAmounts<nat>, m.bonds[id], m.epoch, m.params.pipelineLen).data|
    requires BondOk(BondLeft(m, id, taken), m.params, m.epoch) && BondLeft(m, id, taken).lastUpdate == m.epoch
    ensures SumOf(Total(Get(AddAmounts<nat>, BondLeft(m, id, taken), m.epoch + m.params.pipelineLen))) ==
      SumOf(AllOf(BondLeft(m, id, taken), m.params.pipelineLen))
  {
    hide Get, AddAmounts, SumOf, BondLeft, Shaped;
    AllOfAt(BondLeft(m, id, taken), m.params.pipelineLen, m.epoch + m.params.pipelineLen);
  }

  lemma BondLeftEntry(s: Pos, m: Pos, keys: set<Key>, id: BondId, amount: nat, taken: seq<Bond>, e: nat)
    requires TokensMoved(s, m, keys) && Elsewhere(s, e) && Takeable(m, id, amount, taken)
    ensures var entry := DeltaAt(BondLeft(m, id, taken), e);
      if id in s.bonds then Within(Total(entry), Total(Get(AddAmounts<nat>, s.bonds[id], e))) else entry.None?
  {
    hide Get, AddAmounts, Advance, SumOf, Within, BondsShaped, TakesFrom;
    var u := Advance(AddAmounts<nat>, m.bonds[id], s.epoch, s.params.pipelineLen);
    BroughtForward(s, m, keys, id, e);
    TakesSize(u.data, amount, taken);
    if id in s.bonds {
      LeftEntry(u, taken, e, Total(Get(AddAmounts<nat>, s.bonds[id], e)));
    }
  }

  // ---------- steps ----------

  lemma TokensUnmoved(s: Pos)
    requires BondsShaped(s) && s.slashes == map[]
    ensures TokensMoved(s, s, {})
  {
    hide BondsShaped, BondMoved;
  }

  lemma FindRest<K, V>(m: map<K, V>, n: map<K, V>, k: K, j: K)
    requires n - {k} == m - {k} && j != k
    ensures Find(n, j) == Find(m, j)
  {
    assert j in m <==> j in m - {k};
    assert j in n <==> j in n - {k};
    assert j in m ==> (m - {k})[j] == m[j];
    assert j in n ==> (n - {k})[j] == n[j];
  }

  /** The bond of an identity is as it was in between. */
  lemma SameBond(s: Pos, m: Pos, t: Pos, id: BondId)
    requires Find(t.bonds, id) == Find(m.bonds, id) && t.params == m.params
    ensures BondMoved(s, m, id) ==> BondMoved(s, t, id)
  {
    hide Get, AddAmounts, DeltaAt, SumOf, Within, AllOf;
    assert id in t.bonds <==> id in m.bonds;
    if id in m.bonds {
      assert t.bonds[id] == m.bonds[id] && BondsOf(t, id) == BondsOf(m, id);
    }
  }

  lemma TokensStep(s: Pos, m: Pos, keys: set<Key>, id: BondId, more: set<Key>, t: Pos)
    requires TokensMoved(s, m, keys) && BondsShaped(t) && t.epoch == m.epoch && t.params == m.params
    requires t.slashes == m.slashes
    requires t.bonds - {id} == m.bonds - {id} && t.unbonds - {id} == m.unbonds - {id}
    requires BondKey(id) !in more ==> t.bonds == m.bonds
    requires UnbondKey(id) !in more ==> t.unbonds == m.unbonds
    requires BalanceKey !in more ==> t.balance == m.balance
    requires BondKey(id) in more ==> BondMoved(s, t, id)
    requires UnbondKey(id) in more && id in t.unbonds ==> t.unbonds[id].lastUpdate == s.epoch
    requires forall j :: (BondKey(j) in more ==> j == id) && (UnbondKey(j) in more ==> j == id)
    ensures TokensMoved(s, t, keys + more)
  {
    hide BondsShaped, BondMoved, Find;
    forall j ensures if BondKey(j) in keys + more then BondMoved(s, t, j) else Find(t.bonds, j) == Find(s.bonds, j) {
      if j != id { FindRest(m.bonds, t.bonds, id, j); }
      if BondKey(j) !in more { SameBond(s, m, t, j); }
    }
    forall j ensures if UnbondKey(j) in keys + more then j in t.unbonds ==> t.unbonds[j].lastUpdate == s.epoch
                     else Find(t.unbonds, j) == Find(s.unbonds, j)
    {
      if j != id { FindRest(m.unbonds, t.unbonds, id, j); }
      SameUnbond(m, t, j);
    }
  }

  lemma SameUnbond(m: Pos, t: Pos, id: BondId)
    ensures Find(t.unbonds, id) == Find(m.unbonds, id) ==>
      (id in t.unbonds <==> id in m.unbonds) && (id in t.unbonds ==> t.unbonds[id] == m.unbonds[id])
  {
  }

  // ---------- what the tokens contribute ----------

  lemma SumGap<K>(a: map<K, nat>, b: map<K, nat>)
    ensures SumOf(Gap(a, b)) == SumOf(b) - SumOf(a)
  {
    hide SumOf;
    SumPointwise(a, Gap(a, b), b);
  }

  ghost function BondGain(s: Pos, t: Pos, id: BondId): int {
    SumOf(BondsOf(t, id)) - SumOf(BondsOf(s, id))
  }

  ghost function UnbondGain(s: Pos, t: Pos, id: BondId): int {
    SumOf(UnbondsOf(t, id)) - SumOf(UnbondsOf(s, id))
  }

  lemma Absent(s: Pos, t: Pos, id: BondId)
    ensures id !in s.bonds && id !in t.bonds ==> BondGain(s, t, id) == 0
    ensures id !in s.unbonds && id !in t.unbonds ==> UnbondGain(s, t, id) == 0
  {
    hide SumOf;
  }

  /** Without slashes a written bond or unbond contributes what its tokens changed by. */
  lemma GainsAre(s: Pos, t: Pos, keys: set<Key>, id: BondId)
    requires TokensMoved(s, t, keys)
    ensures BondKey(id) in keys ==> BondOf(s, t, id) == Contributed(id in s.bonds, id in t.bonds, BondGain(s, t, id))
    ensures UnbondKey(id) in keys ==>
      UnbondOf(s, t, id) == Contributed(id in s.unbonds, id in t.unbonds, UnbondGain(s, t, id))
    ensures if BondKey(id) in keys then BondOf(s, t, id).UnwrapOr(0) == BondGain(s, t, id) else BondGain(s, t, id) == 0
    ensures if UnbondKey(id) in keys then UnbondOf(s, t, id).UnwrapOr(0) == UnbondGain(s, t, id)
      else UnbondGain(s, t, id) == 0
  {
    hide SumOf, AllOf, BondsShaped, BondContribution, UnbondContribution, Gap, Valued, BondWorth, UnbondWorth, Plain,
      Within, Get, DeltaAt;
    NoSlashesPlain();
    Absent(s, t, id);
    assert if BondKey(id) in keys then BondMoved(s, t, id) else Find(t.bonds, id) == Find(s.bonds, id);
    if BondKey(id) in keys {
      BondContributes(s, t, id, []);
      ValuedPlain(Gap(BondsOf(s, id), BondsOf(t, id)), BondWorth([]));
      SumGap(BondsOf(s, id), BondsOf(t, id));
    }
    if UnbondKey(id) in keys {
      UnbondContributes(s, t, id, []);
      ValuedPlain(Gap(UnbondsOf(s, id), UnbondsOf(t, id)), UnbondWorth([]));
      SumGap(UnbondsOf(s, id), UnbondsOf(t, id));
    }
  }

  /** In the end a validator's stake is all the tokens bonded to it. */
  lemma StakeInTheEnd(s: Pos, v: Address)
    requires Core(s) && BondsShaped(s) && Solvent(s)
    ensures Stake(s, v, s.epoch + s.params.unbondingLen) == SumOf(BondedTo(s, v))
  {
    hide SetsTrack, StakesFit, SetsOk, PowersFollow, TotalPowerOk, BondsShaped, SumOf, Staked, Holdings, BondsOf,
      StateLine, MaxTotalVotingPower;
    var e := s.epoch + s.params.unbondingLen;
    forall id ensures Staked(s, id, e) == SumOf(BondsOf(s, id)) {
      StakedInTheEnd(s, id, e);
    }
    assert Backing(s, v, e) == BondedTo(s, v);
    if v !in s.states {
      NoBacking(s, v, e);
    } else {
      assert Stake(s, v, e) == SumOf(Backing(s, v, e));
    }
  }

  /** The bonds contribute to each validator what its stake changes by. */
  lemma NetIsGain(s: Pos, t: Pos, keys: set<Key>, v: Address)
    requires TokensMoved(s, t, keys) && Core(s) && Core(t) && Solvent(s) && Solvent(t)
    ensures SumOf(BondsTo(s, t, keys, v)) == NetOf(s, t, v)
  {
    hide Core, Solvent, TokensMoved, SumOf, BondOf, BondsOf, Stake;
    SameEpoch(s, t, keys);
    StakeInTheEnd(s, v);
    StakeInTheEnd(t, v);
    var a, b, d := BondedTo(s, v), BondedTo(t, v), BondsTo(s, t, keys, v);
    forall id ensures ValueAt(b, id) == ValueAt(a, id) + ValueAt(d, id) {
      GainsAre(s, t, keys, id);
      NoTokens(s, id);
      NoTokens(t, id);
      assert id in d <==> BondKey(id) in keys && id.validator == v;
    }
    SumPointwise(a, d, b);
  }

  lemma SameEpoch(s: Pos, t: Pos, keys: set<Key>)
    requires TokensMoved(s, t, keys)
    ensures t.epoch == s.epoch && t.params == s.params && BondsShaped(s) && BondsShaped(t)
    ensures BalanceKey !in keys ==> t.balance == s.balance
  {
    hide BondsShaped, BondMoved;
  }

  lemma NoTokens(s: Pos, id: BondId)
    ensures id !in Ids(s) ==> SumOf(BondsOf(s, id)) == 0 && SumOf(UnbondsOf(s, id)) == 0
  {
    SumOfNothing<nat>();
    SumOfNothing<(nat, nat)>();
  }

  lemma HeldGain(s: Pos, t: Pos, keys: set<Key>, id: BondId)
    requires TokensMoved(s, t, keys)
    ensures ValueAt(Holdings(t), id) ==
      ValueAt(Holdings(s), id) + ValueAt(AllBonds(s, t, keys), id) + ValueAt(AllUnbonds(s, t, keys), id)
  {
    hide TokensMoved, SumOf, BondOf, UnbondOf, BondsOf, UnbondsOf;
    GainsAre(s, t, keys, id);
    NoTokens(s, id);
    NoTokens(t, id);
    assert id in AllBonds(s, t, keys) <==> BondKey(id) in keys;
    assert id in AllUnbonds(s, t, keys) <==> UnbondKey(id) in keys;
  }

  /** The balance changes by what bonds and unbonds contribute. */
  lemma BalanceIsGain(s: Pos, t: Pos, keys: set<Key>)
    requires TokensMoved(s, t, keys) && Solvent(s) && Solvent(t)
    ensures BalanceMatches(s, t, keys)
  {
    hide TokensMoved, SumOf, StakesBacked, Holdings, AllBonds, AllUnbonds;
    SameEpoch(s, t, keys);
    var d, u := AllBonds(s, t, keys), AllUnbonds(s, t, keys);
    var both := map id | id in d.Keys + u.Keys :: ValueAt(d, id) + ValueAt(u, id);
    SumPointwise(d, u, both);
    forall id ensures ValueAt(Holdings(t), id) == ValueAt(Holdings(s), id) + ValueAt(both, id) {
      HeldGain(s, t, keys, id);
    }
    SumPointwise(Holdings(s), both, Holdings(t));
  }

  /** No error is found in the written bonds and unbonds themselves. */
  lemma TokensOk(s: Pos, t: Pos, keys: set<Key>)
    requires TokensMoved(s, t, keys) && 0 < s.params.pipelineLen
    ensures TokenKeysOk(s, t, keys)
  {
    hide TokensMoved, OkOf, Reported, BondDataOk;
    forall k | k in keys && !IsStakeKey(k) ensures OkOf(s.params, s.epoch, Reported(s, t, k)) {
      match k
      case BalanceKey => TokenOk(s, t, BondId(0, 0));
      case BondKey(id) =>
        BondKeyOk(s, t, keys, id);
        TokenOk(s, t, id);
      case UnbondKey(id) =>
        UnbondKeyOk(s, t, keys, id);
        TokenOk(s, t, id);
    }
  }

  lemma UnbondKeyOk(s: Pos, t: Pos, keys: set<Key>, id: BondId)
    requires TokensMoved(s, t, keys) && UnbondKey(id) in keys
    ensures id in t.unbonds ==> t.unbonds[id].lastUpdate == s.epoch
  {
    hide BondsShaped, BondMoved;
  }

  lemma BondKeyOk(s: Pos, t: Pos, keys: set<Key>, id: BondId)
    requires TokensMoved(s, t, keys) && BondKey(id) in keys && 0 < s.params.pipelineLen
    ensures BondDataOk(s.params, s.epoch, BondData(s, t, id), SlashesOf(t, id.validator))
  {
    hide SumOf, AllOf, BondContribution, Within, Get, DeltaAt, BondUpdateOk, BondInitOk, AddAmounts, Shaped, UnbondOk;
    GainsAre(s, t, keys, id);
    assert BondMoved(s, t, id);
    if id in t.bonds {
      if id in s.bonds {
        UpdateAccepted(s.params, s.bonds[id], t.bonds[id], s.epoch);
      } else {
        SumOfNothing<nat>();
        NewBondOk(s.params, t.bonds[id], s.epoch);
      }
    }
  }

  lemma NewBondOk(params: PosParams, post: Timeline<Bond>, c: nat)
    requires post.lastUpdate == c && Shaped(post, StartRank) && 0 < params.pipelineLen
    requires forall e :: c <= e && e != c + params.pipelineLen ==> DeltaAt(post, e).None?
    ensures BondInitOk(params, post, c)
  {
    hide DeltaAt;
    var pipeline := c + params.pipelineLen;
    assert Placed(Total(DeltaAt(post, pipeline)), StartRank, pipeline, false);
  }

  // ---------- the verdict ----------

  /** The stake of a validator has changed in the end, or none of its written bonds
      has come, gone or changed and its unbonds have not grown. */
  ghost predicate NetAllowed(s: Pos, t: Pos, vs: set<Address>, keys: set<Key>, v: Address) {
    || Restaked(s, t, vs, v)
    || ((forall id: BondId :: BondKey(id) in keys && id.validator == v ==>
           (id in t.bonds <==> id in s.bonds) && SumOf(BondsOf(t, id)) == SumOf(BondsOf(s, id)))
        && SumOf(UnbondsOwn(s, t, keys, v)) <= 0)
  }

  /** The tokens that the written unbonds of a validator have gained. */
  ghost function UnbondsOwn(s: Pos, t: Pos, keys: set<Key>, v: Address): map<BondId, int> {
    map k | k in keys && k.UnbondKey? && k.id.validator == v :: k.id := UnbondGain(s, t, k.id)
  }

  lemma NetAllowedIff(s: Pos, t: Pos, vs: set<Address>, keys: set<Key>, v: Address)
    requires TokensMoved(s, t, keys) && Core(s) && Core(t) && Solvent(s) && Solvent(t)
    ensures NetMatches(s, t, vs, keys, v) <==> NetAllowed(s, t, vs, keys, v)
  {
    hide Core, Solvent, TokensMoved, SumOf, BondOf, UnbondOf, BondsOf, UnbondsOf, NetOf, BondsTo;
    NetIsGain(s, t, keys, v);
    forall id: BondId | BondKey(id) in keys && id.validator == v
      ensures BondOf(s, t, id).None? <==>
        (id in t.bonds <==> id in s.bonds) && SumOf(BondsOf(t, id)) == SumOf(BondsOf(s, id))
    {
      GainsAre(s, t, keys, id);
    }
    UnbondsOwnSum(s, t, keys, v);
    assert Contributes(s, t, keys, v) <==>
      exists id: BondId :: BondKey(id) in keys && id.validator == v && BondOf(s, t, id).Some?;
  }

  lemma UnbondsOwnSum(s: Pos, t: Pos, keys: set<Key>, v: Address)
    requires TokensMoved(s, t, keys)
    ensures SumOf(UnbondsTo(s, t, keys, v)) == SumOf(UnbondsOwn(s, t, keys, v))
  {
    hide TokensMoved, SumOf, UnbondOf, BondsOf, UnbondsOf, BondOf;
    forall id: BondId | UnbondKey(id) in keys && id.validator == v
      ensures UnbondOf(s, t, id).UnwrapOr(0) == UnbondGain(s, t, id)
    {
      GainsAre(s, t, keys, id);
    }
    assert UnbondsTo(s, t, keys, v) == UnbondsOwn(s, t, keys, v);
  }

  // ---------- transactions ----------

  /** All the transitions from one state of a run to another went through. */
  ghost predicate Transaction(xs: seq<System>, actions: seq<Action>, i: nat, j: nat) {
    i <= j <= |actions| < |xs| && forall k :: i <= k < j ==> WentThrough(xs[k].pos, actions[k])
  }

  ghost function WrittenIn(actions: seq<Action>, i: nat, j: nat): set<Key>
    requires j <= |actions|
  {
    if j <= i then {} else WrittenIn(actions, i, j - 1) + WrittenBy(actions[j - 1])
  }

  ghost function StakedBy(a: Action): set<Address> {
    if a.DoBond? || a.DoUnbond? then {a.validator} else {}
  }

  /** The validators to whom tokens are bonded, or from whom they are unbonded. */
  ghost function StakedIn(actions: seq<Action>, i: nat, j: nat): set<Address>
    requires j <= |actions|
  {
    if j <= i then {} else StakedIn(actions, i, j - 1) + StakedBy(actions[j - 1])
  }

  lemma {:induction false} KeysOfTransaction(actions: seq<Action>, i: nat, j: nat)
    requires j <= |actions|
    ensures StakeKeys(WrittenIn(actions, i, j), StakedIn(actions, i, j))
    decreases j
  {
    if i < j {
      KeysOfTransaction(actions, i, j - 1);
    }
  }

  lemma BondStep(s: Pos, m: Pos, vs: set<Address>, keys: set<Key>, source: Option<Address>, v: Address, amount: nat,
                 t: Pos)
    requires StakesMoved(s, m, vs) && TokensMoved(s, m, keys) && Core(m) && BondsShaped(m) && WindowsFit(m)
    requires BondTokens(m, source, v, amount) == Ok(t)
    ensures StakesMoved(s, t, vs + {v}) && TokensMoved(s, t, keys + BondKeys(IdOf(source, v)))
  {
    hide SetsTrack, StakesFit, SetsOk, PowersFollow, TotalPowerOk, StakesMoved, TokensMoved, BondTokens, BondsShaped,
      BondMoved, Windows, AddAmounts, BondsOf, MaxTotalVotingPower;
    BondMoves(s, m, vs, source, v, amount, t);
    BondEffect(m, source, v, amount, t);
    BondMovedByBond(s, m, keys, source, v, amount, t);
    TokensStep(s, m, keys, IdOf(source, v), BondKeys(IdOf(source, v)), t);
  }

  lemma UnbondStep(s: Pos, m: Pos, vs: set<Address>, keys: set<Key>, source: Option<Address>, v: Address, amount: nat,
                   taken: seq<Bond>, t: Pos)
    requires StakesMoved(s, m, vs) && TokensMoved(s, m, keys) && Core(m) && BondsShaped(m) && WindowsFit(m)
    requires UnbondTokens(m, source, v, amount, taken) == Ok(t) && Takeable(m, IdOf(source, v), amount, taken)
    ensures StakesMoved(s, t, vs + {v}) && TokensMoved(s, t, keys + UnbondKeys(IdOf(source, v)))
  {
    hide SetsTrack, StakesFit, SetsOk, PowersFollow, TotalPowerOk, StakesMoved, TokensMoved, UnbondTokens,
      BondsShaped, BondMoved, Windows, AddAmounts, BondsOf, UnbondsOf, MaxTotalVotingPower, Takeable, SumOf,
      TakenInAll, UnbondDelta, DueBy, BondContribution, UnbondContribution, BondDataOk, UnbondValue, WorthInAll,
      BondData, UnbondData;
    SameEpoch(s, m, keys);
    UnbondMoves(s, m, vs, source, v, amount, taken, t);
    UnbondEffect(m, source, v, amount, taken, t);
    UnbondReport(m, source, v, amount, taken, t);
    BondMovedByUnbond(s, m, keys, source, v, amount, taken, t);
    TokensStep(s, m, keys, IdOf(source, v), UnbondKeys(IdOf(source, v)), t);
  }

  lemma WithdrawStep(s: Pos, m: Pos, vs: set<Address>, keys: set<Key>, source: Option<Address>, v: Address, t: Pos)
    requires StakesMoved(s, m, vs) && TokensMoved(s, m, keys) && Core(m) && BondsShaped(m) && WindowsFit(m)
    requires WithdrawTokens(m, source, v) == Ok(t)
    ensures StakesMoved(s, t, vs) && TokensMoved(s, t, keys + WithdrawKeys(IdOf(source, v)))
  {
    hide SetsTrack, StakesFit, SetsOk, PowersFollow, TotalPowerOk, StakesMoved, TokensMoved, WithdrawTokens,
      BondsShaped, BondMoved, Windows, AddAmounts, BondsOf, UnbondsOf, MaxTotalVotingPower, DueBy, UnbondContribution,
      UnbondData, Withdrawable;
    SameEpoch(s, m, keys);
    WithdrawMoves(s, m, vs, source, v, t);
    WithdrawEffect(m, source, v, t);
    WithdrawReport(m, source, v, t);
    TokensStep(s, m, keys, IdOf(source, v), WithdrawKeys(IdOf(source, v)), t);
  }

  lemma StepOfTransaction(s: Pos, x: System, vs: set<Address>, keys: set<Key>, a: Action, y: System)
    requires StakesMoved(s, x.pos, vs) && TokensMoved(s, x.pos, keys) && Inv(x) && Next(x, a, y)
    requires WentThrough(x.pos, a)
    ensures StakesMoved(s, y.pos, vs + StakedBy(a)) && TokensMoved(s, y.pos, keys + WrittenBy(a))
  {
    hide StakesMoved, TokensMoved, Core, BondsShaped, Filled, Books, EngineOk, BondTokens, UnbondTokens, Withdraw,
      Takeable, AfterBond, AfterUnbond, AfterWithdraw, BondKeys, UnbondKeys, WithdrawKeys, DueBy;
    match a
    case DoBond(source, v, amount) => BondStep(s, x.pos, vs, keys, source, v, amount, y.pos);
    case DoUnbond(source, v, amount, taken) => UnbondStep(s, x.pos, vs, keys, source, v, amount, taken, y.pos);
    case DoWithdraw(source, v) =>
      WithdrawStep(s, x.pos, vs, keys, source, v, y.pos);
      assert vs + {} == vs;
  }

  lemma {:induction false} TransactionMoves(xs: seq<System>, actions: seq<Action>, i: nat, j: nat)
    requires Run(xs, actions) && NoSlash(actions) && Transaction(xs, actions, i, j)
    ensures StakesMoved(xs[i].pos, xs[j].pos, StakedIn(actions, i, j))
    ensures TokensMoved(xs[i].pos, xs[j].pos, WrittenIn(actions, i, j))
    decreases j
  {
    hide StakesMoved, TokensMoved, Inv, Next, Initial, WentThrough, Entries, WrittenBy, StakedBy, Solvent;
    RunSolvent(xs, actions, i);
    if i == j {
      RunEntries(xs, actions, i);
      Unslashed(xs[i]);
      Unmoved(xs[i].pos);
      TokensUnmoved(xs[i].pos);
    } else {
      TransactionMoves(xs, actions, i, j - 1);
      RunSolvent(xs, actions, j - 1);
      RunStep(xs, actions, j - 1);
      StepOfTransaction(xs[i].pos, xs[j - 1], StakedIn(actions, i, j - 1), WrittenIn(actions, i, j - 1),
        actions[j - 1], xs[j]);
    }
  }

  lemma Unslashed(x: System)
    requires Inv(x) && Solvent(x.pos)
    ensures Core(x.pos) && BondsShaped(x.pos) && x.pos.slashes == map[]
  {
    hide SetsTrack, StakesFit, SetsOk, PowersFollow, TotalPowerOk, Windows, ParamsOk, BondsShaped, Books, EngineOk,
      Filled, StakesBacked, Holdings, SumOf;
  }

  /** In every run without slashes: what a transaction of bondings, unbondings and
      withdrawals has written is accepted by the check, in whatever order the changes
      are reported and the epochs visited, exactly when every validator's net change
      is allowed and the voting powers that were written are aligned. */
  lemma TransactionsOfRuns(xs: seq<System>, actions: seq<Action>, i: nat, j: nat, changes: seq<Change>, order: seq<nat>)
    requires Run(xs, actions) && NoSlash(actions) && Transaction(xs, actions, i, j)
    requires Genuine(changes, xs[i].pos, xs[j].pos) && KeysIn(changes) == WrittenIn(actions, i, j)
    ensures var s, t, vs, keys := xs[i].pos, xs[j].pos, StakedIn(actions, i, j), WrittenIn(actions, i, j);
      && vs <= t.totals.Keys && vs <= t.powers.Keys
      && (Accepts(s.params, changes, s.epoch, order) <==> (forall v :: NetAllowed(s, t, vs, keys, v)) && Aligned(t, vs))
  {
    hide StakesMoved, TokensMoved, Inv, Run, NoSlash, Accepts, Genuine, KeysIn, WrittenIn, StakedIn, Solvent,
      NetMatches, NetAllowed, StakeKeys, Aligned, BalanceMatches, TokenKeysOk, WentThrough, Core;
    var s, t, vs, keys := xs[i].pos, xs[j].pos, StakedIn(actions, i, j), WrittenIn(actions, i, j);
    TransactionMoves(xs, actions, i, j);
    RunSolvent(xs, actions, i);
    RunSolvent(xs, actions, j);
    Unslashed(xs[i]);
    Unslashed(xs[j]);
    KeysOfTransaction(actions, i, j);
    AcceptsIff(changes, s, t, vs, order);
    KnownKeys(s, t, vs);
    TokensOk(s, t, keys);
    BalanceIsGain(s, t, keys);
    forall v ensures NetMatches(s, t, vs, keys, v) <==> NetAllowed(s, t, vs, keys, v) {
      NetAllowedIff(s, t, vs, keys, v);
    }
  }
}
