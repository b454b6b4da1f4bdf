/**
 Values of the epoched containers and what they mean.

 A container holds the epoch of its last update and a short vector of optional
 entries, one per epoch starting at that epoch. `EpochedDelta` reads an epoch as
 the sum of the entries at and before it; `Epoched` reads it as the latest
 entry at or before it. Both readings are a left fold of the same vector: with
 the addition of the data type, or with `Later`, which keeps its right operand.
 The lemmas below are therefore stated once, for any associative addition.
 */
module Timelines {
  import opened Options

  datatype Timeline<T> = Timeline(lastUpdate: nat, data: seq<Option<T>>)

  /** The "addition" under which a fold yields the latest value. */
  function Later<T>(a: T, b: T): T { b }

  ghost predicate Associative<T(!new)>(add: (T, T) -> T) {
    forall a, b, c {:trigger add(add(a, b), c)} :: add(add(a, b), c) == add(a, add(b, c))
  }

  ghost predicate Commutative<T(!new)>(add: (T, T) -> T) {
    forall a, b {:trigger add(a, b), add(b, a)} :: add(a, b) == add(b, a)
  }

  function Plus<T>(add: (T, T) -> T, a: Option<T>, b: Option<T>): Option<T> {
    match (a, b)
    case (Some(x), Some(y)) => Some(add(x, y))
    case (None, _) => b
    case (_, None) => a
  }

  /** Left fold of the present entries; `None` when there are none. */
  function Fold<T>(add: (T, T) -> T, xs: seq<Option<T>>): Option<T> {
    if xs == [] then None
    else Plus(add, Fold(add, xs[..|xs| - 1]), xs[|xs| - 1])
  }

  function Nones<T>(n: nat): (r: seq<Option<T>>)
    ensures |r| == n && forall i :: 0 <= i < n ==> r[i] == None
  {
    if n == 0 then [] else Nones(n - 1) + [None]
  }

  /** Number of vector entries at or before an epoch. */
  function Reach<T>(t: Timeline<T>, epoch: nat): nat {
    Min(|t.data|, (if epoch > t.lastUpdate then epoch - t.lastUpdate else 0) + 1)
  }

  /** The entry stored for exactly one epoch. */
  function DeltaAt<T>(t: Timeline<T>, epoch: nat): Option<T> {
    if t.lastUpdate <= epoch < t.lastUpdate + |t.data| then t.data[epoch - t.lastUpdate] else None
  }

  /** The value of a container at an epoch: the map of per-epoch entries read by
      prefix sums. Epochs before the last update read the head. */
  function Get<T>(add: (T, T) -> T, t: Timeline<T>, epoch: nat): Option<T> {
    if epoch <= t.lastUpdate then DeltaAt(t, t.lastUpdate)
    else Plus(add, Get(add, t, epoch - 1), DeltaAt(t, epoch))
  }

  /** The vector fits in the window of the container's offset. */
  predicate Fits<T>(t: Timeline<T>, off: nat) {
    |t.data| <= off + 1
  }

  function Padded<T>(data: seq<Option<T>>, len: nat): seq<Option<T>> {
    if |data| < len then data + Nones(len - |data|) else data
  }

  /** The container brought forward to `current`: the entries that have come due
      are folded into the head, the others move to the front. */
  function Advance<T>(add: (T, T) -> T, t: Timeline<T>, current: nat, off: nat): (r: Timeline<T>) {
    var data := Padded(t.data, off + 1);
    var shift := Min(if current > t.lastUpdate then current - t.lastUpdate else 0, off);
    Timeline(current, [Fold(add, data[..shift + 1])] + data[shift + 1..] + Nones(shift))
  }

  /** `value` added to the entry `i` epochs after `current`. */
  function AddAt<T>(add: (T, T) -> T, t: Timeline<T>, value: T, current: nat, i: nat, off: nat): (r: Timeline<T>)
    requires i <= off
  {
    var u := Advance(add, t, current, off);
    u.(data := u.data[i := Plus(add, u.data[i], Some(value))])
  }

  /** A new container with one entry, `i` epochs after `current`. */
  function InitAt<T>(value: T, current: nat, i: nat): (r: Timeline<T>) {
    Timeline(current, Nones(i) + [Some(value)])
  }

  /** The head entry removed after advancing. */
  function DeleteHead<T>(add: (T, T) -> T, t: Timeline<T>, current: nat, off: nat): (r: Timeline<T>) {
    var u := Advance(add, t, current, off);
    u.(data := u.data[0 := None])
  }

  function Mapped<T>(f: (T, nat) -> T, x: Option<T>, epoch: nat): Option<T> {
    match x
    case Some(v) => Some(f(v, epoch))
    case None => None
  }

  /** `f` applied to the latest value at or before index `i`, which gets an entry
      of its own, and to every later entry. */
  function UpdateEntries<T>(f: (T, nat) -> T, xs: seq<Option<T>>, current: nat, i: nat): (r: seq<Option<T>>)
    requires i < |xs|
  {
    seq(|xs|, j requires 0 <= j < |xs| =>
      if j < i then xs[j]
      else Mapped(f, if j == i then Fold(Later, xs[..i + 1]) else xs[j], current + j))
  }

  /** The values from `i` epochs after `current` on, updated with `f`. */
  function UpdateFrom<T>(f: (T, nat) -> T, t: Timeline<T>, current: nat, i: nat, off: nat): (r: Timeline<T>)
    requires i <= off && Fits(t, off)
  {
    Timeline(current, UpdateEntries(f, Advance(Later, t, current, off).data, current, i))
  }

  // ---------- folds ----------

  lemma {:induction false} FoldConcat<T(!new)>(add: (T, T) -> T, xs: seq<Option<T>>, ys: seq<Option<T>>)
    requires Associative(add)
    ensures Fold(add, xs + ys) == Plus(add, Fold(add, xs), Fold(add, ys))
    decreases |ys|
  {
    if ys == [] {
      assert xs + ys == xs;
    } else {
      var last := |ys| - 1;
      assert (xs + ys)[..|xs + ys| - 1] == xs + ys[..last];
      FoldConcat(add, xs, ys[..last]);
    }
  }

  lemma PlusAssociates<T(!new)>(add: (T, T) -> T, a: Option<T>, b: Option<T>, c: Option<T>)
    requires Associative(add)
    ensures Plus(add, Plus(add, a, b), c) == Plus(add, a, Plus(add, b, c))
  {
  }

  lemma PlusSwaps<T(!new)>(add: (T, T) -> T, a: Option<T>, b: Option<T>, c: Option<T>)
    requires Associative(add) && Commutative(add)
    ensures Plus(add, Plus(add, a, b), c) == Plus(add, Plus(add, a, c), b)
  {
    PlusAssociates(add, a, b, c);
    PlusAssociates(add, a, c, b);
  }

  lemma FoldSingle<T>(add: (T, T) -> T, x: Option<T>)
    ensures Fold(add, [x]) == x
  {
    assert [x][..0] == [];
  }

  lemma FoldNext<T>(add: (T, T) -> T, xs: seq<Option<T>>, i: nat)
    requires i < |xs|
    ensures Fold(add, xs[..i + 1]) == Plus(add, Fold(add, xs[..i]), xs[i])
  {
    assert xs[..i + 1][..i] == xs[..i];
  }

  lemma {:induction false} FoldNones<T>(add: (T, T) -> T, xs: seq<Option<T>>, n: nat)
    ensures Fold(add, xs + Nones(n)) == Fold(add, xs)
  {
    if n == 0 {
      assert xs + Nones(0) == xs;
    } else {
      assert (xs + Nones(n))[..|xs| + n - 1] == xs + Nones(n - 1);
      FoldNones(add, xs, n - 1);
    }
  }

  /** The fold of the vector up to an epoch, which is what the code computes, is
      the value at that epoch. */
  lemma {:induction false} FoldIsGet<T>(add: (T, T) -> T, t: Timeline<T>, epoch: nat)
    ensures Fold(add, t.data[..Reach(t, epoch)]) == Get(add, t, epoch)
    decreases epoch
  {
    var n := Reach(t, epoch);
    if epoch <= t.lastUpdate {
      if t.data != [] {
        FoldSingle(add, t.data[0]);
        assert t.data[..1] == [t.data[0]];
      }
    } else {
      FoldIsGet(add, t, epoch - 1);
      if Reach(t, epoch - 1) < n {
        assert t.data[..n][..n - 1] == t.data[..n - 1];
      }
    }
  }

  // ---------- advancing ----------

  lemma {:induction false} AdvanceShape<T>(add: (T, T) -> T, t: Timeline<T>, current: nat, off: nat)
    requires Fits(t, off)
    ensures var u := Advance(add, t, current, off);
      u.lastUpdate == current && |u.data| == off + 1
  {
  }

  /** The head of an advanced container is the value at the current epoch, even
      when the whole window has passed. */
  lemma {:induction false} AdvanceHead<T(!new)>(add: (T, T) -> T, t: Timeline<T>, current: nat, off: nat)
    requires Fits(t, off) && t.lastUpdate <= current && Associative(add)
    ensures DeltaAt(Advance(add, t, current, off), current) == Get(add, t, current)
  {
    hide Fold, Get;
    var data := Padded(t.data, off + 1);
    var shift := Min(current - t.lastUpdate, off);
    var n := Reach(t, current);
    assert data[..shift + 1] == t.data[..n] + Nones(shift + 1 - n);
    FoldNones(add, t.data[..n], shift + 1 - n);
    FoldIsGet(add, t, current);
  }

  /** Entries after the current epoch are kept. */
  lemma AdvanceTail<T>(add: (T, T) -> T, t: Timeline<T>, current: nat, off: nat, epoch: nat)
    requires Fits(t, off) && t.lastUpdate <= current < epoch
    ensures DeltaAt(Advance(add, t, current, off), epoch) == DeltaAt(t, epoch)
  {
    var u := Advance(add, t, current, off);
    var data := Padded(t.data, off + 1);
    var shift := Min(current - t.lastUpdate, off);
    var i := epoch - current;
    if i < |u.data| && i + shift <= off {
      assert u.data[i] == data[shift + i];
    }
  }

  /** Advancing to any later epoch keeps the value at every epoch from then on. */
  lemma {:induction false} AdvanceGet<T(!new)>(add: (T, T) -> T, t: Timeline<T>, current: nat, off: nat, epoch: nat)
    requires Fits(t, off) && t.lastUpdate <= current <= epoch && Associative(add)
    ensures Get(add, Advance(add, t, current, off), epoch) == Get(add, t, epoch)
    decreases epoch
  {
    var u := Advance(add, t, current, off);
    if epoch == current {
      AdvanceHead(add, t, current, off);
    } else {
      AdvanceGet(add, t, current, off, epoch - 1);
      AdvanceTail(add, t, current, off, epoch);
    }
  }

  // ---------- adding ----------

  lemma {:induction false} AddAtDelta<T>(add: (T, T) -> T, t: Timeline<T>, value: T, current: nat, i: nat, off: nat,
                                         epoch: nat)
    requires Fits(t, off) && i <= off
    ensures var r := AddAt(add, t, value, current, i, off);
      r.lastUpdate == current && |r.data| == off + 1 &&
      DeltaAt(r, epoch) ==
        if epoch == current + i then Plus(add, DeltaAt(Advance(add, t, current, off), epoch), Some(value))
        else DeltaAt(Advance(add, t, current, off), epoch)
  {
  }

  /** Adding leaves the epochs before the target alone; at the target the value
      is added. This holds for any associative addition. */
  lemma {:induction false} AddAtTarget<T(!new)>(add: (T, T) -> T, t: Timeline<T>, value: T, current: nat, i: nat,
                                                off: nat, epoch: nat)
    requires Fits(t, off) && i <= off && t.lastUpdate <= current <= epoch <= current + i
    requires Associative(add)
    ensures Get(add, AddAt(add, t, value, current, i, off), epoch) ==
      if epoch < current + i then Get(add, t, epoch) else Plus(add, Get(add, t, epoch), Some(value))
    decreases epoch
  {
    var u := Advance(add, t, current, off);
    var r := AddAt(add, t, value, current, i, off);
    AdvanceGet(add, t, current, off, epoch);
    AddAtDelta(add, t, value, current, i, off, epoch);
    if epoch == current {
    } else {
      AddAtTarget(add, t, value, current, i, off, epoch - 1);
      AdvanceGet(add, t, current, off, epoch - 1);
      PlusAssociates(add, Get(add, u, epoch - 1), DeltaAt(u, epoch), Some(value));
    }
  }

  lemma {:induction false} ShiftGet<T(!new)>(add: (T, T) -> T, t: Timeline<T>, r: Timeline<T>, value: T, target: nat,
                                             epoch: nat)
    requires t.lastUpdate <= target <= epoch && r.lastUpdate <= target
    requires Associative(add) && Commutative(add)
    requires Get(add, r, target) == Plus(add, Get(add, t, target), Some(value))
    requires forall x :: target < x <= epoch ==> DeltaAt(r, x) == DeltaAt(t, x)
    ensures Get(add, r, epoch) == Plus(add, Get(add, t, epoch), Some(value))
    decreases epoch
  {
    if target < epoch {
      ShiftGet(add, t, r, value, target, epoch - 1);
      PlusSwaps(add, Get(add, t, epoch - 1), Some(value), DeltaAt(t, epoch));
    }
  }

  /** The entries after one epoch and up to another, added up. */
  function EntriesAfter<T>(add: (T, T) -> T, t: Timeline<T>, from: nat, epoch: nat): Option<T> {
    if epoch <= from then None else Plus(add, EntriesAfter(add, t, from, epoch - 1), DeltaAt(t, epoch))
  }

  lemma {:induction false} GetSplits<T(!new)>(add: (T, T) -> T, t: Timeline<T>, from: nat, epoch: nat)
    requires t.lastUpdate <= from <= epoch && Associative(add)
    ensures Get(add, t, epoch) == Plus(add, Get(add, t, from), EntriesAfter(add, t, from, epoch))
    decreases epoch
  {
    if from < epoch {
      GetSplits(add, t, from, epoch - 1);
      PlusAssociates(add, Get(add, t, from), EntriesAfter(add, t, from, epoch - 1), DeltaAt(t, epoch));
    }
  }

  lemma {:induction false} SameEntriesAfter<T>(add: (T, T) -> T, t: Timeline<T>, r: Timeline<T>, from: nat, epoch: nat)
    requires forall x :: from < x <= epoch ==> DeltaAt(r, x) == DeltaAt(t, x)
    ensures EntriesAfter(add, r, from, epoch) == EntriesAfter(add, t, from, epoch)
    decreases epoch
  {
    if from < epoch {
      SameEntriesAfter(add, t, r, from, epoch - 1);
    }
  }

  /** After the target, for any associative addition: the value is added to what
      was there at the target, and the later entries come after it. */
  lemma AddAtSplits<T(!new)>(add: (T, T) -> T, t: Timeline<T>, value: T, current: nat, i: nat, off: nat, epoch: nat)
    requires Fits(t, off) && i <= off && t.lastUpdate <= current && current + i <= epoch && Associative(add)
    ensures var target := current + i;
      && Get(add, t, epoch) == Plus(add, Get(add, t, target), EntriesAfter(add, t, target, epoch))
      && Get(add, AddAt(add, t, value, current, i, off), epoch) ==
        Plus(add, Plus(add, Get(add, t, target), Some(value)), EntriesAfter(add, t, target, epoch))
  {
    hide AddAt, Get, EntriesAfter;
    var r, target := AddAt(add, t, value, current, i, off), current + i;
    AddAtDelta(add, t, value, current, i, off, current);
    AddAtTarget(add, t, value, current, i, off, target);
    forall x | target < x <= epoch ensures DeltaAt(r, x) == DeltaAt(t, x) {
      AdvanceTail(add, t, current, off, x);
      AddAtDelta(add, t, value, current, i, off, x);
    }
    GetSplits(add, t, target, epoch);
    GetSplits(add, r, target, epoch);
    SameEntriesAfter(add, t, r, target, epoch);
  }

  /** For a commutative addition the value is added to every epoch from the
      target on. */
  lemma {:induction false} AddAtGet<T(!new)>(add: (T, T) -> T, t: Timeline<T>, value: T, current: nat, i: nat,
                                             off: nat, epoch: nat)
    requires Fits(t, off) && i <= off && t.lastUpdate <= current <= epoch
    requires Associative(add) && Commutative(add)
    ensures Get(add, AddAt(add, t, value, current, i, off), epoch) ==
      if epoch < current + i then Get(add, t, epoch) else Plus(add, Get(add, t, epoch), Some(value))
  {
    if epoch <= current + i {
      AddAtTarget(add, t, value, current, i, off, epoch);
    } else {
      var r := AddAt(add, t, value, current, i, off);
      AddAtTarget(add, t, value, current, i, off, current + i);
      forall x | current + i < x <= epoch ensures DeltaAt(r, x) == DeltaAt(t, x) {
        AdvanceTail(add, t, current, off, x);
        AddAtDelta(add, t, value, current, i, off, x);
      }
      ShiftGet(add, t, r, value, current + i, epoch);
    }
  }

  /** Advancing a container already at the current epoch changes nothing. */
  lemma AdvanceAgain<T>(add: (T, T) -> T, t: Timeline<T>, off: nat)
    requires |t.data| == off + 1
    ensures Advance(add, t, t.lastUpdate, off) == t
  {
    FoldSingle(add, t.data[0]);
    assert t.data[..1] == [t.data[0]];
    assert [t.data[0]] + t.data[1..] + Nones(0) == t.data;
  }

  /** Two additions at one epoch are one addition of the sum. */
  lemma AddAtTwice<T(!new)>(add: (T, T) -> T, t: Timeline<T>, v: T, w: T, current: nat, i: nat, off: nat)
    requires Fits(t, off) && i <= off && Associative(add)
    ensures AddAt(add, AddAt(add, t, v, current, i, off), w, current, i, off) ==
      AddAt(add, t, add(v, w), current, i, off)
  {
    var r := AddAt(add, t, v, current, i, off);
    AdvanceAgain(add, r, off);
  }

  /** A new container reads as nothing before its one entry and as that entry after. */
  lemma {:induction false} InitAtGet<T>(add: (T, T) -> T, value: T, current: nat, i: nat, epoch: nat)
    requires current <= epoch
    ensures Get(add, InitAt(value, current, i), epoch) == if epoch < current + i then None else Some(value)
    decreases epoch
  {
    var t := InitAt(value, current, i);
    if epoch == current {
    } else {
      InitAtGet(add, value, current, i, epoch - 1);
    }
  }

  /** With no entry in between, two epochs read the same. */
  lemma {:induction false} GetConstant<T>(add: (T, T) -> T, t: Timeline<T>, lo: nat, hi: nat)
    requires t.lastUpdate <= lo <= hi
    requires forall x :: lo < x <= hi ==> DeltaAt(t, x) == None
    ensures Get(add, t, hi) == Get(add, t, lo)
    decreases hi
  {
    if lo < hi {
      GetConstant(add, t, lo, hi - 1);
    }
  }

  /** The value is absent exactly when no entry lies at or before the epoch. */
  lemma {:induction false} GetNone<T>(add: (T, T) -> T, t: Timeline<T>, epoch: nat)
    requires t.lastUpdate <= epoch
    ensures Get(add, t, epoch) == None <==> forall x :: t.lastUpdate <= x <= epoch ==> DeltaAt(t, x) == None
    decreases epoch
  {
    if epoch == t.lastUpdate {
    } else {
      GetNone(add, t, epoch - 1);
    }
  }

  // ---------- deleting the head ----------

  lemma {:induction false} DroppedGet<T(!new)>(add: (T, T) -> T, t: Timeline<T>, r: Timeline<T>, current: nat,
                                               epoch: nat)
    requires t.lastUpdate <= current <= epoch && r.lastUpdate <= current && Associative(add)
    requires Get(add, r, current) == None
    requires forall x :: current < x <= epoch ==> DeltaAt(r, x) == DeltaAt(t, x)
    ensures Get(add, t, epoch) == Plus(add, Get(add, t, current), Get(add, r, epoch))
    decreases epoch
  {
    if current < epoch {
      DroppedGet(add, t, r, current, epoch - 1);
      PlusAssociates(add, Get(add, t, current), Get(add, r, epoch - 1), DeltaAt(t, epoch));
    }
  }

  lemma DeleteHeadDelta<T(!new)>(add: (T, T) -> T, t: Timeline<T>, current: nat, off: nat, epoch: nat)
    requires Fits(t, off) && t.lastUpdate <= current <= epoch
    ensures var r := DeleteHead(add, t, current, off);
      r.lastUpdate == current && |r.data| == off + 1 &&
      DeltaAt(r, epoch) == if epoch == current then None else DeltaAt(t, epoch)
  {
    if epoch > current {
      AdvanceTail(add, t, current, off, epoch);
    }
  }

  /** Deleting the head splits every later value into what was current and what
      is left. */
  lemma {:induction false} DeleteHeadGet<T(!new)>(add: (T, T) -> T, t: Timeline<T>, current: nat, off: nat, epoch: nat)
    requires Fits(t, off) && t.lastUpdate <= current <= epoch && Associative(add)
    ensures var r := DeleteHead(add, t, current, off);
      Get(add, t, epoch) == Plus(add, Get(add, t, current), Get(add, r, epoch)) &&
      Get(add, r, current) == None
  {
    var r := DeleteHead(add, t, current, off);
    DeleteHeadDelta(add, t, current, off, current);
    forall x | current < x <= epoch ensures DeltaAt(r, x) == DeltaAt(t, x) {
      DeleteHeadDelta(add, t, current, off, x);
    }
    DroppedGet(add, t, r, current, epoch);
  }

  // ---------- updating from an offset ----------

  lemma UpdateFromEntries<T(!new)>(f: (T, nat) -> T, t: Timeline<T>, current: nat, i: nat, off: nat, epoch: nat)
    requires Fits(t, off) && i <= off && t.lastUpdate <= current <= epoch
    ensures var r, u := UpdateFrom(f, t, current, i, off), Advance(Later, t, current, off);
      r.lastUpdate == current && |r.data| == off + 1 == |u.data| &&
      DeltaAt(r, epoch) ==
        if epoch == current + i then Mapped(f, Fold(Later, u.data[..i + 1]), epoch)
        else if epoch > current + i then Mapped(f, DeltaAt(u, epoch), epoch)
        else DeltaAt(u, epoch)
  {
  }

  lemma UpdateFromDelta<T(!new)>(f: (T, nat) -> T, t: Timeline<T>, current: nat, i: nat, off: nat, epoch: nat)
    requires Fits(t, off) && i <= off && t.lastUpdate <= current <= epoch
    ensures var r := UpdateFrom(f, t, current, i, off);
      r.lastUpdate == current && |r.data| == off + 1 &&
      DeltaAt(r, epoch) ==
        if epoch == current + i then Mapped(f, Get(Later, t, epoch), epoch)
        else if epoch > current + i then Mapped(f, DeltaAt(t, epoch), epoch)
        else if epoch == current then Get(Later, t, epoch)
        else DeltaAt(t, epoch)
  {
    UpdateFromEntries(f, t, current, i, off, epoch);
    if epoch == current + i {
      FoldIsGet(Later, Advance(Later, t, current, off), epoch);
      AdvanceGet(Later, t, current, off, epoch);
    } else if epoch == current {
      AdvanceHead(Later, t, current, off);
    } else {
      AdvanceTail(Later, t, current, off, epoch);
    }
  }

  lemma {:induction false} SameGet<T>(add: (T, T) -> T, t: Timeline<T>, r: Timeline<T>, current: nat, epoch: nat)
    requires t.lastUpdate <= current <= epoch && r.lastUpdate <= current
    requires Get(add, r, current) == Get(add, t, current)
    requires forall x :: current < x <= epoch ==> DeltaAt(r, x) == DeltaAt(t, x)
    ensures Get(add, r, epoch) == Get(add, t, epoch)
    decreases epoch
  {
    if current < epoch {
      SameGet(add, t, r, current, epoch - 1);
    }
  }

  /** Epochs before the offset keep their value. */
  lemma UpdateFromBefore<T(!new)>(f: (T, nat) -> T, t: Timeline<T>, current: nat, i: nat, off: nat, epoch: nat)
    requires Fits(t, off) && i <= off && t.lastUpdate <= current <= epoch < current + i
    ensures Get(Later, UpdateFrom(f, t, current, i, off), epoch) == Get(Later, t, epoch)
  {
    var r := UpdateFrom(f, t, current, i, off);
    forall x | current <= x <= epoch
      ensures DeltaAt(r, x) == if x == current then Get(Later, t, current) else DeltaAt(t, x)
    {
      UpdateFromDelta(f, t, current, i, off, x);
    }
    SameGet(Later, t, r, current, epoch);
  }

  lemma {:induction false} MappedGet<T(!new)>(f: (T, nat) -> T, t: Timeline<T>, r: Timeline<T>, start: nat, epoch: nat)
    returns (stamp: nat)
    requires t.lastUpdate <= start <= epoch && r.lastUpdate <= start
    requires Get(Later, r, start) == Mapped(f, Get(Later, t, start), start)
    requires forall x :: start < x <= epoch ==> DeltaAt(r, x) == Mapped(f, DeltaAt(t, x), x)
    ensures start <= stamp <= epoch
    ensures stamp == start || DeltaAt(t, stamp).Some?
    ensures forall x :: stamp < x <= epoch ==> DeltaAt(t, x) == None
    ensures Get(Later, r, epoch) == Mapped(f, Get(Later, t, epoch), stamp)
    decreases epoch
  {
    if epoch == start {
      stamp := start;
    } else {
      stamp := MappedGet(f, t, r, start, epoch - 1);
      if DeltaAt(t, epoch).Some? {
        stamp := epoch;
      }
    }
  }

  /** From the offset on, every epoch's value is updated, with the epoch of the
      entry it is read from: the offset itself or a later entry, after which
      nothing is stored up to the epoch read. */
  lemma UpdateFromAfter<T(!new)>(f: (T, nat) -> T, t: Timeline<T>, current: nat, i: nat, off: nat, epoch: nat)
    returns (stamp: nat)
    requires Fits(t, off) && i <= off && t.lastUpdate <= current && current + i <= epoch
    ensures current + i <= stamp <= epoch
    ensures stamp == current + i || DeltaAt(t, stamp).Some?
    ensures forall x :: stamp < x <= epoch ==> DeltaAt(t, x) == None
    ensures Get(Later, UpdateFrom(f, t, current, i, off), epoch) == Mapped(f, Get(Later, t, epoch), stamp)
  {
    var r := UpdateFrom(f, t, current, i, off);
    var start := current + i;
    forall x | start <= x <= epoch
      ensures DeltaAt(r, x) == if x == start then Mapped(f, Get(Later, t, x), x) else Mapped(f, DeltaAt(t, x), x)
    {
      UpdateFromDelta(f, t, current, i, off, x);
    }
    UpdateFromDelta(f, t, current, i, off, start);
    if i == 0 {
    } else {
      UpdateFromBefore(f, t, current, i, off, start - 1);
      LaterStep(f, t, r, start);
    }
    stamp := MappedGet(f, t, r, start, epoch);
  }

  lemma LaterStep<T>(f: (T, nat) -> T, t: Timeline<T>, r: Timeline<T>, start: nat)
    requires t.lastUpdate < start && r.lastUpdate < start
    requires Get(Later, r, start - 1) == Get(Later, t, start - 1)
    requires DeltaAt(r, start) == Mapped(f, Get(Later, t, start), start)
    ensures Get(Later, r, start) == Mapped(f, Get(Later, t, start), start)
  {
  }

  /** An update that ignores the epoch maps the function over all epochs from
      the offset on. */
  lemma UpdateFromUniform<T(!new)>(f: (T, nat) -> T, t: Timeline<T>, current: nat, i: nat, off: nat, epoch: nat)
    requires Fits(t, off) && i <= off && t.lastUpdate <= current <= epoch
    requires forall v, x, y :: f(v, x) == f(v, y)
    ensures Get(Later, UpdateFrom(f, t, current, i, off), epoch) ==
      if epoch < current + i then Get(Later, t, epoch) else Mapped(f, Get(Later, t, epoch), 0)
  {
    if epoch < current + i {
      UpdateFromBefore(f, t, current, i, off, epoch);
    } else {
      var stamp := UpdateFromAfter(f, t, current, i, off, epoch);
    }
  }
}
