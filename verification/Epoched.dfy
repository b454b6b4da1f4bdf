/**
 The two mutable containers, `EpochedDelta` and `Epoched`, as classes whose
 methods rewrite the vector in place. Each method is proved to compute the
 operation of the same name on the container's `Timeline` value; what those
 operations mean for every epoch is proved in `Timelines`.
 */
module EpochedContainers {
  import opened Options
  import opened T = Timelines

  /** The number of entries from the container's head to an epoch. */
  function IndexOf(lastUpdate: nat, epoch: nat): nat {
    if epoch > lastUpdate then epoch - lastUpdate else 0
  }

  /** The first entries of a vector are cleared, the others are kept. */
  ghost predicate Cleared<D>(xs: seq<Option<D>>, n: nat, cleared: seq<Option<D>>) {
    |cleared| == |xs| && forall j :: 0 <= j < |xs| ==> cleared[j] == if j < n then None else xs[j]
  }

  lemma ClearedData<D>(xs: seq<Option<D>>, n: nat, cleared: seq<Option<D>>)
    requires n <= |xs| && Cleared(xs, n, cleared)
    ensures cleared == Nones(n) + xs[n..]
  {
  }

  lemma FoldEmpty<D>(add: (D, D) -> D)
    ensures Fold(add, []) == None
  {
  }

  lemma RotatedData<D>(add: (D, D) -> D, padded: seq<Option<D>>, shift: nat, data: seq<Option<D>>)
    requires shift < |padded| == |data|
    requires data[0] == Plus(add, Fold(add, padded[..shift]), padded[shift])
    requires data[1..] == padded[shift + 1..] + Nones(shift)
    ensures data == [Fold(add, padded[..shift + 1])] + padded[shift + 1..] + Nones(shift)
  {
    assert padded[..shift + 1][..shift] == padded[..shift];
  }

  lemma UnrotatedData<D>(add: (D, D) -> D, xs: seq<Option<D>>)
    requires xs != []
    ensures xs == [Fold(add, xs[..1])] + xs[1..] + Nones(0)
  {
    FoldSingle(add, xs[0]);
    assert xs[..1] == [xs[0]];
  }

  lemma AdvancedData<D>(add: (D, D) -> D, t: Timeline<D>, current: nat, off: nat, data: seq<Option<D>>)
    requires var padded, shift := Padded(t.data, off + 1), Min(IndexOf(t.lastUpdate, current), off);
      data == [Fold(add, padded[..shift + 1])] + padded[shift + 1..] + Nones(shift)
    ensures Advance(add, t, current, off) == Timeline(current, data)
  {
  }

  lemma UpdatedEntries<D>(f: (D, nat) -> D, xs: seq<Option<D>>, current: nat, i: nat, data: seq<Option<D>>)
    requires i < |xs| == |data|
    requires forall j :: 0 <= j < i ==> data[j] == xs[j]
    requires data[i] == Mapped(f, Fold(Later, xs[..i + 1]), current + i)
    requires forall j :: i < j < |xs| ==> data[j] == Mapped(f, xs[j], current + j)
    ensures UpdateEntries(f, xs, current, i) == data
  {
  }

  class EpochedDelta<D(!new)> {
    var lastUpdate: nat
    var data: seq<Option<D>>
    const add: (D, D) -> D

    ghost function Value(): Timeline<D>
      reads this
    {
      Timeline(lastUpdate, data)
    }

    /** A container read back from storage. */
    constructor Load(t: Timeline<D>, add: (D, D) -> D)
      ensures Value() == t && this.add == add
    {
      lastUpdate, data := t.lastUpdate, t.data;
      this.add := add;
    }

    constructor InitAtIndex(value: D, current: nat, index: nat, add: (D, D) -> D)
      ensures Value() == T.InitAt(value, current, index) && this.add == add
    {
      lastUpdate := current;
      data := Nones(index) + [Some(value)];
      this.add := add;
    }

    /** The container's value as it is written to storage. */
    method Store() returns (t: Timeline<D>)
      ensures t == Value()
    {
      t := Timeline(lastUpdate, data);
    }

    /** The sum of the deltas at and before an epoch. */
    method Get(epoch: nat) returns (sum: Option<D>)
      ensures sum == T.Get(add, Value(), epoch)
    {
      var n := Min(IndexOf(lastUpdate, epoch) + 1, |data|);
      sum := None;
      for i := 0 to n
        invariant sum == Fold(add, data[..i])
      {
        assert data[..i + 1][..i] == data[..i];
        match (sum, data[i]) {
          case (Some(current), Some(next)) => sum := Some(add(current, next));
          case (None, Some(next)) => sum := Some(next);
          case (_, None) =>
        }
      }
      FoldIsGet(add, Value(), epoch);
    }

    method GetDeltaAtEpoch(epoch: nat) returns (delta: Option<D>)
      ensures delta == DeltaAt(Value(), epoch)
    {
      if epoch < lastUpdate || epoch - lastUpdate >= |data| {
        delta := None;
      } else {
        delta := data[epoch - lastUpdate];
      }
    }

    /** Sums and clears the first `n` entries of a vector. */
    method SumAndClear(xs: seq<Option<D>>, n: nat) returns (sum: Option<D>, cleared: seq<Option<D>>)
      requires n <= |xs|
      ensures sum == Fold(add, xs[..n])
      ensures cleared == Nones(n) + xs[n..]
    {
      hide Fold;
      sum, cleared := None, xs;
      FoldEmpty(add);
      for i := 0 to n
        invariant Cleared(xs, i, cleared)
        invariant sum == Fold(add, xs[..i])
      {
        FoldNext(add, xs, i);
        match (sum, cleared[i]) {
          case (Some(current), Some(next)) => sum := Some(add(current, next));
          case (None, Some(next)) => sum := Some(next);
          case (_, None) =>
        }
        cleared := cleared[i := None];
      }
      ClearedData(xs, n, cleared);
    }

    /** Rotates `shift` entries to the back and adds their sum to the new head. */
    method Rotate(xs: seq<Option<D>>, shift: nat) returns (r: seq<Option<D>>)
      requires 0 < shift < |xs|
      ensures r == [Fold(add, xs[..shift + 1])] + xs[shift + 1..] + Nones(shift)
    {
      var sum, cleared := SumAndClear(xs, shift);
      r := cleared[shift..] + cleared[..shift];
      assert r == xs[shift..] + Nones(shift);
      match (sum, r[0]) {
        case (Some(s), Some(first)) => r := r[0 := Some(add(s, first))];
        case (Some(_), None) => r := r[0 := sum];
        case (None, _) =>
      }
      RotatedData(add, xs, shift, r);
    }

    /** Brings the container forward: the entries that have come due are summed
        into the head and the others move to the front. */
    method UpdateData(current: nat, off: nat)
      modifies this
      ensures Value() == Advance(add, old(Value()), current, off)
    {
      var shift := Min(IndexOf(lastUpdate, current), off);
      var padded := data;
      if |data| < off + 1 {
        padded := data + Nones(off + 1 - |data|);
      }
      if shift != 0 {
        padded := Rotate(padded, shift);
      } else {
        UnrotatedData(add, padded);
      }
      AdvancedData(add, Value(), current, off, padded);
      data := padded;
      lastUpdate := current;
    }

    /** Adds a value at `i` epochs from the current one. */
    method AddAtOffset(value: D, current: nat, i: nat, off: nat)
      requires i <= off
      modifies this
      ensures Value() == AddAt(add, old(Value()), value, current, i, off)
    {
      UpdateData(current, off);
      match data[i] {
        case None => data := data[i := Some(value)];
        case Some(last) => data := data[i := Some(add(last, value))];
      }
    }

    method AddAtEpoch(value: D, current: nat, epoch: nat, off: nat)
      requires current <= epoch <= current + off
      modifies this
      ensures Value() == AddAt(add, old(Value()), value, current, epoch - current, off)
    {
      AddAtOffset(value, current, epoch - current, off);
    }

    method DeleteCurrent(current: nat, off: nat)
      modifies this
      ensures Value() == DeleteHead(add, old(Value()), current, off)
    {
      UpdateData(current, off);
      data := data[0 := None];
    }
  }

  class Epoched<D(!new)> {
    var lastUpdate: nat
    var data: seq<Option<D>>

    ghost function Value(): Timeline<D>
      reads this
    {
      Timeline(lastUpdate, data)
    }

    /** A container read back from storage. */
    constructor Load(t: Timeline<D>)
      ensures Value() == t
    {
      lastUpdate, data := t.lastUpdate, t.data;
    }

    constructor InitAtGenesis(value: D, current: nat)
      ensures Value() == InitAt(value, current, 0)
    {
      lastUpdate := current;
      data := Nones(0) + [Some(value)];
    }

    method Store() returns (t: Timeline<D>)
      ensures t == Value()
    {
      t := Timeline(lastUpdate, data);
    }

    /** The value at an epoch or the nearest epoch before it. */
    method Get(epoch: nat) returns (r: Option<D>)
      ensures r == T.Get(Later, Value(), epoch)
    {
      FoldIsGet(Later, Value(), epoch);
      var index := Min(IndexOf(lastUpdate, epoch), |data|);
      if data == [] {
        return None;
      }
      r := LatestUpTo(Min(index, |data| - 1));
    }

    /** Takes the latest of the first `n` values of a vector and clears them. */
    method LatestAndClear(xs: seq<Option<D>>, n: nat) returns (latest: Option<D>, cleared: seq<Option<D>>)
      requires n <= |xs|
      ensures latest == Fold(Later, xs[..n])
      ensures cleared == Nones(n) + xs[n..]
    {
      hide Fold;
      latest, cleared := None, xs;
      FoldEmpty(Later<D>);
      for i := 0 to n
        invariant Cleared(xs, i, cleared)
        invariant latest == Fold(Later, xs[..i])
      {
        FoldNext(Later, xs, i);
        if cleared[i].Some? {
          latest := cleared[i];
        }
        cleared := cleared[i := None];
      }
      ClearedData(xs, n, cleared);
    }

    /** Rotates `shift` values to the back; the latest of them becomes the head,
        unless the new head has a value of its own. */
    method Rotate(xs: seq<Option<D>>, shift: nat) returns (r: seq<Option<D>>)
      requires 0 < shift < |xs|
      ensures r == [Fold(Later, xs[..shift + 1])] + xs[shift + 1..] + Nones(shift)
    {
      var latest, cleared := LatestAndClear(xs, shift);
      r := cleared[shift..] + cleared[..shift];
      assert r == xs[shift..] + Nones(shift);
      if r[0].None? {
        r := r[0 := latest];
      }
      RotatedData(Later, xs, shift, r);
    }

    method UpdateData(current: nat, off: nat)
      modifies this
      ensures Value() == Advance(Later, old(Value()), current, off)
    {
      var shift := Min(IndexOf(lastUpdate, current), off);
      var padded := data;
      if |data| < off + 1 {
        padded := data + Nones(off + 1 - |data|);
      }
      if shift != 0 {
        padded := Rotate(padded, shift);
      } else {
        UnrotatedData(Later, padded);
      }
      AdvancedData(Later, Value(), current, off, padded);
      data := padded;
      lastUpdate := current;
    }

    /** The latest of the values up to index `i`, looking backwards. */
    method LatestUpTo(i: nat) returns (latest: Option<D>)
      requires i < |data|
      ensures latest == Fold(Later, data[..i + 1])
    {
      latest := data[i];
      var j := i;
      assert data[..i + 1][..i] == data[..i];
      while latest == None && j > 0
        invariant 0 <= j <= i
        invariant Plus(Later, Fold(Later, data[..j]), latest) == Fold(Later, data[..i + 1])
        decreases j
      {
        j := j - 1;
        latest := data[j];
        assert data[..j + 1][..j] == data[..j];
      }
    }

    /** Sets the value at the container's offset. */
    method Set(value: D, current: nat, off: nat)
      modifies this
      ensures Value() == AddAt(Later, old(Value()), value, current, off, off)
    {
      UpdateData(current, off);
      data := data[off := Some(value)];
    }

    /** Applies the function to the entries from index `start` on. */
    method MapFrom(f: (D, nat) -> D, xs: seq<Option<D>>, start: nat, current: nat) returns (r: seq<Option<D>>)
      requires start <= |xs|
      ensures |r| == |xs|
      ensures forall j :: 0 <= j < |xs| ==> r[j] == if j < start then xs[j] else Mapped(f, xs[j], current + j)
    {
      r := xs;
      for k := start to |xs|
        invariant |r| == |xs|
        invariant forall j :: 0 <= j < start ==> r[j] == xs[j]
        invariant forall j :: start <= j < k ==> r[j] == Mapped(f, xs[j], current + j)
        invariant forall j :: k <= j < |xs| ==> r[j] == xs[j]
      {
        if r[k].Some? {
          r := r[k := Some(f(r[k].value, current + k))];
        }
      }
    }

    /** Updates the value at `i` epochs from the current one, and every later
        entry, with the given function. */
    method UpdateFromOffset(f: (D, nat) -> D, current: nat, i: nat, off: nat)
      requires i <= off && Fits(Value(), off)
      modifies this
      ensures Value() == UpdateFrom(f, old(Value()), current, i, off)
    {
      ghost var was := Value();
      UpdateData(current, off);
      AdvanceShape(Later, was, current, off);
      var latest := LatestUpTo(i);
      var updated := data;
      if latest.Some? {
        updated := updated[i := Some(f(latest.value, current + i))];
      }
      updated := MapFrom(f, updated, i + 1, current);
      UpdatedEntries(f, data, current, i, updated);
      data := updated;
    }
  }
}
