/**
 The index from block heights to epochs: the first heights of the recent epochs,
 from which old epochs are trimmed as new ones begin.
 */
module BlockEpochs {
  import opened Options

  /** The oldest epoch that can be looked up, and the first block height of each
      epoch from there on. */
  datatype Index = Index(firstKnown: nat, heights: seq<nat>)

  const START := Index(0, [0])

  // ---------- reference: the full history ----------

  ghost predicate Increasing(heights: seq<nat>) {
    forall i, j :: 0 <= i < j < |heights| ==> heights[i] < heights[j]
  }

  /** Epoch `e` is the one that the block height belongs to. */
  ghost predicate IsEpochOf(history: seq<nat>, height: nat, e: nat) {
    e < |history| && history[e] <= height && (e + 1 < |history| ==> height < history[e + 1])
  }

  lemma EpochUnique(history: seq<nat>, height: nat, d: nat, e: nat)
    requires Increasing(history) && IsEpochOf(history, height, d) && IsEpochOf(history, height, e)
    ensures d == e
  {
  }

  // ---------- the index ----------

  /** The lowest block height that evidence may still refer to. */
  function MinHeightToKeep(height: nat, maxAge: nat): nat {
    if height + 1 >= maxAge then height + 1 - maxAge else 0
  }

  /** Drops the oldest epochs while the next one began before the limit. */
  function Trimmed(t: Index, limit: nat): (r: Index)
    decreases |t.heights|
  {
    if |t.heights| >= 2 && t.heights[1] < limit then Trimmed(Index(t.firstKnown + 1, t.heights[1..]), limit) else t
  }

  function WithEpoch(t: Index, height: nat, maxAge: nat): Index {
    var r := Trimmed(t, MinHeightToKeep(height, maxAge));
    Index(r.firstKnown, r.heights + [height])
  }

  /** How many of the heights are reached, up to the first that is not. */
  function Reached(heights: seq<nat>, height: nat): nat {
    if heights == [] || height < heights[0] then 0 else 1 + Reached(heights[1..], height)
  }

  function EpochAt(t: Index, height: nat): Option<nat> {
    if t.heights == [] || height < t.heights[0] then None
    else Some(t.firstKnown + Reached(t.heights[1..], height))
  }

  // ---------- the index in place ----------

  class Epochs {
    var firstKnown: nat
    var heights: seq<nat>

    function Value(): Index
      reads this
    {
      Index(firstKnown, heights)
    }

    constructor ()
      ensures Value() == START
    {
      firstKnown, heights := 0, [0];
    }

    method NewEpoch(height: nat, maxAge: nat)
      modifies this
      ensures Value() == WithEpoch(old(Value()), height, maxAge)
    {
      var limit := if height + 1 >= maxAge then height + 1 - maxAge else 0;
      while |heights| >= 2 && heights[1] < limit
        invariant Trimmed(Value(), limit) == Trimmed(old(Value()), limit)
        decreases |heights|
      {
        firstKnown := firstKnown + 1;
        heights := heights[1..];
      }
      heights := heights + [height];
    }

    method GetEpoch(height: nat) returns (r: Option<nat>)
      ensures r == EpochAt(Value(), height)
    {
      if heights == [] || height < heights[0] {
        return None;
      }
      var epoch := firstKnown;
      var rest := heights[1..];
      for i := 0 to |rest|
        invariant epoch + Reached(rest[i..], height) == firstKnown + Reached(rest, height)
      {
        if height < rest[i] {
          return Some(epoch);
        }
        assert rest[i..][1..] == rest[i + 1..];
        epoch := epoch + 1;
      }
      r := Some(epoch);
    }
  }

  // ---------- runs ----------

  /** A new epoch: its first block height and the age limit in force. */
  datatype Start = Start(height: nat, maxAge: nat)

  function After(starts: seq<Start>): Index {
    if starts == [] then START
    else
      var last := starts[|starts| - 1];
      WithEpoch(After(starts[..|starts| - 1]), last.height, last.maxAge)
  }

  /** The first heights of all the epochs, nothing trimmed. */
  function History(starts: seq<Start>): seq<nat> {
    if starts == [] then [0] else History(starts[..|starts| - 1]) + [starts[|starts| - 1].height]
  }

  lemma {:induction false} TrimmedSuffix(t: Index, limit: nat, history: seq<nat>)
    requires t.firstKnown < |history| && t.heights == history[t.firstKnown..]
    ensures var r := Trimmed(t, limit);
      && t.firstKnown <= r.firstKnown < |history| && r.heights == history[r.firstKnown..]
      && (r.firstKnown > t.firstKnown ==> history[r.firstKnown] < limit)
      && (r.firstKnown + 1 < |history| ==> history[r.firstKnown + 1] >= limit)
    decreases |t.heights|
  {
    if |t.heights| >= 2 && t.heights[1] < limit {
      var next := Index(t.firstKnown + 1, t.heights[1..]);
      assert next.heights == history[next.firstKnown..];
      TrimmedSuffix(next, limit, history);
    }
  }

  /** The index is always the end of the full history. */
  lemma {:induction false} IndexIsSuffix(starts: seq<Start>)
    ensures |History(starts)| == |starts| + 1 && History(starts)[0] == 0
    ensures var t := After(starts);
      t.firstKnown < |History(starts)| && t.heights == History(starts)[t.firstKnown..]
    ensures starts != [] ==> After(starts).firstKnown < |starts|
    decreases |starts|
  {
    if starts != [] {
      var before, last := starts[..|starts| - 1], starts[|starts| - 1];
      IndexIsSuffix(before);
      TrimmedSuffix(After(before), MinHeightToKeep(last.height, last.maxAge), History(before));
      var first := After(starts).firstKnown;
      assert History(starts)[first..] == History(before)[first..] + [last.height];
    }
  }

  lemma {:induction false} ReachedAll(heights: seq<nat>, height: nat)
    ensures var n := Reached(heights, height);
      n <= |heights| && (n > 0 ==> heights[n - 1] <= height) && (n < |heights| ==> height < heights[n])
  {
    if heights != [] && height >= heights[0] {
      ReachedAll(heights[1..], height);
    }
  }

  /** Every answer is the one that the full history gives, and a height is
      answered exactly when it is not below the oldest known epoch. */
  lemma AnswersAgree(starts: seq<Start>, height: nat)
    requires Increasing(History(starts))
    ensures var t := After(starts);
      && t.firstKnown < |History(starts)|
      && (EpochAt(t, height).Some? <==> History(starts)[t.firstKnown] <= height)
      && forall e: nat :: EpochAt(t, height).Some? ==>
        (IsEpochOf(History(starts), height, e) <==> EpochAt(t, height) == Some(e))
  {
    IndexIsSuffix(starts);
    var t, history := After(starts), History(starts);
    if EpochAt(t, height).Some? {
      ReachedAll(t.heights[1..], height);
      var e := EpochAt(t, height).value;
      assert IsEpochOf(history, height, e);
      forall d: nat | IsEpochOf(history, height, d) ensures d == e {
        EpochUnique(history, height, d, e);
      }
    }
  }

  // ---------- what is kept ----------

  ghost predicate FixedAge(starts: seq<Start>, maxAge: nat) {
    forall i :: 0 <= i < |starts| ==> starts[i].maxAge == maxAge
  }

  lemma {:induction false} HistoryAt(starts: seq<Start>, i: nat)
    requires i < |starts|
    ensures |History(starts)| == |starts| + 1 && History(starts)[i + 1] == starts[i].height
    decreases |starts|
  {
    IndexIsSuffix(starts[..|starts| - 1]);
    if i < |starts| - 1 {
      HistoryAt(starts[..|starts| - 1], i);
    }
  }

  lemma IncreasingBefore(starts: seq<Start>)
    requires starts != [] && Increasing(History(starts))
    ensures Increasing(History(starts[..|starts| - 1]))
  {
    var before := starts[..|starts| - 1];
    assert History(before) == History(starts)[..|History(before)|];
  }

  /** The epochs known from `first` on are those after which the next one began
      no earlier than the limit, among the epochs that ended before the newest. */
  ghost predicate KeptFrom(history: seq<nat>, first: nat, limit: nat) {
    && first < |history| && (first > 0 ==> history[first] < limit)
    && forall j :: 0 < j < |history| ==> (first < j <==> history[j] >= limit)
  }

  lemma KeptStep(t: Index, limit: nat, history: seq<nat>)
    requires Increasing(history) && t.firstKnown < |history| && t.heights == history[t.firstKnown..]
    requires t.firstKnown > 0 ==> history[t.firstKnown] < limit
    ensures KeptFrom(history, Trimmed(t, limit).firstKnown, limit)
  {
    hide Trimmed;
    TrimmedSuffix(t, limit, history);
  }

  /** With a fixed age limit, exactly the epochs that are still within it are
      kept. */
  lemma {:induction false} KeptEpochs(starts: seq<Start>, maxAge: nat)
    requires starts != [] && FixedAge(starts, maxAge) && Increasing(History(starts))
    ensures KeptFrom(History(starts[..|starts| - 1]), After(starts).firstKnown,
      MinHeightToKeep(starts[|starts| - 1].height, maxAge))
    decreases |starts|
  {
    hide KeptFrom, Trimmed, Increasing;
    var before, last := starts[..|starts| - 1], starts[|starts| - 1];
    IndexIsSuffix(before);
    IncreasingBefore(starts);
    if before != [] {
      KeptEpochs(before, maxAge);
      KeptGrows(starts, maxAge);
    }
    KeptStep(After(before), MinHeightToKeep(last.height, maxAge), History(before));
  }

  lemma KeptGrows(starts: seq<Start>, maxAge: nat)
    requires |starts| >= 2 && Increasing(History(starts))
    requires var before := starts[..|starts| - 1];
      KeptFrom(History(before[..|before| - 1]), After(before).firstKnown,
        MinHeightToKeep(before[|before| - 1].height, maxAge))
    ensures var before := starts[..|starts| - 1];
      && After(before).firstKnown < |History(before)|
      && (After(before).firstKnown > 0 ==>
        History(before)[After(before).firstKnown] < MinHeightToKeep(starts[|starts| - 1].height, maxAge))
  {
    hide After;
    HistoryAt(starts, |starts| - 2);
    HistoryAt(starts, |starts| - 1);
  }

  /** Every height within the age limit of the newest epoch is answered. */
  lemma RecentAnswered(starts: seq<Start>, maxAge: nat, height: nat)
    requires starts != [] && FixedAge(starts, maxAge) && Increasing(History(starts))
    requires height + maxAge >= starts[|starts| - 1].height + 1
    ensures EpochAt(After(starts), height).Some?
  {
    KeptEpochs(starts, maxAge);
    IndexIsSuffix(starts);
    AnswersAgree(starts, height);
  }
}
