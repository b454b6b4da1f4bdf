/**
 Proof-of-stake parameters and the arithmetic on tokens: basis points, voting
 power and slashing. Products are taken as exact integers.
 */
module Params {
  import opened Options

  const U64_MAX: nat := 0xFFFF_FFFF_FFFF_FFFF
  const I64_MAX: nat := 0x7FFF_FFFF_FFFF_FFFF

  /** Tokens are counted in micro units. */
  const MICRO: nat := 1_000_000

  const BASIS: nat := 10_000

  /** The largest total voting power that Tendermint accepts. */
  const MAX_TOTAL_VOTING_POWER: nat := I64_MAX / 8

  const TOKEN_MAX_AMOUNT: nat := U64_MAX / MICRO

  /** A rate at which tokens are slashed, in basis points. */
  type Rate = r: nat | r <= BASIS

  datatype PosParams = PosParams(
    maxValidatorSlots: nat,
    pipelineLen: nat,
    unbondingLen: nat,
    votesPerToken: nat,
    duplicateVoteSlashRate: Rate,
    lightClientAttackSlashRate: Rate)

  datatype SlashType = DuplicateVote | LightClientAttack

  datatype Slash = Slash(epoch: nat, slashType: SlashType, rate: Rate)

  datatype ValidationError =
    | TotalVotingPowerTooLarge(got: nat)
    | VotesPerTokenGreaterThanOne(got: nat)
    | PipelineLenTooShort(got: nat)
    | UnbondingLenTooShort(unbonding: nat, pipeline: nat)

  /** A rate in basis points of an unsigned amount. */
  function MulBps(rate: nat, x: nat): nat {
    x * rate / BASIS
  }

  /** A rate in basis points of a signed amount, rounded towards zero. */
  function MulBpsSigned(rate: nat, x: int): int {
    if x >= 0 then MulBps(rate, x) else 0 - MulBps(rate, -x) as int
  }

  function VotingPower(params: PosParams, tokens: nat): nat {
    MulBps(params.votesPerToken, tokens / MICRO)
  }

  /** Voting power as a signed delta; `None` when it does not fit. */
  function TryVotingPowerDelta(params: PosParams, tokens: nat): Option<int> {
    var power := VotingPower(params, tokens);
    if power <= I64_MAX then Some(power) else None
  }

  function SlashRate(params: PosParams, slashType: SlashType): Rate {
    match slashType
    case DuplicateVote => params.duplicateVoteSlashRate
    case LightClientAttack => params.lightClientAttackSlashRate
  }

  function MaxTotalVotingPower(params: PosParams): nat {
    params.maxValidatorSlots * MulBps(params.votesPerToken, TOKEN_MAX_AMOUNT)
  }

  /** The parameters that `Validate` accepts. */
  predicate Valid(params: PosParams) {
    && 2 <= params.pipelineLen < params.unbondingLen
    && params.votesPerToken <= BASIS
    && MaxTotalVotingPower(params) <= MAX_TOTAL_VOTING_POWER
  }

  method Validate(params: PosParams) returns (errors: seq<ValidationError>)
    ensures errors == [] <==> Valid(params)
  {
    errors := [];
    if params.pipelineLen < 2 {
      errors := errors + [PipelineLenTooShort(params.pipelineLen)];
    }
    if params.pipelineLen >= params.unbondingLen {
      errors := errors + [UnbondingLenTooShort(params.unbondingLen, params.pipelineLen)];
    }
    var max := params.maxValidatorSlots * MulBps(params.votesPerToken, TOKEN_MAX_AMOUNT);
    if max <= I64_MAX {
      if max > MAX_TOTAL_VOTING_POWER {
        errors := errors + [TotalVotingPowerTooLarge(max)];
      }
    } else {
      errors := errors + [TotalVotingPowerTooLarge(max)];
    }
    if params.votesPerToken > BASIS {
      errors := errors + [VotesPerTokenGreaterThanOne(params.votesPerToken)];
    }
  }

  // ---------- voting power ----------

  lemma MulBpsMonotone(rate: nat, x: nat, y: nat)
    requires x <= y
    ensures MulBps(rate, x) <= MulBps(rate, y)
  {
    assert x * rate <= y * rate;
  }

  lemma VotingPowerMonotone(params: PosParams, x: nat, y: nat)
    requires x <= y
    ensures VotingPower(params, x) <= VotingPower(params, y)
  {
    MulBpsMonotone(params.votesPerToken, x / MICRO, y / MICRO);
  }

  /** With accepted parameters no amount of tokens overflows voting power. */
  lemma VotingPowerFits(params: PosParams, tokens: nat)
    requires Valid(params) && tokens <= U64_MAX
    ensures TryVotingPowerDelta(params, tokens) == Some(VotingPower(params, tokens))
  {
    var whole := tokens / MICRO;
    assert whole * params.votesPerToken <= whole * BASIS;
    assert MulBps(params.votesPerToken, whole) <= whole;
  }

  function SumOfPowers(params: PosParams, tokens: seq<nat>): nat {
    if tokens == [] then 0
    else SumOfPowers(params, tokens[..|tokens| - 1]) + VotingPower(params, tokens[|tokens| - 1])
  }

  lemma {:induction false} SumOfPowersBound(params: PosParams, tokens: seq<nat>)
    requires forall i :: 0 <= i < |tokens| ==> tokens[i] <= U64_MAX
    ensures SumOfPowers(params, tokens) <= |tokens| * MulBps(params.votesPerToken, TOKEN_MAX_AMOUNT)
  {
    if tokens != [] {
      var last := |tokens| - 1;
      SumOfPowersBound(params, tokens[..last]);
      MulBpsMonotone(params.votesPerToken, tokens[last] / MICRO, TOKEN_MAX_AMOUNT);
      var most := MulBps(params.votesPerToken, TOKEN_MAX_AMOUNT);
      assert (last + 1) * most == last * most + most;
    }
  }

  /** The voting powers of any active set within the slots stay within what
      Tendermint accepts ("Updating the Validator Set", ABCI applications). */
  lemma ActivePowerWithinTendermintLimit(params: PosParams, tokens: seq<nat>)
    requires Valid(params) && |tokens| <= params.maxValidatorSlots
    requires forall i :: 0 <= i < |tokens| ==> tokens[i] <= U64_MAX
    ensures SumOfPowers(params, tokens) <= MAX_TOTAL_VOTING_POWER
  {
    hide MulBps;
    SumOfPowersBound(params, tokens);
    TimesMonotone(|tokens|, params.maxValidatorSlots, MulBps(params.votesPerToken, TOKEN_MAX_AMOUNT));
  }

  lemma TimesMonotone(a: nat, b: nat, x: nat)
    requires a <= b
    ensures a * x <= b * x
  {
  }

  // ---------- slashing ----------

  /** What is left of an amount after one slash. */
  function AfterSlash(rate: Rate, x: nat): nat {
    MulBpsAtMost(rate, x);
    x - MulBps(rate, x)
  }

  lemma MulBpsAtMost(rate: Rate, x: nat)
    ensures MulBps(rate, x) <= x
  {
    assert x * rate <= x * BASIS;
  }

  /** What is left after successive slashes, each taken from what the previous
      ones left. */
  function AfterSlashes(rates: seq<Rate>, x: nat): nat {
    if rates == [] then x else AfterSlashes(rates[1..], AfterSlash(rates[0], x))
  }

  /** What successive slashes take off in all. */
  function SlashedOff(rates: seq<Rate>, x: nat): nat {
    if rates == [] then 0 else MulBps(rates[0], x) + SlashedOff(rates[1..], AfterSlash(rates[0], x))
  }

  /** What is left and what is taken off make up the amount. */
  lemma {:induction false} SlashedOffSplits(rates: seq<Rate>, x: nat)
    ensures AfterSlashes(rates, x) + SlashedOff(rates, x) == x
    decreases |rates|
  {
    hide MulBps;
    if rates != [] {
      SlashedOffSplits(rates[1..], AfterSlash(rates[0], x));
    }
  }

  /** Slashing is a rounded-up multiplication. */
  lemma AfterSlashCeiling(rate: Rate, x: nat)
    ensures x * (BASIS - rate) <= AfterSlash(rate, x) * BASIS < x * (BASIS - rate) + BASIS
  {
    assert x * (BASIS - rate) == x * BASIS - x * rate;
  }

  lemma CeilingSplit(p: nat, q: nat, a: nat, b: nat, c: nat, y: nat)
    requires p <= a * BASIS < p + BASIS
    requires q <= b * BASIS < q + BASIS
    requires p + q <= c * BASIS < p + q + BASIS
    requires q <= y * BASIS
    ensures c <= a + b <= c + 1
    ensures a <= c <= a + y
  {
  }

  lemma AfterSlashSplit(rate: Rate, x: nat, y: nat)
    ensures AfterSlash(rate, x + y) <= AfterSlash(rate, x) + AfterSlash(rate, y) <= AfterSlash(rate, x + y) + 1
    ensures AfterSlash(rate, x) <= AfterSlash(rate, x + y) <= AfterSlash(rate, x) + y
  {
    var left := BASIS - rate;
    AfterSlashCeiling(rate, x);
    AfterSlashCeiling(rate, y);
    AfterSlashCeiling(rate, x + y);
    assert (x + y) * left == x * left + y * left;
    assert y * left <= y * BASIS;
    CeilingSplit(x * left, y * left, AfterSlash(rate, x), AfterSlash(rate, y), AfterSlash(rate, x + y), y);
  }

  /** Slashing keeps between nothing and the whole amount. Of two amounts the
      larger keeps at least as much, and at most the difference more. */
  lemma {:induction false} AfterSlashesBounds(rates: seq<Rate>, x: nat, y: nat)
    ensures AfterSlashes(rates, x) <= x
    ensures AfterSlashes(rates, x) <= AfterSlashes(rates, x + y) <= AfterSlashes(rates, x) + y
    decreases |rates|
  {
    if rates != [] {
      AfterSlashSplit(rates[0], x, y);
      var x', z' := AfterSlash(rates[0], x), AfterSlash(rates[0], x + y);
      AfterSlashesBounds(rates[1..], x', z' - x');
    }
  }

  /** Slashing two parts apart keeps at least as much as slashing the whole, and
      at most one unit per slash more. */
  lemma {:induction false} AfterSlashesSplit(rates: seq<Rate>, x: nat, y: nat)
    ensures AfterSlashes(rates, x + y) <= AfterSlashes(rates, x) + AfterSlashes(rates, y)
      <= AfterSlashes(rates, x + y) + |rates|
    decreases |rates|
  {
    if rates != [] {
      var rest := rates[1..];
      var x', y', z' := AfterSlash(rates[0], x), AfterSlash(rates[0], y), AfterSlash(rates[0], x + y);
      AfterSlashSplit(rates[0], x, y);
      AfterSlashesSplit(rest, x', y');
      AfterSlashesBounds(rest, z', x' + y' - z');
    }
  }

  /** The rates of the slashes that apply to a bond: those at or after its start. */
  function RatesFrom(slashes: seq<Slash>, start: nat): seq<Rate> {
    if slashes == [] then []
    else (if slashes[0].epoch >= start then [slashes[0].rate] else []) + RatesFrom(slashes[1..], start)
  }

  /** The rates of the slashes that apply to an unbond: those between the start
      of its bond and its end. */
  function RatesWithin(slashes: seq<Slash>, start: nat, end: nat): seq<Rate> {
    if slashes == [] then []
    else (if start <= slashes[0].epoch <= end then [slashes[0].rate] else []) + RatesWithin(slashes[1..], start, end)
  }
}
