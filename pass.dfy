/** The forward pass of `calculateAllRounds` over the rounds
    (src/lib/calculations.ts:49-296), as a function from the rounds seen so
    far to the engine's running state. The method in module Engine computes
    it with the source's loops. */
module Pass {
  import opened Options
  import opened Types
  import opened Valuation
  import opened Ownership
  import opened Conversion
  import opened Rounds

  /** The scalar parameters of `calculateAllRounds`. */
  datatype Settings = Settings(
    initialFounderOwnership: real,
    defaultEsopPercentage: real,
    liquidationPreferenceEnabled: bool)

  /** The running state: the live ownership list, the SAFE records, the
      calculated rounds, the stages pushed so far and the running post-money
      valuation. */
  datatype PassState = PassState(
    ownership: seq<Share>,
    safes: seq<ProcessedSafe>,
    calculated: seq<CalculatedRound>,
    stages: seq<Stage>,
    lastPost: real)

  /** One calculated entry per round, in order, with the input's dilution
      and no figures (calculations.ts:49-56). */
  function InitialCalculated(rounds: seq<RoundInput>): (c: seq<CalculatedRound>)
    ensures |c| == |rounds|
  {
    seq(|rounds|, k requires 0 <= k < |rounds| => CalculatedRound(rounds[k], rounds[k].dilutionPercent, None, None, None))
  }

  /** An unconverted record for every SAFE among the first `n` rounds, in
      order (calculations.ts:58-68). */
  function SafeRecords(rounds: seq<RoundInput>, n: nat): (r: seq<ProcessedSafe>)
    requires n <= |rounds|
    ensures Indexed(r, n) && Ordered(r) && |r| <= n
  {
    if n == 0 then []
    else
      var prev := SafeRecords(rounds, n - 1);
      if rounds[n - 1].roundType.Safe?
      then prev + [ProcessedSafe(n - 1, rounds[n - 1], false, None, None)]
      else prev
  }

  function InitialOwnership(p: Settings): seq<Share> {
    [NewShare(Founders, p.initialFounderOwnership, 0.0)]
  }

  /** The state before the first round (calculations.ts:49-77). */
  function InitialState(rounds: seq<RoundInput>, p: Settings): PassState {
    PassState(InitialOwnership(p), SafeRecords(rounds, |rounds|), InitialCalculated(rounds),
              [Stage(InitialStageName, InitialOwnership(p))], 0.0)
  }

  /** The state fits the rounds: one calculated entry per round, and SAFE
      records in order that point into them. */
  predicate WellIndexed(st: PassState, rounds: seq<RoundInput>) {
    |st.calculated| == |rounds| && Indexed(st.safes, |st.calculated|) && Ordered(st.safes)
  }

  /** The pool a priced round tops the ESOP up to: its own option pool when
      set and not negative, else the default (calculations.ts:114-116). */
  function EsopTarget(r: RoundInput, defaultPercent: real): (t: real)
    ensures r.optionPoolPercent.Some? && r.optionPoolPercent.value >= 0.0 ==> t == r.optionPoolPercent.value
    ensures !(r.optionPoolPercent.Some? && r.optionPoolPercent.value >= 0.0) ==> t == defaultPercent
  {
    if r.optionPoolPercent.Some? && r.optionPoolPercent.value >= 0.0 then r.optionPoolPercent.value
    else defaultPercent
  }

  /** A priced round other than Exit: the rounds that top up the pool and
      dilute. */
  predicate Financing(r: RoundInput) {
    r.roundType.Priced? && r.name != ExitName
  }

  function WithFigures(c: CalculatedRound, f: Figures): CalculatedRound {
    c.(preMoneyValuation := f.preMoney, postMoneyValuation := f.postMoney, requiredARR := f.requiredARR)
  }

  function FiguresOf(c: CalculatedRound): Figures {
    Figures(c.preMoneyValuation, c.postMoneyValuation, c.requiredARR)
  }

  /** A disabled round (calculations.ts:85-103): its figures, a SAFE's
      dilution reset to the input's, a snapshot only for Exit, and the
      running valuation. */
  function DisabledStep(st: PassState, r: RoundInput, i: nat): PassState
    requires i < |st.calculated|
  {
    var entry := st.calculated[i];
    var dilution := if r.roundType.Safe? then r.dilutionPercent else entry.dilutionPercent;
    st.(calculated := st.calculated[i := WithFigures(entry, DisabledFigures(r)).(dilutionPercent := dilution)],
        stages := if r.name == ExitName then st.stages + [Stage(r.name, st.ownership)] else st.stages,
        lastPost := NextLastPost(r, st.lastPost))
  }

  /** The pool top-up an enabled round makes before anything else. */
  function TopUp(st: PassState, r: RoundInput, p: Settings): seq<Share> {
    if Financing(r) then EsopTopUp(st.ownership, EsopTarget(r, p.defaultEsopPercentage)) else st.ownership
  }

  /** The conversions an enabled round triggers, after the top-up. */
  function Conversions(st: PassState, rounds: seq<RoundInput>, i: nat, p: Settings): (c: ConversionState)
    requires i < |rounds| && WellIndexed(st, rounds)
    ensures |c.safes| == |st.safes| && |c.calculated| == |st.calculated|
    ensures Indexed(c.safes, |c.calculated|) && Ordered(c.safes)
  {
    var topped := ConversionState(TopUp(st, rounds[i], p), st.safes, st.calculated);
    match TriggerPreMoney(rounds[i])
    case Some(q) => ConvertPending(topped, rounds, i, q, rounds[i].name)
    case None => topped
  }

  /** An enabled round (calculations.ts:105-295): top-up, conversions,
      figures and dilution, the entry's update, a snapshot and the running
      valuation. */
  function EnabledStep(st: PassState, rounds: seq<RoundInput>, i: nat, p: Settings): PassState
    requires i < |rounds| && WellIndexed(st, rounds)
  {
    var r := rounds[i];
    var conv := Conversions(st, rounds, i, p);
    var after := if Financing(r) then PricedRoundOwnership(conv.ownership, r) else conv.ownership;
    var entry := conv.calculated[i];
    var dilution := if r.roundType.Priced? then r.dilutionPercent else entry.dilutionPercent;
    PassState(
      after,
      conv.safes,
      conv.calculated[i := WithFigures(entry, EnabledFigures(r, st.lastPost)).(dilutionPercent := dilution)],
      st.stages + [Stage(r.name, after)],
      NextLastPost(r, st.lastPost))
  }

  /** The handling of the round at index `i`. */
  function Step(st: PassState, rounds: seq<RoundInput>, i: nat, p: Settings): (t: PassState)
    requires i < |rounds| && WellIndexed(st, rounds)
    ensures |t.safes| == |st.safes| && WellIndexed(t, rounds)
  {
    if rounds[i].isEnabled then EnabledStep(st, rounds, i, p) else DisabledStep(st, rounds[i], i)
  }

  /** The state after the first `n` rounds. */
  function RunPass(rounds: seq<RoundInput>, p: Settings, n: nat): (st: PassState)
    requires n <= |rounds|
    ensures WellIndexed(st, rounds) && |st.safes| == |SafeRecords(rounds, |rounds|)|
  {
    if n == 0 then InitialState(rounds, p)
    else Step(RunPass(rounds, p, n - 1), rounds, n - 1, p)
  }
}
