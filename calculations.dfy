/** `calculateAllRounds` (src/lib/calculations.ts:43-389) as a whole: the
    forward pass over the rounds followed by the exit waterfall, and what the
    two together guarantee about the calculated rounds and the ownership
    stages it returns. */
module Calculations {
  import opened Options
  import opened Types
  import opened Ownership
  import opened Rounds
  import opened Pass
  import opened PassProperties
  import opened Waterfall

  /** The result: one calculated round per input round, and the ownership
      stages. */
  datatype CalculationResult = CalculationResult(calculatedRounds: seq<CalculatedRound>, ownershipStages: seq<Stage>)

  function CalculateAllRounds(rounds: seq<RoundInput>, p: Settings): (r: CalculationResult)
    ensures |r.calculatedRounds| == |rounds|
  {
    var st := RunPass(rounds, p, |rounds|);
    CalculationResult(st.calculated, ResolveStages(st.stages, st.calculated, rounds, p.liquidationPreferenceEnabled))
  }

  // ---------------------------------------------------------------------
  // The calculated rounds

  /** Every calculated round is its input with the dilution the engine
      reports (a SAFE that converted reports its effective percentage) and
      the figures that the running valuation before it determines. */
  lemma CalculatedRoundFacts(rounds: seq<RoundInput>, p: Settings, k: nat)
    requires k < |rounds|
    ensures var c := CalculateAllRounds(rounds, p).calculatedRounds[k];
      && c.input == rounds[k]
      && c.dilutionPercent == ExpectedDilution(rounds, k, |rounds|)
      && FiguresOf(c) == if rounds[k].isEnabled then EnabledFigures(rounds[k], LastPostBefore(rounds, k))
                         else DisabledFigures(rounds[k])
  {
    PassInputs(rounds, p, |rounds|, k);
    PassDilution(rounds, p, |rounds|, k);
    PassFigures(rounds, p, |rounds|, k);
  }

  /** The first enabled round named Exit. */
  function FindEnabledExit(rounds: seq<RoundInput>): (r: Option<nat>)
    ensures r.Some? ==> r.value < |rounds| && rounds[r.value].name == ExitName && rounds[r.value].isEnabled
    ensures r.Some? ==> forall k :: 0 <= k < r.value ==> !(rounds[k].name == ExitName && rounds[k].isEnabled)
    ensures r.None? ==> forall k :: 0 <= k < |rounds| ==> !(rounds[k].name == ExitName && rounds[k].isEnabled)
  {
    if rounds == [] then None
    else if rounds[0].name == ExitName && rounds[0].isEnabled then Some(0)
    else match FindEnabledExit(rounds[1..])
      case None => None
      case Some(k) => Some(k + 1)
  }

  lemma {:induction false} ExitValuationOf(calculated: seq<CalculatedRound>, rounds: seq<RoundInput>)
    requires |calculated| == |rounds| && forall k :: 0 <= k < |rounds| ==> calculated[k].input == rounds[k]
    ensures ExitValuation(calculated) == match FindEnabledExit(rounds)
      case Some(k) => calculated[k].postMoneyValuation.GetOr(0.0)
      case None => 0.0
  {
    if rounds != [] {
      assert forall k :: 0 <= k < |rounds| - 1 ==> calculated[1..][k].input == rounds[1..][k];
      ExitValuationOf(calculated[1..], rounds[1..]);
    }
  }

  /** The exit value the waterfall distributes: the size of the first
      enabled round named Exit (0 when it has none, when it is a SAFE, or
      when there is no such round). */
  lemma ExitValue(rounds: seq<RoundInput>, p: Settings)
    ensures ExitValuation(CalculateAllRounds(rounds, p).calculatedRounds)
      == match FindEnabledExit(rounds)
         case Some(k) => if rounds[k].roundType.Safe? then 0.0 else rounds[k].roundSize.GetOr(0.0)
         case None => 0.0
  {
    var calculated := CalculateAllRounds(rounds, p).calculatedRounds;
    forall k | 0 <= k < |rounds|
      ensures calculated[k].input == rounds[k]
    {
      PassInputs(rounds, p, |rounds|, k);
    }
    ExitValuationOf(calculated, rounds);
    match FindEnabledExit(rounds)
    case Some(k) =>
      PassFigures(rounds, p, |rounds|, k);
    case None =>
  }

  // ---------------------------------------------------------------------
  // The ownership stages

  lemma SingleEsopOfHolders(s: seq<Share>, t: seq<Share>)
    requires Holders(s) == Holders(t)
    ensures SingleEsop(s) == SingleEsop(t)
  {
    assert |s| == |Holders(s)| == |t|;
    assert forall k :: 0 <= k < |s| ==> s[k].holder == Holders(s)[k] == t[k].holder;
  }

  /** The stages are the Initial snapshot of the founders followed by one
      per enabled round or disabled Exit, in round order; every stage holds
      at most one ESOP entry, and when the founders start at 100 every stage
      sums to 100. */
  lemma OwnershipStagesFacts(rounds: seq<RoundInput>, p: Settings)
    ensures var stages := CalculateAllRounds(rounds, p).ownershipStages;
      && |stages| == 1 + |EmittedNames(rounds, |rounds|)|
      && StageNames(stages) == [InitialStageName] + EmittedNames(rounds, |rounds|)
      && stages[0].stageName == InitialStageName
      && SameHoldings(stages[0].shares, InitialOwnership(p))
      && forall k :: 0 <= k < |stages| ==>
           && SingleEsop(stages[k].shares)
           && (p.initialFounderOwnership == 100.0 ==> Total(stages[k].shares) == 100.0)
  {
    var st := RunPass(rounds, p, |rounds|);
    var lp := p.liquidationPreferenceEnabled;
    var stages := ResolveStages(st.stages, st.calculated, rounds, lp);
    PassStageNames(rounds, p, |rounds|);
    PassSound(rounds, p, |rounds|);
    forall k | 0 <= k < |stages|
      ensures stages[k].stageName == st.stages[k].stageName
      ensures SingleEsop(stages[k].shares)
      ensures p.initialFounderOwnership == 100.0 ==> Total(stages[k].shares) == 100.0
    {
      ResolveStagesKeepsHoldings(st.stages, st.calculated, rounds, lp, k);
      SingleEsopOfHolders(stages[k].shares, st.stages[k].shares);
      assert Sound(st.stages[k].shares, p.initialFounderOwnership == 100.0);
    }
    ResolveStagesKeepsHoldings(st.stages, st.calculated, rounds, lp, 0);
    assert StageNames(stages) == StageNames(st.stages);
  }

  // ---------------------------------------------------------------------
  // The exit

  lemma {:induction false} FindStageOfNames(a: seq<Stage>, b: seq<Stage>, name: string)
    requires StageNames(a) == StageNames(b)
    ensures FindStage(a, name) == FindStage(b, name)
  {
    assert |a| == |StageNames(a)| == |b|;
    if a != [] {
      assert a[0].stageName == StageNames(a)[0] == b[0].stageName;
      assert StageNames(a[1..]) == StageNames(a)[1..];
      assert StageNames(b[1..]) == StageNames(b)[1..];
      FindStageOfNames(a[1..], b[1..], name);
    }
  }

  /** With an Exit stage and a positive exit value, that stage's holders
      receive in all the smaller of their total claim and the exit value
      (nothing if nothing is claimed), and every other stage not named Exit
      reports each holder's value, invested amount and multiple from the
      Exit stage. */
  lemma ExitPayouts(rounds: seq<RoundInput>, p: Settings, x: nat)
    requires var r := CalculateAllRounds(rounds, p);
      FindStage(r.ownershipStages, ExitName) == Some(x) && ExitValuation(r.calculatedRounds) > 0.0
    ensures var r := CalculateAllRounds(rounds, p);
      var stages := r.ownershipStages;
      var exit := ExitValuation(r.calculatedRounds);
      var c := Claims(RunPass(rounds, p, |rounds|).stages[x].shares, rounds, p.liquidationPreferenceEnabled, exit);
      && SameHoldings(stages[x].shares, RunPass(rounds, p, |rounds|).stages[x].shares)
      && Sum(Values(stages[x].shares)) == (if Sum(c) > 0.0 then Min(Sum(c), exit) else 0.0)
      && forall k, j :: 0 <= k < |stages| && stages[k].stageName != ExitName && 0 <= j < |stages[k].shares| ==>
           match Find(stages[x].shares, stages[k].shares[j].holder)
           case Some(e) => stages[k].shares[j].valueAtExit == stages[x].shares[e].valueAtExit
                           && stages[k].shares[j].investedAmount == stages[x].shares[e].investedAmount
                           && stages[k].shares[j].returnMultiple == stages[x].shares[e].returnMultiple
           case None => stages[k].shares[j].valueAtExit == 0.0
  {
    var st := RunPass(rounds, p, |rounds|);
    var lp := p.liquidationPreferenceEnabled;
    var stages := ResolveStages(st.stages, st.calculated, rounds, lp);
    forall k | 0 <= k < |stages|
      ensures stages[k].stageName == st.stages[k].stageName
    {
      ResolveStagesKeepsHoldings(st.stages, st.calculated, rounds, lp, k);
    }
    assert StageNames(stages) == StageNames(st.stages);
    FindStageOfNames(stages, st.stages, ExitName);
    ResolveStagesPays(st.stages, st.calculated, rounds, lp, x);
    ResolveExitSharesFacts(st.stages[x].shares, rounds, lp, ExitValuation(st.calculated));
    PassSound(rounds, p, |rounds|);
    assert forall k :: 0 <= k < |st.stages| ==> Unresolved(st.stages[k].shares);
  }

  /** Without an Exit stage, or without a positive exit value, nobody
      receives anything in any stage. */
  lemma NoExitNoValue(rounds: seq<RoundInput>, p: Settings)
    requires var r := CalculateAllRounds(rounds, p);
      FindStage(r.ownershipStages, ExitName).None? || ExitValuation(r.calculatedRounds) <= 0.0
    ensures var stages := CalculateAllRounds(rounds, p).ownershipStages;
      forall k, j :: 0 <= k < |stages| && 0 <= j < |stages[k].shares| ==> stages[k].shares[j].valueAtExit == 0.0
  {
    var st := RunPass(rounds, p, |rounds|);
    var lp := p.liquidationPreferenceEnabled;
    var stages := ResolveStages(st.stages, st.calculated, rounds, lp);
    forall k | 0 <= k < |stages|
      ensures stages[k].stageName == st.stages[k].stageName
    {
      ResolveStagesKeepsHoldings(st.stages, st.calculated, rounds, lp, k);
    }
    assert StageNames(stages) == StageNames(st.stages);
    FindStageOfNames(stages, st.stages, ExitName);
    PassSound(rounds, p, |rounds|);
    assert forall k :: 0 <= k < |st.stages| ==> Unresolved(st.stages[k].shares);
    ResolveStagesZero(st.stages, st.calculated, rounds, lp);
  }
}
