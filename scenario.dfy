/** A worked run of the whole engine: a $500,000 SAFE with a $6,000,000 cap
    and a 20% discount, a $10,000,000 Series A for 20% with a 15% option
    pool and a 1x non-participating preference, and an exit at
    $100,000,000, with founders starting at 100% and preferences on
    (the scenario of test-calculations.js). */
module Scenario {
  import opened Options
  import opened Types
  import opened Ownership
  import opened Conversion
  import opened Pass
  import opened PassProperties
  import opened Waterfall
  import opened Calculations

  const PreSeed := RoundInput("Pre-Seed", Some(500000.0), Some(15.0), None, true, Safe,
                              Some(6000000.0), Some(20.0), None, None, None)
  const SeriesA := RoundInput("Series A", Some(10000000.0), Some(20.0), Some(20.0), true, Priced,
                              None, None, Some(NonParticipating), Some(1.0), Some(15.0))
  const ExitRound := RoundInput(ExitName, Some(100000000.0), None, Some(10.0), true, Priced,
                                None, None, None, None, None)
  const ScenarioRounds := [PreSeed, SeriesA, ExitRound]
  const ScenarioSettings := Settings(100.0, 10.0, true)

  const FoundersOnly := [NewShare(Founders, 100.0, 0.0)]

  /** The ownership after the Series A. */
  const AfterSeriesA := [NewShare(Founders, 816.0 / 13.0, 0.0), NewShare(Esop, 144.0 / 13.0, 0.0),
                         NewShare(SafeInvestors("Pre-Seed"), 80.0 / 13.0, 500000.0),
                         NewShare(Investors("Series A"), 20.0, 10000000.0)]

  /** The founders-only list topped up to a 15% pool. */
  lemma ScenarioTopUp()
    ensures EsopTopUp(FoundersOnly, 15.0) == [NewShare(Founders, 85.0, 0.0), NewShare(Esop, 15.0, 0.0)]
  {
    var diluted := [NewShare(Founders, 85.0, 0.0)];
    assert EsopDiluted(FoundersOnly, 15.0) == diluted;
    assert SetEsop(diluted, 15.0) == diluted + [NewShare(Esop, 15.0, 0.0)];
  }

  /** The SAFE converts at the cap, for 100/13 percent. */
  lemma ScenarioConversion()
    ensures TriggerPreMoney(SeriesA) == Some(40000000.0)
    ensures SafeEffectivePercent(PreSeed, 40000000.0) == 100.0 / 13.0
    ensures ConvertOne([NewShare(Founders, 85.0, 0.0), NewShare(Esop, 15.0, 0.0)], PreSeed, 40000000.0)
      == [NewShare(Founders, 1020.0 / 13.0, 0.0), NewShare(Esop, 180.0 / 13.0, 0.0),
          NewShare(SafeInvestors("Pre-Seed"), 100.0 / 13.0, 500000.0)]
  {
    CapBindsExample();
  }

  /** The Series A investors take 20 percent of the converted list. */
  lemma ScenarioDilution()
    ensures PricedRoundOwnership([NewShare(Founders, 1020.0 / 13.0, 0.0), NewShare(Esop, 180.0 / 13.0, 0.0),
                                  NewShare(SafeInvestors("Pre-Seed"), 100.0 / 13.0, 500000.0)], SeriesA)
      == AfterSeriesA
  {
  }

  /** The record the pass keeps for the SAFE: pending, not yet converted. */
  const PreSeedRecord := ProcessedSafe(0, PreSeed, false, None, None)

  /** The SAFE round converts nothing and changes no ownership. */
  lemma PassPreSeed()
    ensures var st := RunPass(ScenarioRounds, ScenarioSettings, 1);
      && st.ownership == FoundersOnly && st.safes == [PreSeedRecord]
      && st.stages == [Stage(InitialStageName, FoundersOnly), Stage("Pre-Seed", FoundersOnly)]
  {
    var rs, p := ScenarioRounds, ScenarioSettings;
    assert SafeRecords(rs, 1) == [PreSeedRecord];
    assert SafeRecords(rs, 2) == [PreSeedRecord];
    assert SafeRecords(rs, 3) == [PreSeedRecord];
    var st0 := RunPass(rs, p, 0);
    assert st0.ownership == FoundersOnly && st0.safes == [PreSeedRecord] && st0.lastPost == 0.0;
    assert st0.stages == [Stage(InitialStageName, FoundersOnly)];
    assert TriggerPreMoney(PreSeed).None?;
    assert RunPass(rs, p, 1) == EnabledStep(st0, rs, 0, p);
    assert Conversions(st0, rs, 0, p).ownership == FoundersOnly;
    assert Conversions(st0, rs, 0, p).safes == [PreSeedRecord];
  }

  /** The Series A tops up the pool, converts the SAFE and dilutes. */
  lemma PassSeriesA()
    ensures var st := RunPass(ScenarioRounds, ScenarioSettings, 2);
      && st.ownership == AfterSeriesA
      && st.stages == [Stage(InitialStageName, FoundersOnly), Stage("Pre-Seed", FoundersOnly),
                       Stage("Series A", AfterSeriesA)]
  {
    var rs, p := ScenarioRounds, ScenarioSettings;
    PassPreSeed();
    ScenarioTopUp();
    ScenarioConversion();
    ScenarioDilution();
    var st1 := RunPass(rs, p, 1);
    var topped := ConversionState([NewShare(Founders, 85.0, 0.0), NewShare(Esop, 15.0, 0.0)], st1.safes, st1.calculated);
    assert TopUp(st1, SeriesA, p) == topped.ownership;
    assert Pending(PreSeedRecord, rs, 1);
    assert ConvertFirst(topped, rs, 1, 40000000.0, "Series A", 1).ownership
      == ConvertOne(topped.ownership, PreSeed, 40000000.0);
    assert RunPass(rs, p, 2) == EnabledStep(st1, rs, 1, p);
  }

  /** The Exit pushes the final snapshot. */
  lemma PassExit()
    ensures var st := RunPass(ScenarioRounds, ScenarioSettings, 3);
      && st.stages == [Stage(InitialStageName, FoundersOnly), Stage("Pre-Seed", FoundersOnly),
                       Stage("Series A", AfterSeriesA), Stage(ExitName, AfterSeriesA)]
  {
    var rs, p := ScenarioRounds, ScenarioSettings;
    PassSeriesA();
    var st2 := RunPass(rs, p, 2);
    assert RunPass(rs, p, 3) == EnabledStep(st2, rs, 2, p);
    assert Conversions(st2, rs, 2, p).ownership == AfterSeriesA;
  }

  /** The Exit records its size as the post-money, which is the exit value. */
  lemma PassExitValue()
    ensures ExitValuation(RunPass(ScenarioRounds, ScenarioSettings, 3).calculated) == 100000000.0
  {
    var rs, p := ScenarioRounds, ScenarioSettings;
    var st3 := RunPass(rs, p, 3);
    PassInputs(rs, p, 3, 0);
    PassInputs(rs, p, 3, 1);
    PassInputs(rs, p, 3, 2);
    PassFigures(rs, p, 3, 2);
    assert st3.calculated[2].postMoneyValuation == Some(100000000.0);
    assert ExitValuation(st3.calculated) == ExitValuation(st3.calculated[2..]);
  }

  /** The stages the forward pass pushes, and the exit value. */
  lemma ScenarioPass()
    ensures var st := RunPass(ScenarioRounds, ScenarioSettings, 3);
      && st.stages == [Stage(InitialStageName, FoundersOnly), Stage("Pre-Seed", FoundersOnly),
                       Stage("Series A", AfterSeriesA), Stage(ExitName, AfterSeriesA)]
      && ExitValuation(st.calculated) == 100000000.0
  {
    PassExit();
    PassExitValue();
  }

  /** Every holder of the Exit stage is paid its claim in full: the claims
      add up to exactly the exit value, so nothing is prorated. */
  lemma ScenarioWaterfall()
    ensures Values(ResolveExitShares(AfterSeriesA, ScenarioRounds, true, 100000000.0))
      == [816000000.0 / 13.0, 144000000.0 / 13.0, 80000000.0 / 13.0, 20000000.0]
  {
    StripInvestorSuffixOfShareName(SafeInvestors("Pre-Seed"));
    StripInvestorSuffixOfShareName(Investors("Series A"));
    var c := Claims(AfterSeriesA, ScenarioRounds, true, 100000000.0);
    assert c == [816000000.0 / 13.0, 144000000.0 / 13.0, 80000000.0 / 13.0, 20000000.0];
    assert Sum(c[3..]) == 20000000.0;
    assert Sum(c[2..]) == 80000000.0 / 13.0 + 20000000.0;
    assert Sum(c[1..]) == 224000000.0 / 13.0 + 20000000.0;
    assert Sum(c) == 100000000.0;
  }

  /** A run of four stages with the Exit last: the Exit stage is resolved and
      the three before it are back-filled from it. */
  lemma ResolveFourStages(stages: seq<Stage>, calculated: seq<CalculatedRound>, rounds: seq<RoundInput>, lp: bool)
    requires |stages| == 4 && stages[3].stageName == ExitName
    requires stages[0].stageName != ExitName && stages[1].stageName != ExitName && stages[2].stageName != ExitName
    requires ExitValuation(calculated) > 0.0
    ensures var resolved := ResolveExitShares(stages[3].shares, rounds, lp, ExitValuation(calculated));
      ResolveStages(stages, calculated, rounds, lp)
        == [Stage(stages[0].stageName, BackFill(stages[0].shares, resolved)),
            Stage(stages[1].stageName, BackFill(stages[1].shares, resolved)),
            Stage(stages[2].stageName, BackFill(stages[2].shares, resolved)), Stage(ExitName, resolved)]
  {
    assert FindStage(stages, ExitName) == Some(3);
  }

  /** The stages after the waterfall: the Exit stage resolved, every other
      stage back-filled from it. */
  lemma ScenarioStages()
    ensures var resolved := ResolveExitShares(AfterSeriesA, ScenarioRounds, true, 100000000.0);
      CalculateAllRounds(ScenarioRounds, ScenarioSettings).ownershipStages
        == [Stage(InitialStageName, BackFill(FoundersOnly, resolved)), Stage("Pre-Seed", BackFill(FoundersOnly, resolved)),
            Stage("Series A", BackFill(AfterSeriesA, resolved)), Stage(ExitName, resolved)]
  {
    ScenarioPass();
    var st := RunPass(ScenarioRounds, ScenarioSettings, 3);
    assert "Initial" != ExitName && "Pre-Seed" != ExitName && "Series A" != ExitName;
    ResolveFourStages(st.stages, st.calculated, ScenarioRounds, true);
  }

  /** Back-filling keeps every holder and percentage, and so the total. */
  lemma BackFillKeepsHoldings(s: seq<Share>, exitShares: seq<Share>)
    ensures Holders(BackFill(s, exitShares)) == Holders(s)
    ensures Percentages(BackFill(s, exitShares)) == Percentages(s)
    ensures Total(BackFill(s, exitShares)) == Total(s)
  {
    var b := BackFill(s, exitShares);
    assert Percentages(b) == Percentages(s);
    TotalOfPercentages(b, s);
  }

  /** The ownership after the Series A adds up to 100. */
  lemma AfterSeriesATotal()
    ensures Total(AfterSeriesA) == 100.0
  {
    assert Total(AfterSeriesA[3..]) == 20.0;
    assert Total(AfterSeriesA[2..]) == 80.0 / 13.0 + 20.0;
    assert Total(AfterSeriesA[1..]) == 224.0 / 13.0 + 20.0;
  }

  /** At the Series A stage Founders hold 816/13, ESOP 144/13, the SAFE
      investors 80/13 and the Series A investors 20 percent. */
  lemma ScenarioSeriesAStage()
    ensures var stages := CalculateAllRounds(ScenarioRounds, ScenarioSettings).ownershipStages;
      && |stages| == 4
      && stages[2].stageName == "Series A"
      && Holders(stages[2].shares) == [Founders, Esop, SafeInvestors("Pre-Seed"), Investors("Series A")]
      && Percentages(stages[2].shares) == [816.0 / 13.0, 144.0 / 13.0, 80.0 / 13.0, 20.0]
      && Total(stages[2].shares) == 100.0
  {
    ScenarioStages();
    var resolved := ResolveExitShares(AfterSeriesA, ScenarioRounds, true, 100000000.0);
    BackFillKeepsHoldings(AfterSeriesA, resolved);
    AfterSeriesATotal();
  }

  /** The Pre-Seed stage reports for Founders the value the Exit stage pays
      them, 816,000,000/13. */
  lemma ScenarioFoundersValue()
    ensures var stages := CalculateAllRounds(ScenarioRounds, ScenarioSettings).ownershipStages;
      && |stages| == 4
      && stages[1].stageName == "Pre-Seed" && |stages[1].shares| == 1 && stages[1].shares[0].holder == Founders
      && stages[3].stageName == ExitName && |stages[3].shares| == 4 && stages[3].shares[0].holder == Founders
      && stages[1].shares[0].valueAtExit == stages[3].shares[0].valueAtExit == 816000000.0 / 13.0
  {
    ScenarioStages();
    ScenarioWaterfall();
    var resolved := ResolveExitShares(AfterSeriesA, ScenarioRounds, true, 100000000.0);
    assert resolved[0].valueAtExit == Values(resolved)[0];
    assert Find(resolved, Founders) == Some(0);
    assert BackFill(FoundersOnly, resolved)[0] == BackFillShare(FoundersOnly[0], resolved);
  }

  /** The end-to-end result: at the Series A stage Founders hold 816/13,
      ESOP 144/13, the SAFE investors 80/13 and the Series A investors 20
      percent, adding up to 100; and the Pre-Seed stage reports for
      Founders the same value at exit as the Exit stage, 816,000,000/13. */
  lemma ScenarioExample()
    ensures var stages := CalculateAllRounds(ScenarioRounds, ScenarioSettings).ownershipStages;
      && |stages| == 4
      && stages[2].stageName == "Series A"
      && Holders(stages[2].shares) == [Founders, Esop, SafeInvestors("Pre-Seed"), Investors("Series A")]
      && Percentages(stages[2].shares) == [816.0 / 13.0, 144.0 / 13.0, 80.0 / 13.0, 20.0]
      && Total(stages[2].shares) == 100.0
      && stages[1].stageName == "Pre-Seed" && |stages[1].shares| == 1 && stages[1].shares[0].holder == Founders
      && stages[3].stageName == ExitName && |stages[3].shares| == 4 && stages[3].shares[0].holder == Founders
      && stages[1].shares[0].valueAtExit == stages[3].shares[0].valueAtExit == 816000000.0 / 13.0
  {
    ScenarioSeriesAStage();
    ScenarioFoundersValue();
  }
}
