/** The engine as the source runs it: `calculateAllRounds`
    (src/lib/calculations.ts:43-389) with its loops over the rounds, the
    ownership list, the SAFE records and the stages. Each method is proved to
    compute the function of the same name in the other modules, so every
    property proved there holds of what the loops return. */
module Engine {
  import opened Options
  import opened Types
  import opened Valuation
  import opened Ownership
  import opened Conversion
  import opened Rounds
  import opened Pass
  import opened Waterfall
  import opened Calculations

  // ---------------------------------------------------------------------
  // Loops over the ownership list

  /** `reduce((sum, share) => sum + share.percentage, 0)`. */
  method SumPercentages(s: seq<Share>) returns (total: real)
    ensures total == Total(s)
  {
    total := 0.0;
    var k := 0;
    while k < |s|
      invariant k <= |s| && total == Total(s[..k])
    {
      assert s[..k + 1] == s[..k] + [s[k]];
      TotalAppend(s[..k], s[k]);
      total := total + s[k].percentage;
      k := k + 1;
    }
    assert s[..k] == s;
  }

  /** The sum over the ESOP entries (calculations.ts:120). */
  method SumEsop(s: seq<Share>) returns (total: real)
    ensures total == EsopTotal(s)
  {
    total := 0.0;
    var k := 0;
    while k < |s|
      invariant k <= |s| && total == EsopTotal(s[..k])
    {
      assert s[..k + 1] == s[..k] + [s[k]];
      EsopTotalAppend(s[..k], s[k]);
      if s[k].holder.Esop? {
        total := total + s[k].percentage;
      }
      k := k + 1;
    }
    assert s[..k] == s;
  }

  /** `find(s => s.name === ShareName(h))`. */
  method FindShare(s: seq<Share>, h: Holder) returns (r: Option<nat>)
    ensures r == Find(s, h)
  {
    var k := 0;
    while k < |s| && s[k].holder != h
      invariant k <= |s|
      invariant forall j :: 0 <= j < k ==> s[j].holder != h
    {
      k := k + 1;
    }
    r := if k < |s| then Some(k) else None;
  }

  /** `forEach(share => share.percentage *= f)`. */
  method ScaleShares(s: seq<Share>, f: real) returns (r: seq<Share>)
    ensures r == Scale(s, f)
  {
    r := s;
    var k := 0;
    while k < |r|
      invariant k <= |r| == |s|
      invariant forall j :: 0 <= j < k ==> r[j] == Scale(s, f)[j]
      invariant forall j :: k <= j < |s| ==> r[j] == s[j]
    {
      r := r[k := r[k].(percentage := r[k].percentage * f)];
      k := k + 1;
    }
  }

  /** The same, skipping the ESOP entries (calculations.ts:129-133). */
  method ScaleNonEsopShares(s: seq<Share>, f: real) returns (r: seq<Share>)
    ensures r == ScaleNonEsop(s, f)
  {
    r := s;
    var k := 0;
    while k < |r|
      invariant k <= |r| == |s|
      invariant forall j :: 0 <= j < k ==> r[j] == ScaleNonEsop(s, f)[j]
      invariant forall j :: k <= j < |s| ==> r[j] == s[j]
    {
      if !r[k].holder.Esop? {
        r := r[k := r[k].(percentage := r[k].percentage * f)];
      }
      k := k + 1;
    }
  }

  /** `forEach(share => share.percentage = 0)`. */
  method ZeroShares(s: seq<Share>) returns (r: seq<Share>)
    ensures r == ZeroAll(s)
  {
    r := s;
    var k := 0;
    while k < |r|
      invariant k <= |r| == |s|
      invariant forall j :: 0 <= j < k ==> r[j] == s[j].(percentage := 0.0)
      invariant forall j :: k <= j < |s| ==> r[j] == s[j]
    {
      r := r[k := r[k].(percentage := 0.0)];
      k := k + 1;
    }
  }

  /** Founders and ESOP set to zero (calculations.ts:209-212). */
  method ZeroFoundersAndEsopShares(s: seq<Share>) returns (r: seq<Share>)
    ensures r == ZeroFoundersAndEsop(s)
  {
    r := s;
    var k := 0;
    while k < |r|
      invariant k <= |r| == |s|
      invariant forall j :: 0 <= j < k ==> r[j] == ZeroFoundersAndEsop(s)[j]
      invariant forall j :: k <= j < |s| ==> r[j] == s[j]
    {
      if r[k].holder.Founders? || r[k].holder.Esop? {
        r := r[k := r[k].(percentage := 0.0)];
      }
      k := k + 1;
    }
  }

  /** Everyone scaled by `(100 - d) / 100` and the new holder pushed. */
  method DiluteShares(s: seq<Share>, d: real, h: Holder, invested: real) returns (r: seq<Share>)
    ensures r == Dilute(s, d, h, invested)
  {
    r := ScaleShares(s, (100.0 - d) / 100.0);
    r := r + [NewShare(h, d, invested)];
  }

  // ---------------------------------------------------------------------
  // One round's ownership changes

  /** The ESOP top-up (calculations.ts:114-156). */
  method TopUpEsop(s: seq<Share>, target: real) returns (r: seq<Share>)
    ensures r == EsopTopUp(s, target)
  {
    r := s;
    if target > 0.0 {
      var esop := SumEsop(r);
      if target > esop {
        var additional := target - esop;
        var nonEsop := 100.0 - esop;
        if nonEsop > 0.0 && nonEsop < 100.0 {
          r := ScaleNonEsopShares(r, (nonEsop - additional) / nonEsop);
        } else if nonEsop == 100.0 {
          r := ScaleShares(r, (100.0 - target) / 100.0);
        }
        assert r == EsopDiluted(s, target);
        var found := FindShare(r, Esop);
        if found.Some? {
          r := r[found.value := r[found.value].(percentage := target)];
        } else {
          r := r + [NewShare(Esop, target, 0.0)];
        }
        assert r == SetEsop(EsopDiluted(s, target), target);
        var sum := SumPercentages(r);
        if sum != 100.0 && sum > 0.0 {
          r := ScaleShares(r, 100.0 / sum);
        }
      }
    }
  }

  /** One SAFE's conversion into the live list at effective percentage `eff`
      (calculations.ts:188-221), including the clamping branch. */
  method ConvertSafeShares(s: seq<Share>, eff: real, h: Holder, invested: real) returns (r: seq<Share>)
    ensures r == ConvertSafe(s, eff, h, invested)
  {
    r := s;
    if eff > 0.0 && eff < 100.0 {
      r := DiluteShares(r, eff, h, invested);
    } else if eff >= 100.0 {
      r := ScaleShares(r, Max(0.0, (100.0 - eff) / 100.0));
      r := r + [NewShare(h, Min(100.0, eff), invested)];
      var sum := SumPercentages(r);
      if sum > 100.0 && sum > 0.0 {
        r := ZeroFoundersAndEsopShares(r);
        sum := SumPercentages(r);
        if sum > 0.0 {
          r := ScaleShares(r, 100.0 / sum);
        }
      }
    }
  }

  /** The loop over the SAFE records a triggering round makes
      (calculations.ts:164-225). */
  method ConvertSafes(st: ConversionState, rounds: seq<RoundInput>, i: nat, q: real, stageName: string)
    returns (r: ConversionState)
    requires Indexed(st.safes, |st.calculated|)
    ensures r == ConvertPending(st, rounds, i, q, stageName)
  {
    r := st;
    var k := 0;
    while k < |st.safes|
      invariant k <= |st.safes|
      invariant r == ConvertFirst(st, rounds, i, q, stageName, k)
    {
      var safe := r.safes[k];
      if !safe.converted && safe.originalIndex < |rounds| && rounds[safe.originalIndex].isEnabled && safe.originalIndex < i {
        var eff := SafeEffectivePercent(safe.details, q);
        var ownership := ConvertSafeShares(r.ownership, eff, SafeInvestors(safe.details.name), safe.details.roundSize.GetOr(0.0));
        var entry := r.calculated[safe.originalIndex];
        r := ConversionState(
          ownership,
          r.safes[k := Converted(safe, eff, stageName)],
          r.calculated[safe.originalIndex := entry.(dilutionPercent := Some(eff))]);
      }
      k := k + 1;
    }
  }

  /** What a priced round other than Exit does to the live list and the
      figures it reports (calculations.ts:241-279). */
  method PricedRound(s: seq<Share>, r: RoundInput, lastPost: real) returns (shares: seq<Share>, f: Figures)
    requires r.roundType.Priced? && r.name != ExitName
    ensures shares == PricedRoundOwnership(s, r)
    ensures f == EnabledFigures(r, lastPost)
  {
    shares := s;
    f := NoFigures;
    if r.dilutionPercent.Some? && r.roundSize.Some? && r.dilutionPercent.value > 0.0 && r.dilutionPercent.value < 100.0 {
      var pre := PreMoney(r.roundSize.value, r.dilutionPercent.value);
      var post := PostMoney(pre, r.roundSize.value);
      f := Figures(pre, post, RequiredARR(post, r.arrMultiple));
      shares := DiluteShares(shares, r.dilutionPercent.value, Investors(r.name), r.roundSize.value);
    } else if r.arrMultiple.Some? && r.roundSize.Some? {
      var post := lastPost;
      if r.roundSize.value > 0.0 {
        post := post + r.roundSize.value;
      }
      f := Figures(Some(post - r.roundSize.value), Some(post), RequiredARR(Some(post), r.arrMultiple));
      if r.dilutionPercent == Some(0.0) && r.roundSize.value > 0.0 {
      } else if r.dilutionPercent == Some(100.0) && r.roundSize.value > 0.0 {
        shares := ZeroShares(shares);
        shares := shares + [NewShare(Investors(r.name), 100.0, r.roundSize.value)];
      }
    }
  }

  // ---------------------------------------------------------------------
  // One round

  /** The body of the loop over the rounds (calculations.ts:80-295). */
  method ProcessRound(st: PassState, rounds: seq<RoundInput>, i: nat, p: Settings) returns (t: PassState)
    requires i < |rounds| && WellIndexed(st, rounds)
    ensures t == Step(st, rounds, i, p)
  {
    var r := rounds[i];
    var entry := st.calculated[i];
    if !r.isEnabled {
      entry := entry.(preMoneyValuation := None, postMoneyValuation := None, requiredARR := None);
      if r.roundType.Safe? {
        entry := entry.(dilutionPercent := r.dilutionPercent);
      }
      var stages := st.stages;
      var lastPost := st.lastPost;
      if r.name == ExitName {
        stages := stages + [Stage(r.name, st.ownership)];
        if r.roundSize.Some? {
          lastPost := r.roundSize.value;
          entry := entry.(postMoneyValuation := r.roundSize,
                          preMoneyValuation := Some(lastPost - r.roundSize.value));
        }
      }
      t := st.(calculated := st.calculated[i := entry], stages := stages, lastPost := lastPost);
      return;
    }
    var ownership := st.ownership;
    if Financing(r) {
      ownership := TopUpEsop(ownership, EsopTarget(r, p.defaultEsopPercentage));
    }
    var conv := ConversionState(ownership, st.safes, st.calculated);
    var q := TriggerPreMoney(r);
    if q.Some? {
      conv := ConvertSafes(conv, rounds, i, q.value, r.name);
    }
    ownership := conv.ownership;
    var f := NoFigures;
    if r.roundType.Safe? {
    } else if r.name == ExitName {
      var post := r.roundSize.GetOr(0.0);
      f := Figures(Some(st.lastPost), Some(post), RequiredARR(Some(post), r.arrMultiple));
    } else {
      ownership, f := PricedRound(ownership, r, st.lastPost);
    }
    entry := WithFigures(conv.calculated[i], f);
    if !r.roundType.Safe? {
      entry := entry.(dilutionPercent := r.dilutionPercent);
    }
    var lastPost := st.lastPost;
    if f.postMoney.Some? && r.name != ExitName {
      lastPost := f.postMoney.value;
    }
    t := PassState(ownership, conv.safes, conv.calculated[i := entry], st.stages + [Stage(r.name, ownership)], lastPost);
  }

  // ---------------------------------------------------------------------
  // The waterfall

  /** `rounds.find(r => r.name === name)`, as an index. */
  method FindRoundIndex(rounds: seq<RoundInput>, name: string) returns (r: Option<nat>)
    ensures r == FindRound(rounds, name)
  {
    var k := 0;
    while k < |rounds| && rounds[k].name != name
      invariant k <= |rounds|
      invariant forall j :: 0 <= j < k ==> rounds[j].name != name
    {
      k := k + 1;
    }
    r := if k < |rounds| then Some(k) else None;
  }

  /** The preference terms of a holder (calculations.ts:304-318). */
  method HolderTerms(h: Holder, rounds: seq<RoundInput>, lpEnabled: bool) returns (t: Terms)
    ensures t == LpTerms(h, rounds, lpEnabled)
  {
    var lpType: Option<LpType> := None;
    var multiple := 1.0;
    if h.Founders? || h.Esop? {
      lpType := None;
    } else {
      var found := FindRoundIndex(rounds, StripInvestorSuffix(ShareName(h)));
      if found.Some? {
        var round := rounds[found.value];
        lpType := if round.lpType.Some? then round.lpType else DefaultLpType(lpEnabled);
        multiple := round.lpMultiple.GetOr(1.0);
      } else {
        lpType := DefaultLpType(lpEnabled);
        multiple := 1.0;
      }
    }
    t := Terms(lpType, multiple);
  }

  /** One holder's provisional payout under its terms
      (calculations.ts:320-332). */
  method HolderClaim(sh: Share, t: Terms, exit: real) returns (claim: real)
    ensures claim == Claim(sh, t, exit)
  {
    var preference := sh.investedAmount * t.multiple;
    var common := sh.percentage / 100.0 * exit;
    claim := common;
    if t.lpType == Some(NonParticipating) {
      claim := Max(preference, common);
    } else if t.lpType == Some(Participating) {
      claim := preference + common;
    }
  }

  /** The provisional payouts (calculations.ts:302-333). */
  method ComputeClaims(s: seq<Share>, rounds: seq<RoundInput>, lpEnabled: bool, exit: real) returns (c: seq<real>)
    ensures c == Claims(s, rounds, lpEnabled, exit)
  {
    c := [];
    var k := 0;
    while k < |s|
      invariant k <= |s| && |c| == k
      invariant forall j :: 0 <= j < k ==> c[j] == Claim(s[j], LpTerms(s[j].holder, rounds, lpEnabled), exit)
    {
      var t := HolderTerms(s[k].holder, rounds, lpEnabled);
      var claim := HolderClaim(s[k], t, exit);
      c := c + [claim];
      k := k + 1;
    }
  }

  /** The total provisional claim (calculations.ts:335). */
  method SumClaims(c: seq<real>) returns (total: real)
    ensures total == Sum(c)
  {
    total := 0.0;
    var k := 0;
    while k < |c|
      invariant k <= |c| && total == Sum(c[..k])
    {
      assert c[..k + 1] == c[..k] + [c[k]];
      SumAppend(c[..k], c[k]);
      total := total + c[k];
      k := k + 1;
    }
    assert c[..k] == c;
  }

  /** One holder's value at exit and return multiple
      (calculations.ts:338-357). */
  method ResolveShare(sh: Share, claim: real, total: real, exit: real) returns (r: Share)
    ensures r == Resolve(sh, Payout(claim, total, exit))
  {
    var value := 0.0;
    if total > 0.0 && exit > 0.0 {
      if total > exit {
        value := claim / total * exit;
      } else {
        value := claim;
      }
    }
    var multiple := Finite(0.0);
    if sh.investedAmount > 0.0 {
      multiple := Finite(value / sh.investedAmount);
    } else if sh.investedAmount == 0.0 && value > 0.0 {
      multiple := Infinite;
    }
    r := sh.(valueAtExit := value, returnMultiple := multiple);
  }

  /** Values and multiples of the Exit snapshot (calculations.ts:302-358). */
  method ResolveExit(s: seq<Share>, rounds: seq<RoundInput>, lpEnabled: bool, exit: real) returns (r: seq<Share>)
    ensures r == ResolveExitShares(s, rounds, lpEnabled, exit)
  {
    var c := ComputeClaims(s, rounds, lpEnabled, exit);
    var total := SumClaims(c);
    r := s;
    var k := 0;
    while k < |r|
      invariant k <= |r| == |s| == |c|
      invariant forall j :: 0 <= j < k ==> r[j] == Resolve(s[j], Payout(c[j], total, exit))
      invariant forall j :: k <= j < |s| ==> r[j] == s[j]
    {
      var sh := ResolveShare(r[k], c[k], total, exit);
      r := r[k := sh];
      k := k + 1;
    }
  }

  /** Copies the Exit outcome into one earlier snapshot (calculations.ts:362-370). */
  method BackFillShares(s: seq<Share>, exitShares: seq<Share>) returns (r: seq<Share>)
    ensures r == BackFill(s, exitShares)
  {
    r := s;
    var k := 0;
    while k < |r|
      invariant k <= |r| == |s|
      invariant forall j :: 0 <= j < k ==> r[j] == BackFillShare(s[j], exitShares)
      invariant forall j :: k <= j < |s| ==> r[j] == s[j]
    {
      var found := FindShare(exitShares, r[k].holder);
      if found.Some? {
        var e := exitShares[found.value];
        r := r[k := r[k].(valueAtExit := e.valueAtExit, investedAmount := e.investedAmount,
                          returnMultiple := e.returnMultiple)];
      }
      k := k + 1;
    }
  }

  /** The back-fill of every stage not named Exit (calculations.ts:360-372). */
  method BackFillAll(stages: seq<Stage>, exitShares: seq<Share>) returns (r: seq<Stage>)
    ensures r == BackFillStages(stages, exitShares)
  {
    r := stages;
    var k := 0;
    while k < |r|
      invariant k <= |r| == |stages|
      invariant forall j :: 0 <= j < k ==> r[j] == BackFillStages(stages, exitShares)[j]
      invariant forall j :: k <= j < |stages| ==> r[j] == stages[j]
    {
      if r[k].stageName != ExitName {
        var shares := BackFillShares(r[k].shares, exitShares);
        r := r[k := Stage(r[k].stageName, shares)];
      }
      k := k + 1;
    }
  }

  /** The zero outcome of the Exit snapshot (calculations.ts:374-379). */
  method ZeroExit(s: seq<Share>) returns (r: seq<Share>)
    ensures r == ZeroExitShares(s)
  {
    r := s;
    var k := 0;
    while k < |r|
      invariant k <= |r| == |s|
      invariant forall j :: 0 <= j < k ==> r[j] == ZeroExitShare(s[j])
      invariant forall j :: k <= j < |s| ==> r[j] == s[j]
    {
      r := r[k := r[k].(valueAtExit := 0.0,
                        returnMultiple := if r[k].investedAmount > 0.0 then Finite(0.0) else Unset)];
      k := k + 1;
    }
  }

  /** The zero outcome of every other stage not named Exit
      (calculations.ts:380-385). */
  method ZeroBackFillAll(stages: seq<Stage>, exitShares: seq<Share>) returns (r: seq<Stage>)
    ensures r == ZeroBackFillStages(stages, exitShares)
  {
    r := stages;
    var k := 0;
    while k < |r|
      invariant k <= |r| == |stages|
      invariant forall j :: 0 <= j < k ==> r[j] == ZeroBackFillStages(stages, exitShares)[j]
      invariant forall j :: k <= j < |stages| ==> r[j] == stages[j]
    {
      if r[k].stageName != ExitName {
        var s := r[k].shares;
        var n := 0;
        while n < |s|
          invariant n <= |s| == |r[k].shares|
          invariant forall j :: 0 <= j < n ==> s[j] == ZeroBackFillShare(r[k].shares[j], exitShares)
          invariant forall j :: n <= j < |s| ==> s[j] == r[k].shares[j]
        {
          var found := FindShare(exitShares, s[n].holder);
          var invested := if found.Some? then exitShares[found.value].investedAmount else s[n].investedAmount;
          var multiple := if found.Some? then exitShares[found.value].returnMultiple else Unset;
          s := s[n := s[n].(valueAtExit := 0.0, investedAmount := invested, returnMultiple := multiple)];
          n := n + 1;
        }
        assert s == ZeroBackFill(r[k].shares, exitShares);
        r := r[k := Stage(r[k].stageName, s)];
      }
      k := k + 1;
    }
  }

  /** `findIndex(stage => stage.stageName === name)`. */
  method FindStageIndex(stages: seq<Stage>, name: string) returns (r: Option<nat>)
    ensures r == FindStage(stages, name)
  {
    var k := 0;
    while k < |stages| && stages[k].stageName != name
      invariant k <= |stages|
      invariant forall j :: 0 <= j < k ==> stages[j].stageName != name
    {
      k := k + 1;
    }
    r := if k < |stages| then Some(k) else None;
  }

  /** The exit value (calculations.ts:299). */
  method FinalExitValuation(calculated: seq<CalculatedRound>) returns (exit: real)
    ensures exit == ExitValuation(calculated)
  {
    var k := 0;
    while k < |calculated| && !(calculated[k].input.name == ExitName && calculated[k].input.isEnabled)
      invariant k <= |calculated|
      invariant ExitValuation(calculated) == ExitValuation(calculated[k..])
    {
      assert calculated[k..][1..] == calculated[k + 1..];
      k := k + 1;
    }
    exit := if k < |calculated| then calculated[k].postMoneyValuation.GetOr(0.0) else 0.0;
  }

  /** The waterfall over the stages (calculations.ts:298-386). */
  method RunWaterfall(stages: seq<Stage>, calculated: seq<CalculatedRound>, rounds: seq<RoundInput>, lpEnabled: bool)
    returns (r: seq<Stage>)
    ensures r == ResolveStages(stages, calculated, rounds, lpEnabled)
  {
    r := stages;
    var exitIndex := FindStageIndex(r, ExitName);
    var exit := FinalExitValuation(calculated);
    if exitIndex.Some? && exit > 0.0 {
      var x := exitIndex.value;
      var resolved := ResolveExit(r[x].shares, rounds, lpEnabled, exit);
      r := r[x := Stage(r[x].stageName, resolved)];
      r := BackFillAll(r, resolved);
    } else if exitIndex.Some? {
      var x := exitIndex.value;
      var zeroed := ZeroExit(r[x].shares);
      r := r[x := Stage(r[x].stageName, zeroed)];
      r := ZeroBackFillAll(r, zeroed);
    }
  }

  // ---------------------------------------------------------------------
  // The whole engine

  /** `calculateAllRounds` (calculations.ts:43-389). */
  method CalculateAll(rounds: seq<RoundInput>, p: Settings)
    returns (calculated: seq<CalculatedRound>, stages: seq<Stage>)
    ensures CalculationResult(calculated, stages) == CalculateAllRounds(rounds, p)
  {
    calculated := [];
    var k := 0;
    while k < |rounds|
      invariant k <= |rounds| && calculated == InitialCalculated(rounds)[..k]
    {
      calculated := calculated + [CalculatedRound(rounds[k], rounds[k].dilutionPercent, None, None, None)];
      k := k + 1;
    }
    assert calculated == InitialCalculated(rounds);
    var safes: seq<ProcessedSafe> := [];
    k := 0;
    while k < |rounds|
      invariant k <= |rounds| && safes == SafeRecords(rounds, k)
    {
      if rounds[k].roundType.Safe? {
        safes := safes + [ProcessedSafe(k, rounds[k], false, None, None)];
      }
      k := k + 1;
    }
    var ownership := [NewShare(Founders, p.initialFounderOwnership, 0.0)];
    stages := [Stage(InitialStageName, ownership)];
    var st := PassState(ownership, safes, calculated, stages, 0.0);
    var i := 0;
    while i < |rounds|
      invariant i <= |rounds| && st == RunPass(rounds, p, i)
    {
      st := ProcessRound(st, rounds, i, p);
      i := i + 1;
    }
    calculated := st.calculated;
    stages := RunWaterfall(st.stages, st.calculated, rounds, p.liquidationPreferenceEnabled);
  }
}
