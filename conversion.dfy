/** SAFE conversion (src/lib/calculations.ts:160-225): which priced round
    triggers conversion, the valuation a SAFE converts at, its effective
    percentage, and the pass over the pending SAFEs that a triggering round
    makes. */
module Conversion {
  import opened Options
  import opened Types
  import opened Valuation
  import opened Ownership

  /** A cap counts when it is set and positive. */
  predicate CapApplies(cap: Option<real>) {
    cap.Some? && cap.value > 0.0
  }

  /** A discount counts when it is set and positive and the qualifying round
      has a positive pre-money. */
  predicate DiscountApplies(discount: Option<real>, qualifyingPreMoney: real) {
    discount.Some? && discount.value > 0.0 && qualifyingPreMoney > 0.0
  }

  function DiscountedPreMoney(discount: real, qualifyingPreMoney: real): real {
    qualifyingPreMoney * (1.0 - discount / 100.0)
  }

  /** The valuation a SAFE converts at: the lower of the terms that apply,
      starting from Infinity, here None (calculations.ts:167-176). */
  function ConversionValuation(cap: Option<real>, discount: Option<real>, qualifyingPreMoney: real): (r: Option<real>)
    ensures r.None? <==> !CapApplies(cap) && !DiscountApplies(discount, qualifyingPreMoney)
    ensures CapApplies(cap) ==> r.Some? && r.value <= cap.value
    ensures DiscountApplies(discount, qualifyingPreMoney) ==>
      r.Some? && r.value <= DiscountedPreMoney(discount.value, qualifyingPreMoney)
    ensures r.Some? ==>
      || (CapApplies(cap) && r.value == cap.value)
      || (DiscountApplies(discount, qualifyingPreMoney)
          && r.value == DiscountedPreMoney(discount.value, qualifyingPreMoney))
  {
    var byCap := if CapApplies(cap) then Some(cap.value) else None;
    if DiscountApplies(discount, qualifyingPreMoney) then
      var d := DiscountedPreMoney(discount.value, qualifyingPreMoney);
      Some(if byCap.Some? then Min(byCap.value, d) else d)
    else byCap
  }

  /** The percentage a SAFE converts into (calculations.ts:178-186): zero when
      no valid valuation applies or there is no positive investment, else the
      investment's share of valuation plus investment. */
  function EffectivePercent(investment: Option<real>, valuation: Option<real>): (eff: real)
    ensures 0.0 <= eff < 100.0
    ensures eff > 0.0 <==>
      valuation.Some? && valuation.value > 0.0 && investment.Some? && investment.value > 0.0
    ensures eff > 0.0 ==> eff * (valuation.value + investment.value) == investment.value * 100.0
  {
    if valuation.None? || valuation.value <= 0.0 then 0.0
    else if investment.None? || investment.value <= 0.0 then 0.0
    else
      var v := valuation.value;
      var i := investment.value;
      var eff := i / (v + i) * 100.0;
      assert eff * (v + i) == i * 100.0;
      eff
  }

  function SafeEffectivePercent(safe: RoundInput, qualifyingPreMoney: real): real {
    EffectivePercent(safe.roundSize, ConversionValuation(safe.valuationCap, safe.discountRate, qualifyingPreMoney))
  }

  /** The pre-money at which an enabled round triggers the conversion of the
      pending SAFEs; None when the round triggers nothing
      (calculations.ts:160-163). */
  function TriggerPreMoney(r: RoundInput): (q: Option<real>)
    ensures q.Some? <==>
      && r.isEnabled && r.roundType.Priced? && r.name != ExitName
      && r.dilutionPercent.Some? && r.roundSize.Some? && r.dilutionPercent.value != 0.0
    ensures q.Some? ==> (q.value + r.roundSize.value) * r.dilutionPercent.value == r.roundSize.value * 100.0
  {
    if r.isEnabled && r.roundType.Priced? && r.name != ExitName
       && r.dilutionPercent.Some? && r.roundSize.Some?
    then PreMoney(r.roundSize.value, r.dilutionPercent.value)
    else None
  }

  /** One SAFE's conversion into the live ownership list
      (calculations.ts:188-221). */
  function ConvertOne(s: seq<Share>, safe: RoundInput, qualifyingPreMoney: real): seq<Share> {
    ConvertSafe(s, SafeEffectivePercent(safe, qualifyingPreMoney), SafeInvestors(safe.name), safe.roundSize.GetOr(0.0))
  }

  /** Since the effective percentage is below 100, a conversion is either a
      plain dilution by it or, at zero, no change: the clamping branch of the
      source cannot be reached. */
  lemma ConvertOneIsDilution(s: seq<Share>, safe: RoundInput, qualifyingPreMoney: real)
    ensures var eff := SafeEffectivePercent(safe, qualifyingPreMoney);
      ConvertOne(s, safe, qualifyingPreMoney)
        == if eff > 0.0 then Dilute(s, eff, SafeInvestors(safe.name), safe.roundSize.GetOr(0.0)) else s
    ensures Evolves(s, ConvertOne(s, safe, qualifyingPreMoney))
  {
    var eff := SafeEffectivePercent(safe, qualifyingPreMoney);
    ConvertSafeEvolves(s, eff, SafeInvestors(safe.name), safe.roundSize.GetOr(0.0));
  }

  /** The cap binds when it is below the discounted pre-money: a $500,000 SAFE
      with a $6,000,000 cap and 20% discount, converting in a round priced at
      $40,000,000 pre-money, converts at the cap and takes 100/13 percent. */
  lemma CapBindsExample()
    ensures ConversionValuation(Some(6000000.0), Some(20.0), 40000000.0) == Some(6000000.0)
    ensures EffectivePercent(Some(500000.0), Some(6000000.0)) == 100.0 / 13.0
  {
    assert DiscountedPreMoney(20.0, 40000000.0) == 32000000.0;
  }

  // ---------------------------------------------------------------------
  // The pass over the pending SAFEs

  /** What the conversion pass changes: the live ownership list, the SAFE
      book-keeping and the calculated rounds (for the back-written dilution). */
  datatype ConversionState = ConversionState(
    ownership: seq<Share>,
    safes: seq<ProcessedSafe>,
    calculated: seq<CalculatedRound>)

  /** Every SAFE record points at a calculated round. */
  predicate Indexed(safes: seq<ProcessedSafe>, n: nat) {
    forall k :: 0 <= k < |safes| ==> safes[k].originalIndex < n
  }

  /** The records are in the order of their rounds. */
  predicate Ordered(safes: seq<ProcessedSafe>) {
    forall a, b :: 0 <= a < b < |safes| ==> safes[a].originalIndex < safes[b].originalIndex
  }

  /** A SAFE still waiting for conversion when the round at index `i` is
      processed (calculations.ts:165). */
  predicate Pending(safe: ProcessedSafe, rounds: seq<RoundInput>, i: nat) {
    && !safe.converted
    && safe.originalIndex < |rounds|
    && rounds[safe.originalIndex].isEnabled
    && safe.originalIndex < i
  }

  /** The record of a converted SAFE (calculations.ts:222-223). */
  function Converted(safe: ProcessedSafe, eff: real, stageName: string): ProcessedSafe {
    safe.(converted := true, effectiveDilutionPercent := Some(eff), conversionStageName := Some(stageName))
  }

  /** The pass's handling of the SAFE at position `k`. */
  function ConversionStep(st: ConversionState, rounds: seq<RoundInput>, i: nat, q: real, stageName: string, k: nat): (r: ConversionState)
    requires k < |st.safes| && Indexed(st.safes, |st.calculated|)
    ensures |r.safes| == |st.safes| && |r.calculated| == |st.calculated|
    ensures forall j :: 0 <= j < |st.safes| ==>
      r.safes[j].originalIndex == st.safes[j].originalIndex && r.safes[j].details == st.safes[j].details
    ensures forall j :: 0 <= j < |st.calculated| ==>
      r.calculated[j] == st.calculated[j].(dilutionPercent := r.calculated[j].dilutionPercent)
  {
    var safe := st.safes[k];
    if Pending(safe, rounds, i) then
      var eff := SafeEffectivePercent(safe.details, q);
      var entry := st.calculated[safe.originalIndex];
      ConversionState(
        ConvertOne(st.ownership, safe.details, q),
        st.safes[k := Converted(safe, eff, stageName)],
        st.calculated[safe.originalIndex := entry.(dilutionPercent := Some(eff))])
    else st
  }

  /** The one calculated round a step may change is its SAFE's. */
  lemma ConversionStepCalculated(st: ConversionState, rounds: seq<RoundInput>, i: nat, q: real, stageName: string, k: nat, n: nat)
    requires k < |st.safes| && Indexed(st.safes, |st.calculated|) && n < |st.calculated|
    ensures ConversionStep(st, rounds, i, q, stageName, k).calculated[n]
      == if n == st.safes[k].originalIndex && Pending(st.safes[k], rounds, i)
         then st.calculated[n].(dilutionPercent := Some(SafeEffectivePercent(st.safes[k].details, q)))
         else st.calculated[n]
  {
  }

  /** The pass over the first `k` SAFE records, in order. */
  function ConvertFirst(st: ConversionState, rounds: seq<RoundInput>, i: nat, q: real, stageName: string, k: nat): (r: ConversionState)
    requires k <= |st.safes| && Indexed(st.safes, |st.calculated|)
    ensures |r.safes| == |st.safes| && |r.calculated| == |st.calculated|
    ensures forall j :: 0 <= j < |st.safes| ==>
      r.safes[j].originalIndex == st.safes[j].originalIndex && r.safes[j].details == st.safes[j].details
    ensures forall j :: 0 <= j < |st.calculated| ==>
      r.calculated[j] == st.calculated[j].(dilutionPercent := r.calculated[j].dilutionPercent)
    ensures Indexed(r.safes, |r.calculated|)
    decreases k
  {
    if k == 0 then st
    else ConversionStep(ConvertFirst(st, rounds, i, q, stageName, k - 1), rounds, i, q, stageName, k - 1)
  }

  /** The whole pass. */
  function ConvertPending(st: ConversionState, rounds: seq<RoundInput>, i: nat, q: real, stageName: string): ConversionState
    requires Indexed(st.safes, |st.calculated|)
  {
    ConvertFirst(st, rounds, i, q, stageName, |st.safes|)
  }

  /** After the pass over the first `k` records, each of them that was
      pending has converted, at the effective percentage for this round and
      with this round's name; the others are untouched. */
  lemma {:induction false} ConvertFirstSafes(st: ConversionState, rounds: seq<RoundInput>, i: nat, q: real, stageName: string, k: nat)
    requires k <= |st.safes| && Indexed(st.safes, |st.calculated|)
    ensures var r := ConvertFirst(st, rounds, i, q, stageName, k);
      forall j :: 0 <= j < |st.safes| ==>
        r.safes[j] == if j < k && Pending(st.safes[j], rounds, i)
                      then Converted(st.safes[j], SafeEffectivePercent(st.safes[j].details, q), stageName)
                      else st.safes[j]
  {
    if k > 0 {
      ConvertFirstSafes(st, rounds, i, q, stageName, k - 1);
    }
  }

  /** The same, for one record. */
  lemma ConvertFirstSafeAt(st: ConversionState, rounds: seq<RoundInput>, i: nat, q: real, stageName: string, k: nat, j: nat)
    requires k <= |st.safes| && Indexed(st.safes, |st.calculated|) && j < |st.safes|
    ensures ConvertFirst(st, rounds, i, q, stageName, k).safes[j]
      == if j < k && Pending(st.safes[j], rounds, i)
         then Converted(st.safes[j], SafeEffectivePercent(st.safes[j].details, q), stageName)
         else st.safes[j]
  {
    ConvertFirstSafes(st, rounds, i, q, stageName, k);
  }

  /** What the pass over the first `k` records has done to the calculated
      round of record `j`. */
  function ExpectedEntry(st: ConversionState, rounds: seq<RoundInput>, i: nat, q: real, k: nat, j: nat): CalculatedRound
    requires j < |st.safes| && Indexed(st.safes, |st.calculated|)
  {
    var entry := st.calculated[st.safes[j].originalIndex];
    if j < k && Pending(st.safes[j], rounds, i)
    then entry.(dilutionPercent := Some(SafeEffectivePercent(st.safes[j].details, q)))
    else entry
  }

  /** The calculated round of each SAFE the pass converts reports its
      effective percentage; the others are untouched. */
  lemma {:induction false} ConvertFirstCalculated(st: ConversionState, rounds: seq<RoundInput>, i: nat, q: real, stageName: string, k: nat, j: nat)
    requires k <= |st.safes| && Indexed(st.safes, |st.calculated|) && j < |st.safes|
    requires Ordered(st.safes)
    ensures ConvertFirst(st, rounds, i, q, stageName, k).calculated[st.safes[j].originalIndex]
      == ExpectedEntry(st, rounds, i, q, k, j)
  {
    if k == 0 {
      assert ConvertFirst(st, rounds, i, q, stageName, k) == st;
    } else {
      var m: nat :| m + 1 == k;
      ConvertFirstCalculated(st, rounds, i, q, stageName, m, j);
      ConvertFirstCalculatedStep(st, rounds, i, q, stageName, m, j);
    }
  }

  lemma ConvertFirstCalculatedStep(st: ConversionState, rounds: seq<RoundInput>, i: nat, q: real, stageName: string, m: nat, j: nat)
    requires m < |st.safes| && Indexed(st.safes, |st.calculated|) && j < |st.safes|
    requires Ordered(st.safes)
    requires ConvertFirst(st, rounds, i, q, stageName, m).calculated[st.safes[j].originalIndex]
      == ExpectedEntry(st, rounds, i, q, m, j)
    ensures ConvertFirst(st, rounds, i, q, stageName, m + 1).calculated[st.safes[j].originalIndex]
      == ExpectedEntry(st, rounds, i, q, m + 1, j)
  {
    var prev := ConvertFirst(st, rounds, i, q, stageName, m);
    var n := st.safes[j].originalIndex;
    ConvertFirstSafeAt(st, rounds, i, q, stageName, m, m);
    ConversionStepCalculated(prev, rounds, i, q, stageName, m, n);
    if j != m {
      if j < m {
        assert n < st.safes[m].originalIndex;
      } else {
        assert n > st.safes[m].originalIndex;
      }
    }
  }

  /** A calculated round that is not a SAFE's is untouched by the pass. */
  lemma {:induction false} ConvertFirstOthers(st: ConversionState, rounds: seq<RoundInput>, i: nat, q: real, stageName: string, k: nat, n: nat)
    requires k <= |st.safes| && Indexed(st.safes, |st.calculated|) && n < |st.calculated|
    requires forall j :: 0 <= j < |st.safes| ==> st.safes[j].originalIndex != n
    ensures ConvertFirst(st, rounds, i, q, stageName, k).calculated[n] == st.calculated[n]
  {
    if k > 0 {
      ConvertFirstOthers(st, rounds, i, q, stageName, k - 1, n);
      ConversionStepCalculated(ConvertFirst(st, rounds, i, q, stageName, k - 1), rounds, i, q, stageName, k - 1, n);
    }
  }

  /** The pass only ever dilutes the live list by SAFE holders, so it keeps it
      well formed and a total of 100 at 100. */
  lemma {:induction false} ConvertFirstEvolves(st: ConversionState, rounds: seq<RoundInput>, i: nat, q: real, stageName: string, k: nat)
    requires k <= |st.safes| && Indexed(st.safes, |st.calculated|)
    ensures Evolves(st.ownership, ConvertFirst(st, rounds, i, q, stageName, k).ownership)
  {
    if k > 0 {
      var prev := ConvertFirst(st, rounds, i, q, stageName, k - 1);
      ConvertFirstEvolves(st, rounds, i, q, stageName, k - 1);
      var safe := prev.safes[k - 1];
      if Pending(safe, rounds, i) {
        ConvertOneIsDilution(prev.ownership, safe.details, q);
      }
      EvolvesTransitive(st.ownership, prev.ownership, ConvertFirst(st, rounds, i, q, stageName, k).ownership);
    }
  }
}
