/** The valuation figures the engine reports for each round and the running
    post-money valuation it carries from round to round
    (src/lib/calculations.ts:85-103, 230-295). */
module Rounds {
  import opened Options
  import opened Types
  import opened Valuation

  /** Pre-money, post-money and required ARR of one calculated round. */
  datatype Figures = Figures(preMoney: Option<real>, postMoney: Option<real>, requiredARR: Option<real>)

  const NoFigures := Figures(None, None, None)

  /** A round whose dilution lies strictly between 0 and 100 and that has a
      size is priced from them. */
  predicate PricedByDilution(r: RoundInput) {
    r.dilutionPercent.Some? && r.roundSize.Some? && 0.0 < r.dilutionPercent.value < 100.0
  }

  /** The figures of a disabled round (calculations.ts:85-103): none, except
      that a disabled Exit with a size reports it as post-money; its
      pre-money is computed after the running valuation has been overwritten
      with that same size and so is always zero. */
  function DisabledFigures(r: RoundInput): (f: Figures)
    ensures r.name != ExitName || r.roundSize.None? ==> f == NoFigures
    ensures r.name == ExitName && r.roundSize.Some? ==>
      f.postMoney == r.roundSize && f.preMoney == Some(0.0) && f.requiredARR.None?
  {
    if r.name == ExitName && r.roundSize.Some? then
      var lastPost := r.roundSize.value;
      Figures(Some(lastPost - r.roundSize.value), Some(r.roundSize.value), None)
    else NoFigures
  }

  /** The figures of an enabled round, given the running post-money
      valuation (calculations.ts:230-279). */
  function EnabledFigures(r: RoundInput, lastPost: real): (f: Figures)
    ensures r.roundType.Safe? ==> f == NoFigures
    ensures f.requiredARR.Some? ==>
      f.postMoney.Some? && r.arrMultiple.Some? && r.arrMultiple.value != 0.0
      && f.requiredARR.value * r.arrMultiple.value == f.postMoney.value
  {
    if r.roundType.Safe? then NoFigures
    else if r.name == ExitName then
      var post := r.roundSize.GetOr(0.0);
      // `if (arrMultiple && …)`: a multiple of zero is falsy, and
      // RequiredARR is None for it anyway.
      Figures(Some(lastPost), Some(post), RequiredARR(Some(post), r.arrMultiple))
    else if PricedByDilution(r) then
      var pre := PreMoney(r.roundSize.value, r.dilutionPercent.value);
      var post := PostMoney(pre, r.roundSize.value);
      Figures(pre, post, RequiredARR(post, r.arrMultiple))
    else if r.arrMultiple.Some? && r.roundSize.Some? then
      var size := r.roundSize.value;
      var post := lastPost + (if size > 0.0 then size else 0.0);
      Figures(Some(post - size), Some(post), RequiredARR(Some(post), r.arrMultiple))
    else NoFigures
  }

  /** The running post-money valuation after a round
      (calculations.ts:96-97, 293-295): an enabled round other than Exit
      with a post-money sets it; a disabled Exit with a size sets it to that
      size; everything else leaves it. */
  function NextLastPost(r: RoundInput, lastPost: real): real {
    if r.isEnabled then
      var f := EnabledFigures(r, lastPost);
      if f.postMoney.Some? && r.name != ExitName then f.postMoney.value else lastPost
    else if r.name == ExitName && r.roundSize.Some? then r.roundSize.value
    else lastPost
  }

  /** The running valuation before the round at index `n`. */
  function LastPostBefore(rounds: seq<RoundInput>, n: nat): real
    requires n <= |rounds|
  {
    if n == 0 then 0.0 else NextLastPost(rounds[n - 1], LastPostBefore(rounds, n - 1))
  }

  /** A round snapshots the ownership when it is enabled or is a disabled
      Exit (calculations.ts:90-95, 288-291). */
  predicate EmitsStage(r: RoundInput) {
    r.isEnabled || r.name == ExitName
  }

  /** The names of the stages the first `n` rounds emit, in order. */
  function EmittedNames(rounds: seq<RoundInput>, n: nat): (names: seq<string>)
    requires n <= |rounds|
    ensures |names| <= n
  {
    if n == 0 then []
    else EmittedNames(rounds, n - 1) + (if EmitsStage(rounds[n - 1]) then [rounds[n - 1].name] else [])
  }

  // ---------------------------------------------------------------------
  // What the figures mean

  /** A round priced from its dilution: post-money is pre-money plus the
      round, and the round buys exactly `dilutionPercent` of post-money. */
  lemma PricedFigures(r: RoundInput, lastPost: real)
    requires r.roundType.Priced? && r.name != ExitName && PricedByDilution(r)
    ensures var f := EnabledFigures(r, lastPost);
      && f.preMoney.Some? && f.postMoney.Some?
      && f.postMoney.value == f.preMoney.value + r.roundSize.value
      && f.postMoney.value * r.dilutionPercent.value == r.roundSize.value * 100.0
      && (f.requiredARR.Some? <==> r.arrMultiple.Some? && r.arrMultiple.value != 0.0)
  {
    var pre := PreMoney(r.roundSize.value, r.dilutionPercent.value);
    assert (pre.value + r.roundSize.value) * r.dilutionPercent.value == r.roundSize.value * 100.0;
  }

  /** A priced round that cannot be priced from its dilution but has a size
      and a multiple grows the running valuation by the round (a negative
      round adds nothing), and pre-money is post-money less the round. */
  lemma FallbackFigures(r: RoundInput, lastPost: real)
    requires r.roundType.Priced? && r.name != ExitName && !PricedByDilution(r)
    ensures var f := EnabledFigures(r, lastPost);
      (r.arrMultiple.Some? && r.roundSize.Some? ==>
         && f.preMoney.Some? && f.postMoney.Some?
         && f.postMoney.value - f.preMoney.value == r.roundSize.value
         && f.postMoney.value >= lastPost
         && (r.roundSize.value > 0.0 ==> f.postMoney.value == lastPost + r.roundSize.value))
      && (r.arrMultiple.None? || r.roundSize.None? ==> f == NoFigures)
  {
  }

  /** An enabled Exit starts from the running valuation and is worth its
      size (zero when it has none). */
  lemma ExitFigures(r: RoundInput, lastPost: real)
    requires r.roundType.Priced? && r.name == ExitName
    ensures var f := EnabledFigures(r, lastPost);
      f.preMoney == Some(lastPost) && f.postMoney == Some(r.roundSize.GetOr(0.0))
      && (f.requiredARR.Some? <==> r.arrMultiple.Some? && r.arrMultiple.value != 0.0)
  {
  }

  /** An enabled Exit, an enabled SAFE, or a disabled round other than Exit. */
  predicate KeepsLastPost(r: RoundInput) {
    if r.isEnabled then r.name == ExitName || r.roundType.Safe? else r.name != ExitName
  }

  /** The running valuation is never taken from an enabled Exit, nor moved
      by a SAFE or a disabled round other than Exit. */
  lemma LastPostUntouched(r: RoundInput, lastPost: real)
    requires KeepsLastPost(r)
    ensures NextLastPost(r, lastPost) == lastPost
  {
  }

  /** The running valuation is taken from every enabled round that reports a
      post-money, other than Exit. */
  lemma LastPostTaken(r: RoundInput, lastPost: real)
    requires r.isEnabled && r.name != ExitName && EnabledFigures(r, lastPost).postMoney.Some?
    ensures NextLastPost(r, lastPost) == EnabledFigures(r, lastPost).postMoney.value
    ensures PricedByDilution(r) && r.roundType.Priced? ==>
      NextLastPost(r, lastPost) * r.dilutionPercent.value == r.roundSize.value * 100.0
  {
    if PricedByDilution(r) && r.roundType.Priced? {
      PricedFigures(r, lastPost);
    }
  }

  /** The running valuation set by the round at index `a` is carried
      unchanged across later rounds that keep it; so an Exit reached only
      through such rounds starts from that round's post-money. */
  lemma {:induction false} LastPostCarries(rounds: seq<RoundInput>, a: nat, n: nat)
    requires a < n <= |rounds|
    requires forall k :: a < k < n ==> KeepsLastPost(rounds[k])
    ensures LastPostBefore(rounds, n) == LastPostBefore(rounds, a + 1)
    decreases n
  {
    if n > a + 1 {
      LastPostCarries(rounds, a, n - 1);
      LastPostUntouched(rounds[n - 1], LastPostBefore(rounds, n - 1));
    }
  }

  /** A worked example: a $1,000,000 round for 20 percent at a 10x ARR
      multiple is priced at $4,000,000 pre-money and needs $500,000 ARR. */
  lemma FiguresExample()
    ensures EnabledFigures(RoundInput("Seed", Some(1000000.0), Some(20.0), Some(10.0), true, Priced,
                                      None, None, None, None, None), 0.0)
      == Figures(Some(4000000.0), Some(5000000.0), Some(500000.0))
  {
    assert PreMoney(1000000.0, 20.0) == Some(4000000.0);
  }
}
