/** The round valuation helpers (src/lib/calculations.ts:3-21): pre-money from
    a round size and the percentage given up, post-money, and the revenue a
    valuation multiple calls for. "Not applicable" is None. */
module Valuation {
  import opened Options

  /** `calculatePreMoney`. The new money buys exactly `dilutionPercent` percent
      of the post-money valuation; with no dilution there is no price. */
  function PreMoney(roundSize: real, dilutionPercent: real): (r: Option<real>)
    ensures r.None? <==> dilutionPercent == 0.0
    ensures r.Some? ==> (r.value + roundSize) * dilutionPercent == roundSize * 100.0
  {
    if dilutionPercent == 0.0 then None
    else if roundSize == 0.0 then Some(0.0)
    else
      var post := roundSize / (dilutionPercent / 100.0);
      assert post * dilutionPercent == roundSize * 100.0;
      Some(post - roundSize)
  }

  /** `calculatePostMoney`: the new money added on top of the pre-money. */
  function PostMoney(preMoney: Option<real>, roundSize: real): (r: Option<real>)
    ensures r.None? <==> preMoney.None?
    ensures r.Some? ==> r.value - roundSize == preMoney.value
  {
    match preMoney
    case None => None
    case Some(pre) => Some(pre + roundSize)
  }

  /** `calculateRequiredARR`: the revenue that, at the given multiple, is worth
      the post-money valuation. */
  function RequiredARR(postMoney: Option<real>, multiple: Option<real>): (r: Option<real>)
    ensures r.None? <==> (postMoney.None? || multiple.None? || multiple.value == 0.0)
    ensures r.Some? ==> r.value * multiple.value == postMoney.value
  {
    if postMoney.None? || multiple.None? || multiple.value == 0.0 then None
    else Some(postMoney.value / multiple.value)
  }

  /** A round of any size priced at zero dilution has no pre-money, a round
      of size zero is worth zero, and a positive dilution fixes the
      pre-money uniquely. */
  lemma PreMoneyDegenerateCases(roundSize: real, dilutionPercent: real)
    ensures PreMoney(roundSize, 0.0) == None
    ensures dilutionPercent != 0.0 ==> PreMoney(0.0, dilutionPercent) == Some(0.0)
    ensures dilutionPercent != 0.0 ==>
      PreMoney(roundSize, dilutionPercent).value == roundSize * 100.0 / dilutionPercent - roundSize
  {
    if dilutionPercent != 0.0 {
      var r := PreMoney(roundSize, dilutionPercent).value;
      assert (r + roundSize) * dilutionPercent == roundSize * 100.0;
      assert r + roundSize == roundSize * 100.0 / dilutionPercent;
    }
  }

  /** Round trip: pricing a round from its dilution and reading back the share
      of post-money that the new money bought gives the dilution again. */
  lemma DilutionRoundTrip(roundSize: real, dilutionPercent: real)
    requires roundSize != 0.0 && dilutionPercent != 0.0
    ensures PostMoney(PreMoney(roundSize, dilutionPercent), roundSize).Some?
    ensures var post := PostMoney(PreMoney(roundSize, dilutionPercent), roundSize).value;
      post != 0.0 && roundSize / post * 100.0 == dilutionPercent
  {
    var pre := PreMoney(roundSize, dilutionPercent).value;
    var post := PostMoney(PreMoney(roundSize, dilutionPercent), roundSize).value;
    assert post * dilutionPercent == roundSize * 100.0;
    assert post != 0.0;
  }

  /** The values the repository's own script expects (test-calculations.js). */
  lemma HelperExamples()
    ensures PreMoney(1000000.0, 20.0) == Some(4000000.0)
    ensures PreMoney(1000000.0, 0.0) == None
    ensures PreMoney(0.0, 20.0) == Some(0.0)
    ensures PostMoney(Some(4000000.0), 1000000.0) == Some(5000000.0)
    ensures PostMoney(None, 1000000.0) == None
  {
  }
}
