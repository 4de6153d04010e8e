/** The exit waterfall of `calculateAllRounds` (src/lib/calculations.ts:298-385):
    each holder of the Exit snapshot claims its liquidation preference or its
    common share, the claims are prorated when they exceed the exit value, the
    resulting values and return multiples are copied back to every earlier
    snapshot, and without a positive exit value everything is zeroed. */
module Waterfall {
  import opened Options
  import opened Types
  import opened Ownership

  // ---------------------------------------------------------------------
  // Liquidation terms

  /** The preference type (none means plain common) and multiple a holder
      claims under. */
  datatype Terms = Terms(lpType: Option<LpType>, multiple: real)

  /** `rounds.find(r => r.name === name)`: the first round with that name. */
  function FindRound(rounds: seq<RoundInput>, name: string): (r: Option<nat>)
    ensures r.Some? ==> r.value < |rounds| && rounds[r.value].name == name
    ensures r.Some? ==> forall k :: 0 <= k < r.value ==> rounds[k].name != name
    ensures r.None? ==> forall k :: 0 <= k < |rounds| ==> rounds[k].name != name
  {
    if rounds == [] then None
    else if rounds[0].name == name then Some(0)
    else match FindRound(rounds[1..], name)
      case None => None
      case Some(k) => Some(k + 1)
  }

  /** The preference type a holder falls back to: non-participating when
      preferences are switched on globally, else none. */
  function DefaultLpType(lpEnabled: bool): Option<LpType> {
    if lpEnabled then Some(NonParticipating) else None
  }

  /** The terms of a holder (calculations.ts:304-318): Founders and ESOP hold
      common; an investor group takes the terms of the first round whose
      name is its own without the investor suffix, each unset term replaced
      by the default; a group with no such round takes the defaults. */
  function LpTerms(h: Holder, rounds: seq<RoundInput>, lpEnabled: bool): Terms {
    if h.Founders? || h.Esop? then Terms(None, 1.0)
    else match FindRound(rounds, StripInvestorSuffix(ShareName(h)))
      case Some(k) =>
        Terms(if rounds[k].lpType.Some? then rounds[k].lpType else DefaultLpType(lpEnabled),
              rounds[k].lpMultiple.GetOr(1.0))
      case None => Terms(DefaultLpType(lpEnabled), 1.0)
  }

  /** The investor group of a round takes that round's terms. */
  lemma InvestorTerms(rounds: seq<RoundInput>, k: nat, lpEnabled: bool)
    requires k < |rounds| && forall j :: 0 <= j < k ==> rounds[j].name != rounds[k].name
    ensures var t := LpTerms(Investors(rounds[k].name), rounds, lpEnabled);
      && t.multiple == rounds[k].lpMultiple.GetOr(1.0)
      && t.lpType == (if rounds[k].lpType.Some? then rounds[k].lpType else DefaultLpType(lpEnabled))
    ensures LpTerms(SafeInvestors(rounds[k].name), rounds, lpEnabled)
      == LpTerms(Investors(rounds[k].name), rounds, lpEnabled)
  {
    StripInvestorSuffixOfShareName(Investors(rounds[k].name));
    StripInvestorSuffixOfShareName(SafeInvestors(rounds[k].name));
    var r := FindRound(rounds, rounds[k].name);
    assert r.Some? && r.value == k;
  }

  // ---------------------------------------------------------------------
  // Claims

  /** A holder's provisional payout (calculations.ts:320-333): its invested
      amount times the preference multiple, its percentage of the exit value,
      the larger of the two for a non-participating preference, their sum for
      a participating one, and the common share alone without a
      preference. */
  function Claim(s: Share, t: Terms, exit: real): real {
    var preference := s.investedAmount * t.multiple;
    var common := s.percentage / 100.0 * exit;
    match t.lpType
    case Some(NonParticipating) => Max(preference, common)
    case Some(Participating) => preference + common
    case None => common
  }

  /** What each kind of holder claims. */
  lemma ClaimFacts(s: Share, t: Terms, exit: real)
    ensures var c := Claim(s, t, exit);
      var preference := s.investedAmount * t.multiple;
      var common := s.percentage / 100.0 * exit;
      && (t.lpType == Some(NonParticipating) ==>
            c >= preference && c >= common && (c == preference || c == common))
      && (t.lpType == Some(Participating) ==> c - common == preference)
      && (t.lpType.None? ==> c == common)
  {
  }

  /** Founders and ESOP claim their percentage of the exit value and
      nothing more, whatever the preference settings. */
  lemma CommonHoldersClaim(s: Share, rounds: seq<RoundInput>, lpEnabled: bool, exit: real)
    requires s.holder.Founders? || s.holder.Esop?
    ensures Claim(s, LpTerms(s.holder, rounds, lpEnabled), exit) == s.percentage / 100.0 * exit
  {
  }

  /** The claim of every share of the Exit snapshot. */
  function Claims(s: seq<Share>, rounds: seq<RoundInput>, lpEnabled: bool, exit: real): (c: seq<real>)
    ensures |c| == |s|
  {
    seq(|s|, k requires 0 <= k < |s| => Claim(s[k], LpTerms(s[k].holder, rounds, lpEnabled), exit))
  }

  function Sum(xs: seq<real>): real {
    if xs == [] then 0.0 else xs[0] + Sum(xs[1..])
  }

  lemma {:induction false} SumAppend(xs: seq<real>, x: real)
    ensures Sum(xs + [x]) == Sum(xs) + x
  {
    if xs != [] {
      assert (xs + [x])[1..] == xs[1..] + [x];
      SumAppend(xs[1..], x);
    }
  }

  // ---------------------------------------------------------------------
  // Payouts

  /** A holder's value at exit (calculations.ts:337-349): its claim, scaled
      by exit / total when the claims exceed the exit value; nothing when
      there is nothing to pay or nothing claimed. */
  function Payout(claim: real, total: real, exit: real): real {
    if total > 0.0 && exit > 0.0 then
      if total > exit then claim / total * exit else claim
    else 0.0
  }

  /** The payouts of all claims at the given total. */
  function Payouts(c: seq<real>, total: real, exit: real): (r: seq<real>)
    ensures |r| == |c|
  {
    seq(|c|, k requires 0 <= k < |c| => Payout(c[k], total, exit))
  }

  lemma DivDistributes(a: real, b: real, t: real, e: real)
    requires t != 0.0
    ensures a / t * e + b / t * e == (a + b) / t * e
  {
  }

  /** The sum of the payouts against any positive total: the claims scaled
      by exit / total when the total exceeds the exit value, else the claims
      themselves. */
  lemma {:induction false} SumPayouts(c: seq<real>, total: real, exit: real)
    requires total > 0.0 && exit > 0.0
    ensures Sum(Payouts(c, total, exit)) == if total > exit then Sum(c) / total * exit else Sum(c)
  {
    if c != [] {
      assert Payouts(c, total, exit)[1..] == Payouts(c[1..], total, exit);
      SumPayouts(c[1..], total, exit);
      if total > exit {
        DivDistributes(c[0], Sum(c[1..]), total, exit);
      }
    }
  }

  /** The waterfall pays out exactly the smaller of the total claim and the
      exit value: claims above the exit value are prorated down to it, and
      claims below it are paid in full. */
  lemma PayoutsTotal(c: seq<real>, exit: real)
    requires exit > 0.0 && Sum(c) > 0.0
    ensures Sum(Payouts(c, Sum(c), exit)) == Min(Sum(c), exit)
  {
    SumPayouts(c, Sum(c), exit);
  }

  /** Proration keeps the order of the claims, scales every claim by the
      same factor, so never pays a non-negative claim more than it claims; a
      total within the exit value pays every claim in full. */
  lemma PayoutOrder(c1: real, c2: real, total: real, exit: real)
    requires total > 0.0 && exit > 0.0
    ensures c1 <= c2 ==> Payout(c1, total, exit) <= Payout(c2, total, exit)
    ensures c1 >= 0.0 ==> 0.0 <= Payout(c1, total, exit) <= c1
    ensures total <= exit ==> Payout(c1, total, exit) == c1
  {
    if total > exit {
      ProrationFactor(total, exit);
      assert Payout(c1, total, exit) == c1 * (exit / total);
      assert Payout(c2, total, exit) == c2 * (exit / total);
    }
  }

  lemma ProrationFactor(total: real, exit: real)
    requires total > exit > 0.0
    ensures 0.0 < exit / total < 1.0
  {
    var f := exit / total;
    assert f * total == exit;
    if f >= 1.0 {
      assert false;
    }
  }

  // ---------------------------------------------------------------------
  // Return multiples

  /** A holder's return multiple (calculations.ts:351-357): value over
      invested when it invested something, Infinity when it invested nothing
      and receives something, else 0. */
  function MultipleOf(value: real, invested: real): (m: ReturnMultiple)
    ensures invested > 0.0 ==> m.Finite? && m.multiple * invested == value
    ensures m.Infinite? <==> invested == 0.0 && value > 0.0
    ensures !(invested > 0.0) && !(invested == 0.0 && value > 0.0) ==> m == Finite(0.0)
  {
    if invested > 0.0 then Finite(value / invested)
    else if invested == 0.0 && value > 0.0 then Infinite
    else Finite(0.0)
  }

  /** A share with its value at exit and return multiple set. */
  function Resolve(s: Share, value: real): (r: Share)
    ensures r.holder == s.holder && r.percentage == s.percentage && r.investedAmount == s.investedAmount
    ensures r.valueAtExit == value && r.returnMultiple == MultipleOf(value, s.investedAmount)
  {
    s.(valueAtExit := value, returnMultiple := MultipleOf(value, s.investedAmount))
  }

  /** The Exit snapshot after the waterfall (calculations.ts:302-358). */
  function ResolveExitShares(s: seq<Share>, rounds: seq<RoundInput>, lpEnabled: bool, exit: real): (r: seq<Share>)
    ensures |r| == |s|
  {
    var c := Claims(s, rounds, lpEnabled, exit);
    var total := Sum(c);
    seq(|s|, k requires 0 <= k < |s| => Resolve(s[k], Payout(c[k], total, exit)))
  }

  function Values(s: seq<Share>): (v: seq<real>)
    ensures |v| == |s|
  {
    seq(|s|, k requires 0 <= k < |s| => s[k].valueAtExit)
  }

  /** The waterfall keeps every holder, percentage and invested amount of the
      Exit snapshot, pays each holder its prorated claim, and in all pays out
      the smaller of the total claim and the exit value (nothing when nothing
      is claimed). */
  lemma ResolveExitSharesFacts(s: seq<Share>, rounds: seq<RoundInput>, lpEnabled: bool, exit: real)
    requires exit > 0.0
    ensures var r := ResolveExitShares(s, rounds, lpEnabled, exit);
      var c := Claims(s, rounds, lpEnabled, exit);
      && Holders(r) == Holders(s) && Percentages(r) == Percentages(s)
      && (forall k :: 0 <= k < |s| ==> r[k].investedAmount == s[k].investedAmount)
      && Values(r) == Payouts(c, Sum(c), exit)
      && Sum(Values(r)) == if Sum(c) > 0.0 then Min(Sum(c), exit) else 0.0
  {
    var r := ResolveExitShares(s, rounds, lpEnabled, exit);
    var c := Claims(s, rounds, lpEnabled, exit);
    assert Values(r) == Payouts(c, Sum(c), exit);
    if Sum(c) > 0.0 {
      PayoutsTotal(c, exit);
    } else {
      ZeroSum(Values(r));
    }
  }

  lemma {:induction false} ZeroSum(v: seq<real>)
    requires forall k :: 0 <= k < |v| ==> v[k] == 0.0
    ensures Sum(v) == 0.0
  {
    if v != [] {
      ZeroSum(v[1..]);
    }
  }

  // ---------------------------------------------------------------------
  // Copying the outcome back

  /** A share of an earlier snapshot takes the value, invested amount and
      multiple of the same holder's first share in the Exit snapshot, if
      there is one (calculations.ts:360-372). */
  function BackFillShare(s: Share, exitShares: seq<Share>): Share {
    match Find(exitShares, s.holder)
    case Some(k) =>
      s.(valueAtExit := exitShares[k].valueAtExit, investedAmount := exitShares[k].investedAmount,
         returnMultiple := exitShares[k].returnMultiple)
    case None => s
  }

  function BackFill(s: seq<Share>, exitShares: seq<Share>): (r: seq<Share>)
    ensures |r| == |s|
  {
    seq(|s|, k requires 0 <= k < |s| => BackFillShare(s[k], exitShares))
  }

  /** Every stage not named Exit is back-filled from the Exit shares;
      stages named Exit are left as they are. */
  function BackFillStages(stages: seq<Stage>, exitShares: seq<Share>): (r: seq<Stage>)
    ensures |r| == |stages|
  {
    seq(|stages|, k requires 0 <= k < |stages| =>
      if stages[k].stageName == ExitName then stages[k]
      else Stage(stages[k].stageName, BackFill(stages[k].shares, exitShares)))
  }

  /** The zero outcome of an Exit share (calculations.ts:376-379): no value,
      and a multiple of 0 for a holder who invested, none for the others. */
  function ZeroExitShare(s: Share): Share {
    s.(valueAtExit := 0.0, returnMultiple := if s.investedAmount > 0.0 then Finite(0.0) else Unset)
  }

  function ZeroExitShares(s: seq<Share>): (r: seq<Share>)
    ensures |r| == |s|
  {
    seq(|s|, k requires 0 <= k < |s| => ZeroExitShare(s[k]))
  }

  /** The zero outcome of a share of another stage (calculations.ts:380-385):
      no value, the invested amount of the same holder's Exit share if there
      is one, and that share's multiple (none if there is no such share). */
  function ZeroBackFillShare(s: Share, exitShares: seq<Share>): Share {
    match Find(exitShares, s.holder)
    case Some(k) =>
      s.(valueAtExit := 0.0, investedAmount := exitShares[k].investedAmount,
         returnMultiple := exitShares[k].returnMultiple)
    case None => s.(valueAtExit := 0.0, returnMultiple := Unset)
  }

  function ZeroBackFill(s: seq<Share>, exitShares: seq<Share>): (r: seq<Share>)
    ensures |r| == |s|
  {
    seq(|s|, k requires 0 <= k < |s| => ZeroBackFillShare(s[k], exitShares))
  }

  function ZeroBackFillStages(stages: seq<Stage>, exitShares: seq<Share>): (r: seq<Stage>)
    ensures |r| == |stages|
  {
    seq(|stages|, k requires 0 <= k < |stages| =>
      if stages[k].stageName == ExitName then stages[k]
      else Stage(stages[k].stageName, ZeroBackFill(stages[k].shares, exitShares)))
  }

  // ---------------------------------------------------------------------
  // The whole waterfall

  /** `findIndex` of the first stage named `name`. */
  function FindStage(stages: seq<Stage>, name: string): (r: Option<nat>)
    ensures r.Some? ==> r.value < |stages| && stages[r.value].stageName == name
    ensures r.Some? ==> forall k :: 0 <= k < r.value ==> stages[k].stageName != name
    ensures r.None? ==> forall k :: 0 <= k < |stages| ==> stages[k].stageName != name
  {
    if stages == [] then None
    else if stages[0].stageName == name then Some(0)
    else match FindStage(stages[1..], name)
      case None => None
      case Some(k) => Some(k + 1)
  }

  /** The exit value (calculations.ts:299): the post-money of the first
      calculated round named Exit that is enabled, 0 if it has none or there
      is no such round. */
  function ExitValuation(calculated: seq<CalculatedRound>): real {
    if calculated == [] then 0.0
    else if calculated[0].input.name == ExitName && calculated[0].input.isEnabled
    then calculated[0].postMoneyValuation.GetOr(0.0)
    else ExitValuation(calculated[1..])
  }

  /** The stages after the waterfall (calculations.ts:298-386). */
  function ResolveStages(stages: seq<Stage>, calculated: seq<CalculatedRound>, rounds: seq<RoundInput>,
                         lpEnabled: bool): (r: seq<Stage>)
    ensures |r| == |stages|
  {
    match FindStage(stages, ExitName)
    case None => stages
    case Some(x) =>
      var exit := ExitValuation(calculated);
      if exit > 0.0 then
        var resolved := ResolveExitShares(stages[x].shares, rounds, lpEnabled, exit);
        BackFillStages(stages[x := Stage(ExitName, resolved)], resolved)
      else
        var zeroed := ZeroExitShares(stages[x].shares);
        ZeroBackFillStages(stages[x := Stage(ExitName, zeroed)], zeroed)
  }

  // ---------------------------------------------------------------------
  // What the waterfall keeps and what it pays

  /** A share keeps its holder and percentage through the waterfall. */
  predicate SameHoldings(s: seq<Share>, t: seq<Share>) {
    Holders(s) == Holders(t) && Percentages(s) == Percentages(t)
  }

  lemma {:induction false} TotalOfPercentages(s: seq<Share>, t: seq<Share>)
    requires Percentages(s) == Percentages(t)
    ensures Total(s) == Total(t)
  {
    assert |s| == |Percentages(s)| == |t|;
    if s != [] {
      assert s[0].percentage == Percentages(s)[0];
      assert Percentages(s[1..]) == Percentages(s)[1..];
      assert Percentages(t[1..]) == Percentages(t)[1..];
      TotalOfPercentages(s[1..], t[1..]);
    }
  }

  /** The waterfall only writes exit values, invested amounts and
      multiples: every stage keeps its name, holders and percentages, and so
      its total. */
  lemma ResolveStagesKeepsHoldings(stages: seq<Stage>, calculated: seq<CalculatedRound>, rounds: seq<RoundInput>,
                                   lpEnabled: bool, k: nat)
    requires k < |stages|
    ensures var r := ResolveStages(stages, calculated, rounds, lpEnabled);
      && r[k].stageName == stages[k].stageName
      && SameHoldings(r[k].shares, stages[k].shares)
      && Total(r[k].shares) == Total(stages[k].shares)
  {
    var r := ResolveStages(stages, calculated, rounds, lpEnabled);
    match FindStage(stages, ExitName)
    case None =>
    case Some(x) =>
      var exit := ExitValuation(calculated);
      var s := stages[k].shares;
      if exit > 0.0 {
        var resolved := ResolveExitShares(stages[x].shares, rounds, lpEnabled, exit);
        if k == x {
          assert r[k].shares == resolved;
        } else if stages[k].stageName != ExitName {
          assert r[k].shares == BackFill(s, resolved);
        }
      } else {
        var zeroed := ZeroExitShares(stages[x].shares);
        if k == x {
          assert r[k].shares == zeroed;
        } else if stages[k].stageName != ExitName {
          assert r[k].shares == ZeroBackFill(s, zeroed);
        }
      }
      assert SameHoldings(r[k].shares, s);
      TotalOfPercentages(r[k].shares, s);
  }

  /** With a positive exit value, the first Exit snapshot pays out the
      smaller of its total claim and the exit value, and every other stage
      not named Exit reports, for each holder also in the Exit snapshot,
      that holder's value, invested amount and multiple there. */
  lemma ResolveStagesPays(stages: seq<Stage>, calculated: seq<CalculatedRound>, rounds: seq<RoundInput>,
                          lpEnabled: bool, x: nat)
    requires FindStage(stages, ExitName) == Some(x) && ExitValuation(calculated) > 0.0
    ensures var r := ResolveStages(stages, calculated, rounds, lpEnabled);
      var exit := ExitValuation(calculated);
      var c := Claims(stages[x].shares, rounds, lpEnabled, exit);
      && r[x].shares == ResolveExitShares(stages[x].shares, rounds, lpEnabled, exit)
      && Sum(Values(r[x].shares)) == (if Sum(c) > 0.0 then Min(Sum(c), exit) else 0.0)
      && forall k, j :: 0 <= k < |r| && stages[k].stageName != ExitName && 0 <= j < |r[k].shares| ==>
           match Find(r[x].shares, r[k].shares[j].holder)
           case Some(e) => r[k].shares[j].valueAtExit == r[x].shares[e].valueAtExit
                           && r[k].shares[j].investedAmount == r[x].shares[e].investedAmount
                           && r[k].shares[j].returnMultiple == r[x].shares[e].returnMultiple
           case None => r[k].shares[j] == stages[k].shares[j]
  {
    var exit := ExitValuation(calculated);
    ResolveExitSharesFacts(stages[x].shares, rounds, lpEnabled, exit);
  }

  /** Without a positive exit value nobody receives anything, in any
      stage, provided the snapshots carry no values yet (which the pass
      guarantees). */
  lemma ResolveStagesZero(stages: seq<Stage>, calculated: seq<CalculatedRound>, rounds: seq<RoundInput>,
                          lpEnabled: bool)
    requires ExitValuation(calculated) <= 0.0 || FindStage(stages, ExitName).None?
    requires forall k, j :: 0 <= k < |stages| && 0 <= j < |stages[k].shares| ==> stages[k].shares[j].valueAtExit == 0.0
    ensures var r := ResolveStages(stages, calculated, rounds, lpEnabled);
      forall k, j :: 0 <= k < |r| && 0 <= j < |r[k].shares| ==> r[k].shares[j].valueAtExit == 0.0
  {
  }
}
