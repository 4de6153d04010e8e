/** The live ownership list of src/lib/calculations.ts and the algebra the
    engine applies to it: proportional dilution, the ESOP top-up, SAFE
    conversion, renormalization. Each operation is a function on the list;
    the methods in module Engine compute them with the source's loops. */
module Ownership {
  import opened Options
  import opened Types

  function Max(a: real, b: real): real { if a >= b then a else b }
  function Min(a: real, b: real): real { if a <= b then a else b }

  /** A share as the engine pushes it: no exit value yet, no multiple. */
  function NewShare(h: Holder, percentage: real, invested: real): Share {
    Share(h, percentage, 0.0, invested, Unset)
  }

  /** Sum of the percentages (the source's `reduce`; exact, so the order of
      the additions does not matter). */
  function Total(s: seq<Share>): real {
    if s == [] then 0.0 else s[0].percentage + Total(s[1..])
  }

  /** Sum of the percentages held by ESOP entries (the shares a `filter` on
      the name 'ESOP' selects). */
  function EsopTotal(s: seq<Share>): real {
    if s == [] then 0.0
    else (if s[0].holder.Esop? then s[0].percentage else 0.0) + EsopTotal(s[1..])
  }

  /** `find` by name: the first share held by `h`. */
  function Find(s: seq<Share>, h: Holder): (r: Option<nat>)
    ensures r.Some? ==> r.value < |s| && s[r.value].holder == h
    ensures r.Some? ==> forall k :: 0 <= k < r.value ==> s[k].holder != h
    ensures r.None? ==> forall k :: 0 <= k < |s| ==> s[k].holder != h
  {
    if s == [] then None
    else if s[0].holder == h then Some(0)
    else match Find(s[1..], h)
      case None => None
      case Some(k) => Some(k + 1)
  }

  function Holders(s: seq<Share>): seq<Holder> {
    seq(|s|, k requires 0 <= k < |s| => s[k].holder)
  }

  function Percentages(s: seq<Share>): seq<real> {
    seq(|s|, k requires 0 <= k < |s| => s[k].percentage)
  }

  /** There is at most one ESOP entry. */
  predicate SingleEsop(s: seq<Share>) {
    forall i, j :: 0 <= i < j < |s| && s[i].holder.Esop? ==> !s[j].holder.Esop?
  }

  /** No exit value or multiple has been resolved yet. */
  predicate Unresolved(s: seq<Share>) {
    forall k :: 0 <= k < |s| ==> s[k].valueAtExit == 0.0 && s[k].returnMultiple == Unset
  }

  /** `t` keeps every entry of `s` in place, with its holder and invested
      amount; it may add entries at the end. */
  predicate Extends(s: seq<Share>, t: seq<Share>) {
    && |s| <= |t|
    && forall k :: 0 <= k < |s| ==> t[k].holder == s[k].holder && t[k].investedAmount == s[k].investedAmount
  }

  /** `t` is a later state of the working list `s`: entries stay in place, a
      single ESOP entry stays single, nothing gets an exit value, and a total
      of 100 stays 100. */
  predicate Evolves(s: seq<Share>, t: seq<Share>) {
    && Extends(s, t)
    && (SingleEsop(s) ==> SingleEsop(t))
    && (Unresolved(s) ==> Unresolved(t))
    && (SingleEsop(s) && Total(s) == 100.0 ==> Total(t) == 100.0)
  }

  // ---------------------------------------------------------------------
  // Elementwise updates (the bodies of the source's `forEach` loops)

  function Scale(s: seq<Share>, f: real): seq<Share> {
    seq(|s|, k requires 0 <= k < |s| => s[k].(percentage := s[k].percentage * f))
  }

  /** Scale everyone except ESOP. */
  function ScaleNonEsop(s: seq<Share>, f: real): seq<Share> {
    seq(|s|, k requires 0 <= k < |s| =>
      if s[k].holder.Esop? then s[k] else s[k].(percentage := s[k].percentage * f))
  }

  function ZeroAll(s: seq<Share>): seq<Share> {
    seq(|s|, k requires 0 <= k < |s| => s[k].(percentage := 0.0))
  }

  function ZeroFoundersAndEsop(s: seq<Share>): seq<Share> {
    seq(|s|, k requires 0 <= k < |s| =>
      if s[k].holder == Founders || s[k].holder == Esop then s[k].(percentage := 0.0) else s[k])
  }

  // ---------------------------------------------------------------------
  // The steps of one round

  /** Give the ESOP entry `target` percent, creating it if there is none. */
  function SetEsop(s: seq<Share>, target: real): (r: seq<Share>)
    ensures |r| == if Find(s, Esop).Some? then |s| else |s| + 1
  {
    match Find(s, Esop)
    case Some(k) => s[k := s[k].(percentage := target)]
    case None => s + [NewShare(Esop, target, 0.0)]
  }

  /** Scale back to a total of 100 when the total is positive and not 100. */
  function Renormalize(s: seq<Share>): (r: seq<Share>)
    ensures |r| == |s|
  {
    var sum := Total(s);
    if sum != 100.0 && sum > 0.0 then Scale(s, 100.0 / sum) else s
  }

  /** The ESOP top-up before a priced round (calculations.ts:118-156). */
  function EsopTopUp(s: seq<Share>, target: real): (r: seq<Share>)
    ensures !(target > 0.0 && target > EsopTotal(s)) ==> r == s
    ensures |s| <= |r|
  {
    if target > 0.0 && target > EsopTotal(s) then
      Renormalize(SetEsop(EsopDiluted(s, target), target))
    else s
  }

  /** The dilution that makes room for the new pool (calculations.ts:123-139):
      holders other than ESOP give up exactly the shortfall; when there is no
      ESOP yet, everyone is scaled by `(100 - target) / 100`. */
  function EsopDiluted(s: seq<Share>, target: real): (r: seq<Share>)
    ensures |r| == |s|
  {
    var esop := EsopTotal(s);
    var additional := target - esop;
    var nonEsop := 100.0 - esop;
    if 0.0 < nonEsop < 100.0 then ScaleNonEsop(s, (nonEsop - additional) / nonEsop)
    else if nonEsop == 100.0 then Scale(s, (100.0 - target) / 100.0)
    else s
  }

  /** Everyone gives up `d` percent to a new holder `h` who invested `invested`. */
  function Dilute(s: seq<Share>, d: real, h: Holder, invested: real): seq<Share> {
    Scale(s, (100.0 - d) / 100.0) + [NewShare(h, d, invested)]
  }

  /** The degenerate SAFE conversion at 100 percent or more
      (calculations.ts:199-220): everyone is clamped to zero, the SAFE holder
      gets at most 100, and an excess over 100 is taken from Founders and ESOP
      and renormalized away. */
  function ClampedConversion(s: seq<Share>, eff: real, h: Holder, invested: real): seq<Share> {
    var clamped := Scale(s, Max(0.0, (100.0 - eff) / 100.0)) + [NewShare(h, Min(100.0, eff), invested)];
    var sum := Total(clamped);
    if sum > 100.0 && sum > 0.0 then
      var zeroed := ZeroFoundersAndEsop(clamped);
      var sum2 := Total(zeroed);
      if sum2 > 0.0 then Scale(zeroed, 100.0 / sum2) else zeroed
    else clamped
  }

  /** Conversion of a SAFE at effective percentage `eff` (calculations.ts:188-221). */
  function ConvertSafe(s: seq<Share>, eff: real, h: Holder, invested: real): seq<Share> {
    if 0.0 < eff < 100.0 then Dilute(s, eff, h, invested)
    else if eff >= 100.0 then ClampedConversion(s, eff, h, invested)
    else s
  }

  /** A 100 percent round: everyone goes to zero and the round's investors
      take everything (calculations.ts:268-275). */
  function FullDilution(s: seq<Share>, h: Holder, invested: real): seq<Share> {
    ZeroAll(s) + [NewShare(h, 100.0, invested)]
  }

  /** What a priced, non-Exit round does to ownership (calculations.ts:241-278):
      a dilution strictly between 0 and 100 dilutes; on the fallback path,
      taken only when the round has a size and a revenue multiple, a positive
      round at exactly 100 percent wipes everyone out; otherwise nothing changes. */
  function PricedRoundOwnership(s: seq<Share>, r: RoundInput): seq<Share> {
    if r.dilutionPercent.Some? && r.roundSize.Some?
       && 0.0 < r.dilutionPercent.value < 100.0
    then Dilute(s, r.dilutionPercent.value, Investors(r.name), r.roundSize.value)
    else if r.arrMultiple.Some? && r.roundSize.Some?
            && r.dilutionPercent == Some(100.0) && r.roundSize.value > 0.0
    then FullDilution(s, Investors(r.name), r.roundSize.value)
    else s
  }

  // ---------------------------------------------------------------------
  // Sums

  lemma {:induction false} TotalAppend(s: seq<Share>, x: Share)
    ensures Total(s + [x]) == Total(s) + x.percentage
  {
    if s != [] {
      assert (s + [x])[1..] == s[1..] + [x];
      TotalAppend(s[1..], x);
    }
  }

  lemma {:induction false} EsopTotalAppend(s: seq<Share>, x: Share)
    ensures EsopTotal(s + [x]) == EsopTotal(s) + (if x.holder.Esop? then x.percentage else 0.0)
  {
    if s != [] {
      assert (s + [x])[1..] == s[1..] + [x];
      EsopTotalAppend(s[1..], x);
    }
  }

  lemma ScaleTail(s: seq<Share>, f: real)
    requires s != []
    ensures Scale(s, f)[1..] == Scale(s[1..], f)
  {
    assert forall k | 0 <= k < |s| - 1 :: Scale(s, f)[1..][k] == Scale(s[1..], f)[k];
  }

  lemma {:induction false} TotalScale(s: seq<Share>, f: real)
    ensures Total(Scale(s, f)) == Total(s) * f
  {
    if s != [] {
      var t := Scale(s, f);
      ScaleTail(s, f);
      TotalScale(s[1..], f);
      assert Total(t) == t[0].percentage + Total(t[1..]);
      assert s[0].percentage * f + Total(s[1..]) * f == (s[0].percentage + Total(s[1..])) * f;
    }
  }

  lemma {:induction false} EsopTotalScale(s: seq<Share>, f: real)
    ensures EsopTotal(Scale(s, f)) == EsopTotal(s) * f
  {
    if s != [] {
      var t := Scale(s, f);
      ScaleTail(s, f);
      EsopTotalScale(s[1..], f);
      assert EsopTotal(t) == (if t[0].holder.Esop? then t[0].percentage else 0.0) + EsopTotal(t[1..]);
      var e := EsopTotal(s[1..]);
      if s[0].holder.Esop? {
        assert s[0].percentage * f + e * f == (s[0].percentage + e) * f;
      }
    }
  }

  lemma ScaleNonEsopTail(s: seq<Share>, f: real)
    requires s != []
    ensures ScaleNonEsop(s, f)[1..] == ScaleNonEsop(s[1..], f)
  {
    assert forall k | 0 <= k < |s| - 1 :: ScaleNonEsop(s, f)[1..][k] == ScaleNonEsop(s[1..], f)[k];
  }

  lemma MulAddDistrib(a: real, b: real, f: real)
    ensures a * f + b * f == (a + b) * f
  {
  }

  lemma {:induction false} EsopTotalScaleNonEsop(s: seq<Share>, f: real)
    ensures EsopTotal(ScaleNonEsop(s, f)) == EsopTotal(s)
  {
    if s != [] {
      ScaleNonEsopTail(s, f);
      EsopTotalScaleNonEsop(s[1..], f);
    }
  }

  lemma {:induction false} TotalScaleNonEsop(s: seq<Share>, f: real)
    ensures Total(ScaleNonEsop(s, f)) == (Total(s) - EsopTotal(s)) * f + EsopTotal(s)
    ensures EsopTotal(ScaleNonEsop(s, f)) == EsopTotal(s)
  {
    EsopTotalScaleNonEsop(s, f);
    if s != [] {
      var x := s[0];
      var r := ScaleNonEsop(s, f);
      ScaleNonEsopTail(s, f);
      TotalScaleNonEsop(s[1..], f);
      assert Total(r) == r[0].percentage + Total(ScaleNonEsop(s[1..], f));
      if !x.holder.Esop? {
        assert r[0].percentage == x.percentage * f;
        MulAddDistrib(x.percentage, Total(s[1..]) - EsopTotal(s[1..]), f);
      }
    }
  }

  lemma {:induction false} TotalZeroAll(s: seq<Share>)
    ensures Total(ZeroAll(s)) == 0.0
  {
    if s != [] {
      assert ZeroAll(s)[1..] == ZeroAll(s[1..]);
      TotalZeroAll(s[1..]);
    }
  }

  lemma {:induction false} TotalUpdate(s: seq<Share>, k: nat, p: real)
    requires k < |s|
    ensures Total(s[k := s[k].(percentage := p)]) == Total(s) - s[k].percentage + p
  {
    var t := s[k := s[k].(percentage := p)];
    if k == 0 {
      assert t[1..] == s[1..];
    } else {
      assert t[1..] == s[1..][k - 1 := s[k].(percentage := p)];
      TotalUpdate(s[1..], k - 1, p);
    }
  }

  lemma {:induction false} EsopTotalAbsent(s: seq<Share>)
    requires forall k :: 0 <= k < |s| ==> !s[k].holder.Esop?
    ensures EsopTotal(s) == 0.0
  {
    if s != [] {
      EsopTotalAbsent(s[1..]);
    }
  }

  /** With a single ESOP entry, the ESOP total is that entry's percentage. */
  lemma {:induction false} EsopTotalSingle(s: seq<Share>, k: nat)
    requires SingleEsop(s) && k < |s| && s[k].holder.Esop?
    ensures EsopTotal(s) == s[k].percentage
  {
    if k == 0 {
      EsopTotalAbsent(s[1..]);
    } else {
      assert !s[0].holder.Esop?;
      EsopTotalSingle(s[1..], k - 1);
    }
  }

  lemma RenormalizeTotal(s: seq<Share>)
    requires Total(s) > 0.0
    ensures Total(Renormalize(s)) == 100.0
  {
    var sum := Total(s);
    if sum != 100.0 {
      TotalScale(s, 100.0 / sum);
    }
  }

  lemma EvolvesTransitive(a: seq<Share>, b: seq<Share>, c: seq<Share>)
    requires Evolves(a, b) && Evolves(b, c)
    ensures Evolves(a, c)
  {
  }

  // ---------------------------------------------------------------------
  // Each step keeps the working list well formed

  lemma ScaleEvolves(s: seq<Share>, f: real)
    ensures Extends(s, Scale(s, f))
    ensures SingleEsop(s) ==> SingleEsop(Scale(s, f))
    ensures Unresolved(s) ==> Unresolved(Scale(s, f))
  {
  }

  lemma AppendEvolves(s: seq<Share>, x: Share)
    requires x.holder != Esop && x.valueAtExit == 0.0 && x.returnMultiple == Unset
    ensures Extends(s, s + [x])
    ensures SingleEsop(s) ==> SingleEsop(s + [x])
    ensures Unresolved(s) ==> Unresolved(s + [x])
  {
  }

  lemma SetEsopFacts(s: seq<Share>, target: real)
    requires SingleEsop(s)
    ensures Total(SetEsop(s, target)) == Total(s) - EsopTotal(s) + target
    ensures EsopTotal(SetEsop(s, target)) == target
    ensures SingleEsop(SetEsop(s, target))
    ensures Extends(s, SetEsop(s, target))
    ensures Unresolved(s) ==> Unresolved(SetEsop(s, target))
    ensures forall k :: 0 <= k < |s| && !s[k].holder.Esop? ==> SetEsop(s, target)[k] == s[k]
  {
    match Find(s, Esop)
    case Some(k) => SetEsopFound(s, target, k);
    case None => SetEsopAppended(s, target);
  }

  lemma SetEsopFound(s: seq<Share>, target: real, k: nat)
    requires SingleEsop(s) && Find(s, Esop) == Some(k)
    ensures var t := s[k := s[k].(percentage := target)];
      && Total(t) == Total(s) - EsopTotal(s) + target
      && EsopTotal(t) == target
      && SingleEsop(t)
      && Extends(s, t)
      && (Unresolved(s) ==> Unresolved(t))
      && forall j :: 0 <= j < |s| && !s[j].holder.Esop? ==> t[j] == s[j]
  {
    var t := s[k := s[k].(percentage := target)];
    TotalUpdate(s, k, target);
    EsopTotalSingle(s, k);
    assert SingleEsop(t);
    EsopTotalSingle(t, k);
  }

  lemma SetEsopAppended(s: seq<Share>, target: real)
    requires Find(s, Esop).None?
    ensures var t := s + [NewShare(Esop, target, 0.0)];
      && Total(t) == Total(s) - EsopTotal(s) + target
      && EsopTotal(t) == target
      && SingleEsop(t)
      && Extends(s, t)
      && (Unresolved(s) ==> Unresolved(t))
      && forall j :: 0 <= j < |s| && !s[j].holder.Esop? ==> t[j] == s[j]
  {
    TotalAppend(s, NewShare(Esop, target, 0.0));
    EsopTotalAppend(s, NewShare(Esop, target, 0.0));
    EsopTotalAbsent(s);
  }

  lemma DiluteTotal(s: seq<Share>, d: real, h: Holder, invested: real)
    ensures Total(Dilute(s, d, h, invested)) == Total(s) * ((100.0 - d) / 100.0) + d
  {
    TotalScale(s, (100.0 - d) / 100.0);
    TotalAppend(Scale(s, (100.0 - d) / 100.0), NewShare(h, d, invested));
  }

  lemma EsopDilutedFacts(s: seq<Share>, target: real)
    requires target > EsopTotal(s)
    ensures Extends(s, EsopDiluted(s, target))
    ensures SingleEsop(s) ==> SingleEsop(EsopDiluted(s, target))
    ensures Unresolved(s) ==> Unresolved(EsopDiluted(s, target))
    ensures EsopTotal(EsopDiluted(s, target)) == EsopTotal(s)
    ensures Total(s) == 100.0 ==>
      Total(EsopDiluted(s, target)) - EsopTotal(s) + target > 0.0
  {
    var esop := EsopTotal(s);
    var nonEsop := 100.0 - esop;
    if 0.0 < nonEsop < 100.0 {
      var f := (nonEsop - (target - esop)) / nonEsop;
      TotalScaleNonEsop(s, f);
      assert f * nonEsop == 100.0 - target;
    } else if nonEsop == 100.0 {
      TotalScale(s, (100.0 - target) / 100.0);
      EsopTotalScale(s, (100.0 - target) / 100.0);
    }
  }

  /** Below a full pool, the dilution of a list summing to 100 leaves exactly
      room for the target. */
  lemma EsopDilutedClosedForm(s: seq<Share>, target: real)
    requires Total(s) == 100.0 && 0.0 <= EsopTotal(s) < 100.0
    ensures Total(EsopDiluted(s, target)) - EsopTotal(s) + target == 100.0
  {
    var esop := EsopTotal(s);
    var f := (100.0 - target) / (100.0 - esop);
    DivMul(100.0 - target, 100.0 - esop);
    if esop > 0.0 {
      assert (100.0 - esop - (target - esop)) / (100.0 - esop) == f;
      assert EsopDiluted(s, target) == ScaleNonEsop(s, f);
      TotalScaleNonEsop(s, f);
    } else {
      assert 100.0 - esop == 100.0;
      assert EsopDiluted(s, target) == Scale(s, f);
      TotalScale(s, f);
    }
  }

  /** Below a full pool, the dilution is a uniform scaling by
      `(100 - target) / (100 - esop)`: of the holders other than ESOP when
      there is a pool, of everyone when there is none. */
  lemma EsopDilutedShape(s: seq<Share>, target: real)
    requires 0.0 <= EsopTotal(s) < 100.0
    ensures EsopTotal(s) > 0.0 ==>
      EsopDiluted(s, target) == ScaleNonEsop(s, (100.0 - target) / (100.0 - EsopTotal(s)))
    ensures EsopTotal(s) == 0.0 ==>
      EsopDiluted(s, target) == Scale(s, (100.0 - target) / (100.0 - EsopTotal(s)))
  {
    ShortfallFactor(EsopTotal(s), target);
  }

  /** Below a full pool, every holder other than ESOP ends at
      `(100 - target) / (100 - esop)` times its share. */
  lemma EsopDilutedAt(s: seq<Share>, target: real, k: nat)
    requires 0.0 <= EsopTotal(s) < 100.0 && k < |s| && !s[k].holder.Esop?
    ensures EsopDiluted(s, target)[k] == s[k].(percentage := s[k].percentage * ((100.0 - target) / (100.0 - EsopTotal(s))))
  {
    EsopDilutedShape(s, target);
    var f := (100.0 - target) / (100.0 - EsopTotal(s));
    if EsopTotal(s) > 0.0 {
      ScaleNonEsopAt(s, f, k);
    } else {
      ScaleAt(s, f, k);
    }
  }

  lemma ShortfallFactor(e: real, target: real)
    requires e != 100.0
    ensures (100.0 - e - (target - e)) / (100.0 - e) == (100.0 - target) / (100.0 - e)
    ensures e == 0.0 ==> (100.0 - target) / 100.0 == (100.0 - target) / (100.0 - e)
  {
  }

  lemma ScaleAt(s: seq<Share>, f: real, k: nat)
    requires k < |s|
    ensures Scale(s, f)[k] == s[k].(percentage := s[k].percentage * f)
  {
  }

  lemma ScaleNonEsopAt(s: seq<Share>, f: real, k: nat)
    requires k < |s| && !s[k].holder.Esop?
    ensures ScaleNonEsop(s, f)[k] == s[k].(percentage := s[k].percentage * f)
  {
  }

  lemma DivMul(a: real, b: real)
    requires b != 0.0
    ensures (a / b) * b == a
  {
  }

  lemma SetEsopShape(s: seq<Share>, target: real)
    ensures Extends(s, SetEsop(s, target))
    ensures Unresolved(s) ==> Unresolved(SetEsop(s, target))
  {
    match Find(s, Esop)
    case Some(k) =>
    case None =>
  }

  lemma RenormalizeFacts(s: seq<Share>)
    ensures Extends(s, Renormalize(s))
    ensures SingleEsop(s) ==> SingleEsop(Renormalize(s))
    ensures Unresolved(s) ==> Unresolved(Renormalize(s))
    ensures Total(s) > 0.0 ==> Total(Renormalize(s)) == 100.0
  {
    if Total(s) > 0.0 {
      RenormalizeTotal(s);
    }
  }

  /** `Find` sees only holders. */
  lemma {:induction false} FindSameHolders(s: seq<Share>, t: seq<Share>, h: Holder)
    requires |s| == |t| && forall k :: 0 <= k < |s| ==> t[k].holder == s[k].holder
    ensures Find(s, h) == Find(t, h)
  {
    if s != [] && s[0].holder != h {
      FindSameHolders(s[1..], t[1..], h);
    }
  }

  lemma ExtendsTransitive(a: seq<Share>, b: seq<Share>, c: seq<Share>)
    requires Extends(a, b) && Extends(b, c)
    ensures Extends(a, c)
  {
  }

  /** The top-up brings a list that sums to 100 back to 100, whichever of its
      branches runs. */
  lemma EsopTopUpEvolves(s: seq<Share>, target: real)
    ensures Evolves(s, EsopTopUp(s, target))
  {
    if target > 0.0 && target > EsopTotal(s) {
      var diluted := EsopDiluted(s, target);
      var withEsop := SetEsop(diluted, target);
      EsopDilutedFacts(s, target);
      SetEsopShape(diluted, target);
      RenormalizeFacts(withEsop);
      ExtendsTransitive(s, diluted, withEsop);
      ExtendsTransitive(s, withEsop, Renormalize(withEsop));
      if SingleEsop(s) {
        SetEsopFacts(diluted, target);
      }
    }
  }

  /** When the list sums to 100, holds a single ESOP entry below 100 percent
      and the target is above it, the ESOP ends at exactly the target, the
      list still sums to 100 and the renormalization does nothing. */
  lemma EsopTopUpReachesTarget(s: seq<Share>, target: real)
    requires Total(s) == 100.0 && SingleEsop(s)
    requires 0.0 <= EsopTotal(s) < 100.0 && target > EsopTotal(s)
    ensures EsopTopUp(s, target) == SetEsop(EsopDiluted(s, target), target)
    ensures EsopTotal(EsopTopUp(s, target)) == target
    ensures Total(EsopTopUp(s, target)) == 100.0
    ensures SingleEsop(EsopTopUp(s, target))
    ensures |EsopTopUp(s, target)| == if Find(s, Esop).Some? then |s| else |s| + 1
  {
    var diluted := EsopDiluted(s, target);
    var withEsop := SetEsop(diluted, target);
    EsopDilutedFacts(s, target);
    EsopDilutedClosedForm(s, target);
    SetEsopFacts(diluted, target);
    assert Total(withEsop) == 100.0;
    FindSameHolders(s, diluted, Esop);
  }

  /** Under the same conditions every holder other than ESOP is scaled by
      `(100 - target) / (100 - esop)`. */
  lemma EsopTopUpScalesOthers(s: seq<Share>, target: real, k: nat)
    requires Total(s) == 100.0 && SingleEsop(s)
    requires 0.0 <= EsopTotal(s) < 100.0 && target > EsopTotal(s)
    requires k < |s| && !s[k].holder.Esop?
    ensures EsopTopUp(s, target)[k]
      == s[k].(percentage := s[k].percentage * ((100.0 - target) / (100.0 - EsopTotal(s))))
  {
    EsopTopUpReachesTarget(s, target);
    EsopTopUpAt(s, target, k);
  }

  lemma EsopTopUpAt(s: seq<Share>, target: real, k: nat)
    requires SingleEsop(s) && 0.0 <= EsopTotal(s) < 100.0 && target > EsopTotal(s)
    requires k < |s| && !s[k].holder.Esop?
    ensures SetEsop(EsopDiluted(s, target), target)[k]
      == s[k].(percentage := s[k].percentage * ((100.0 - target) / (100.0 - EsopTotal(s))))
  {
    EsopDilutedFacts(s, target);
    SetEsopFacts(EsopDiluted(s, target), target);
    EsopDilutedAt(s, target, k);
  }

  // ---------------------------------------------------------------------
  // Dilution and conversion

  /** A priced dilution scales every existing holder by `(100 - d) / 100` and
      appends exactly one entry, the new investors with `d` percent; a total
      of 100 stays 100. */
  lemma DiluteFacts(s: seq<Share>, d: real, h: Holder, invested: real)
    ensures |Dilute(s, d, h, invested)| == |s| + 1
    ensures forall k :: 0 <= k < |s| ==>
      Dilute(s, d, h, invested)[k] == s[k].(percentage := s[k].percentage * ((100.0 - d) / 100.0))
    ensures Dilute(s, d, h, invested)[|s|] == NewShare(h, d, invested)
    ensures Total(Dilute(s, d, h, invested)) == Total(s) * ((100.0 - d) / 100.0) + d
    ensures Total(s) == 100.0 ==> Total(Dilute(s, d, h, invested)) == 100.0
    ensures !h.Esop? ==> Evolves(s, Dilute(s, d, h, invested))
  {
    DiluteTotal(s, d, h, invested);
    assert 100.0 * ((100.0 - d) / 100.0) + d == 100.0;
  }

  /** In exact arithmetic the clamped conversion never needs the excess
      correction: the clamped list always sums to exactly 100. */
  lemma ClampedConversionExact(s: seq<Share>, eff: real, h: Holder, invested: real)
    requires eff >= 100.0
    ensures ClampedConversion(s, eff, h, invested) == Scale(s, 0.0) + [NewShare(h, 100.0, invested)]
    ensures Total(ClampedConversion(s, eff, h, invested)) == 100.0
  {
    var clamped := Scale(s, 0.0) + [NewShare(h, 100.0, invested)];
    assert Max(0.0, (100.0 - eff) / 100.0) == 0.0;
    TotalScale(s, 0.0);
    TotalAppend(Scale(s, 0.0), NewShare(h, 100.0, invested));
  }

  /** A SAFE conversion keeps the list well formed and a total of 100 at 100,
      whatever its effective percentage. */
  lemma ConvertSafeEvolves(s: seq<Share>, eff: real, h: Holder, invested: real)
    requires !h.Esop?
    ensures Evolves(s, ConvertSafe(s, eff, h, invested))
    ensures eff >= 100.0 ==> Total(ConvertSafe(s, eff, h, invested)) == 100.0
  {
    if 0.0 < eff < 100.0 {
      DiluteFacts(s, eff, h, invested);
    } else if eff >= 100.0 {
      ClampedConversionExact(s, eff, h, invested);
      ScaleEvolves(s, 0.0);
      AppendEvolves(Scale(s, 0.0), NewShare(h, 100.0, invested));
    }
  }

  lemma FullDilutionFacts(s: seq<Share>, h: Holder, invested: real)
    requires !h.Esop?
    ensures Evolves(s, FullDilution(s, h, invested))
    ensures Total(FullDilution(s, h, invested)) == 100.0
  {
    TotalZeroAll(s);
    TotalAppend(ZeroAll(s), NewShare(h, 100.0, invested));
    AppendEvolves(ZeroAll(s), NewShare(h, 100.0, invested));
  }

  lemma PricedRoundOwnershipEvolves(s: seq<Share>, r: RoundInput)
    ensures Evolves(s, PricedRoundOwnership(s, r))
  {
    if r.dilutionPercent.Some? && r.roundSize.Some? && 0.0 < r.dilutionPercent.value < 100.0 {
      DiluteFacts(s, r.dilutionPercent.value, Investors(r.name), r.roundSize.value);
    } else if r.arrMultiple.Some? && r.roundSize.Some?
              && r.dilutionPercent == Some(100.0) && r.roundSize.value > 0.0 {
      FullDilutionFacts(s, Investors(r.name), r.roundSize.value);
    }
  }
}
