/** What the forward pass guarantees: the shape of its outputs, the
    invariants of the ownership lists, the figures of every round, and when
    and how each SAFE converts. */
module PassProperties {
  import opened Options
  import opened Types
  import opened Ownership
  import opened Conversion
  import opened Rounds
  import opened Pass

  // ---------------------------------------------------------------------
  // The SAFE records

  /** Each record describes a SAFE round at its own index, unconverted. */
  lemma {:induction false} SafeRecordsFacts(rounds: seq<RoundInput>, n: nat, j: nat)
    requires n <= |rounds| && j < |SafeRecords(rounds, n)|
    ensures var rec := SafeRecords(rounds, n)[j];
      && rec.details == rounds[rec.originalIndex]
      && rec.details.roundType.Safe?
      && !rec.converted && rec.effectiveDilutionPercent.None? && rec.conversionStageName.None?
    decreases n
  {
    if j < |SafeRecords(rounds, n - 1)| {
      SafeRecordsFacts(rounds, n - 1, j);
    }
  }

  /** Every SAFE among the first `n` rounds has a record. */
  lemma {:induction false} SafeRecordFor(rounds: seq<RoundInput>, n: nat, k: nat) returns (j: nat)
    requires k < n <= |rounds| && rounds[k].roundType.Safe?
    ensures j < |SafeRecords(rounds, n)| && SafeRecords(rounds, n)[j].originalIndex == k
    decreases n
  {
    if k == n - 1 {
      j := |SafeRecords(rounds, n - 1)|;
    } else {
      j := SafeRecordFor(rounds, n - 1, k);
    }
  }

  // ---------------------------------------------------------------------
  // Ownership

  /** A well-formed ownership list: a single ESOP entry at most, no exit
      values yet, and when the founders start at 100 a total of 100. */
  predicate Sound(s: seq<Share>, full: bool) {
    SingleEsop(s) && Unresolved(s) && (full ==> Total(s) == 100.0)
  }

  /** Every stage's list is sound. */
  predicate SoundStages(stages: seq<Stage>, full: bool) {
    forall k :: 0 <= k < |stages| ==> Sound(stages[k].shares, full)
  }

  /** A round's ownership changes are a later state of the live list, and it
      snapshots the result exactly when it emits a stage. */
  lemma StepOwnership(st: PassState, rounds: seq<RoundInput>, i: nat, p: Settings)
    requires i < |rounds| && WellIndexed(st, rounds)
    ensures var t := Step(st, rounds, i, p);
      && Evolves(st.ownership, t.ownership)
      && t.stages == st.stages + (if EmitsStage(rounds[i]) then [Stage(rounds[i].name, t.ownership)] else [])
  {
    var r := rounds[i];
    if r.isEnabled {
      var topped := TopUp(st, r, p);
      if Financing(r) {
        EsopTopUpEvolves(st.ownership, EsopTarget(r, p.defaultEsopPercentage));
      }
      var start := ConversionState(topped, st.safes, st.calculated);
      var conv := Conversions(st, rounds, i, p);
      if TriggerPreMoney(r).Some? {
        ConvertFirstEvolves(start, rounds, i, TriggerPreMoney(r).value, r.name, |st.safes|);
      }
      EvolvesTransitive(st.ownership, topped, conv.ownership);
      if Financing(r) {
        PricedRoundOwnershipEvolves(conv.ownership, r);
        EvolvesTransitive(st.ownership, conv.ownership, PricedRoundOwnership(conv.ownership, r));
      }
    }
  }

  /** The live list and every snapshot are sound. */
  predicate StateSound(st: PassState, full: bool) {
    Sound(st.ownership, full) && SoundStages(st.stages, full)
  }

  /** A round keeps the live list and every snapshot sound. */
  lemma StepSound(st: PassState, rounds: seq<RoundInput>, i: nat, p: Settings, full: bool)
    requires i < |rounds| && WellIndexed(st, rounds) && StateSound(st, full)
    ensures StateSound(Step(st, rounds, i, p), full)
  {
    StepOwnership(st, rounds, i, p);
  }

  lemma InitialSound(rounds: seq<RoundInput>, p: Settings)
    ensures StateSound(InitialState(rounds, p), p.initialFounderOwnership == 100.0)
  {
    assert Total(InitialOwnership(p)) == p.initialFounderOwnership + Total([]);
  }

  /** Every list the pass produces, live or snapshot, is sound; with founders
      at 100 every stage sums to 100. */
  lemma {:induction false} PassSound(rounds: seq<RoundInput>, p: Settings, n: nat)
    requires n <= |rounds|
    ensures StateSound(RunPass(rounds, p, n), p.initialFounderOwnership == 100.0)
  {
    if n == 0 {
      InitialSound(rounds, p);
    } else {
      var m: nat :| m + 1 == n;
      PassSound(rounds, p, m);
      PassSoundStep(rounds, p, m);
    }
  }

  lemma PassSoundStep(rounds: seq<RoundInput>, p: Settings, m: nat)
    requires m < |rounds| && StateSound(RunPass(rounds, p, m), p.initialFounderOwnership == 100.0)
    ensures StateSound(RunPass(rounds, p, m + 1), p.initialFounderOwnership == 100.0)
  {
    StepSound(RunPass(rounds, p, m), rounds, m, p, p.initialFounderOwnership == 100.0);
  }

  // ---------------------------------------------------------------------
  // Stages

  function StageNames(stages: seq<Stage>): seq<string> {
    seq(|stages|, k requires 0 <= k < |stages| => stages[k].stageName)
  }

  /** A round appends its own name to the stage names when it emits a
      stage, and keeps the first stage. */
  lemma StepStageNames(st: PassState, rounds: seq<RoundInput>, i: nat, p: Settings)
    requires i < |rounds| && WellIndexed(st, rounds) && |st.stages| > 0
    ensures var t := Step(st, rounds, i, p).stages;
      && |t| == |st.stages| + (if EmitsStage(rounds[i]) then 1 else 0)
      && t[0] == st.stages[0]
      && StageNames(t) == StageNames(st.stages) + (if EmitsStage(rounds[i]) then [rounds[i].name] else [])
  {
    StepOwnership(st, rounds, i, p);
  }

  /** The stages after the first `n` rounds: the Initial snapshot of the
      founders, then one per round that emits a stage. */
  predicate StagesNamed(st: PassState, rounds: seq<RoundInput>, p: Settings, n: nat)
    requires n <= |rounds|
  {
    && |st.stages| == 1 + |EmittedNames(rounds, n)|
    && st.stages[0] == Stage(InitialStageName, InitialOwnership(p))
    && StageNames(st.stages) == [InitialStageName] + EmittedNames(rounds, n)
  }

  /** The stages are the Initial snapshot of the founders followed by one
      snapshot per enabled round or disabled Exit, in round order. */
  lemma {:induction false} PassStageNames(rounds: seq<RoundInput>, p: Settings, n: nat)
    requires n <= |rounds|
    ensures StagesNamed(RunPass(rounds, p, n), rounds, p, n)
  {
    if n > 0 {
      var m: nat :| m + 1 == n;
      PassStageNames(rounds, p, m);
      PassStageNamesStep(rounds, p, m);
    }
  }

  lemma PassStageNamesStep(rounds: seq<RoundInput>, p: Settings, m: nat)
    requires m < |rounds| && StagesNamed(RunPass(rounds, p, m), rounds, p, m)
    ensures StagesNamed(RunPass(rounds, p, m + 1), rounds, p, m + 1)
  {
    StepStageNames(RunPass(rounds, p, m), rounds, m, p);
  }

  /** A round appends at most one stage and changes none of the others. */
  lemma StepStages(st: PassState, rounds: seq<RoundInput>, i: nat, p: Settings)
    requires i < |rounds| && WellIndexed(st, rounds)
    ensures st.stages <= Step(st, rounds, i, p).stages
    ensures |Step(st, rounds, i, p).stages| <= |st.stages| + 1
  {
    StepOwnership(st, rounds, i, p);
  }

  /** Snapshots are copies: a later round never changes a stage already
      pushed. */
  lemma {:induction false} PassStagesPrefix(rounds: seq<RoundInput>, p: Settings, n: nat, m: nat)
    requires n <= m <= |rounds|
    ensures RunPass(rounds, p, n).stages <= RunPass(rounds, p, m).stages
    decreases m - n
  {
    if n < m {
      PassStagesPrefix(rounds, p, n + 1, m);
      PassStagesPrefixStep(rounds, p, n, m);
    }
  }

  lemma PassStagesPrefixStep(rounds: seq<RoundInput>, p: Settings, n: nat, m: nat)
    requires n < m <= |rounds|
    requires RunPass(rounds, p, n + 1).stages <= RunPass(rounds, p, m).stages
    ensures RunPass(rounds, p, n).stages <= RunPass(rounds, p, m).stages
  {
    StepStages(RunPass(rounds, p, n), rounds, n, p);
    PrefixTrans(RunPass(rounds, p, n).stages, RunPass(rounds, p, n + 1).stages, RunPass(rounds, p, m).stages);
  }

  lemma PrefixTrans(a: seq<Stage>, b: seq<Stage>, c: seq<Stage>)
    requires a <= b && b <= c
    ensures a <= c
  {
  }

  // ---------------------------------------------------------------------
  // The calculated rounds

  /** A round changes only figures and dilutions of calculated rounds. */
  lemma StepInputs(st: PassState, rounds: seq<RoundInput>, i: nat, p: Settings, k: nat)
    requires i < |rounds| && WellIndexed(st, rounds) && k < |rounds|
    ensures Step(st, rounds, i, p).calculated[k].input == st.calculated[k].input
  {
  }

  /** Each calculated round carries its own input. */
  lemma {:induction false} PassInputs(rounds: seq<RoundInput>, p: Settings, n: nat, k: nat)
    requires n <= |rounds| && k < |rounds|
    ensures RunPass(rounds, p, n).calculated[k].input == rounds[k]
  {
    if n > 0 {
      var m: nat :| m + 1 == n;
      PassInputs(rounds, p, m, k);
      PassInputsStep(rounds, p, m, k);
    }
  }

  lemma PassInputsStep(rounds: seq<RoundInput>, p: Settings, m: nat, k: nat)
    requires m < |rounds| && k < |rounds| && RunPass(rounds, p, m).calculated[k].input == rounds[k]
    ensures RunPass(rounds, p, m + 1).calculated[k].input == rounds[k]
  {
    StepInputs(RunPass(rounds, p, m), rounds, m, p, k);
  }

  // ---------------------------------------------------------------------
  // The running valuation and the figures

  /** The state's running valuation is the one the rounds so far
      determine. */
  lemma {:induction false} PassLastPost(rounds: seq<RoundInput>, p: Settings, n: nat)
    requires n <= |rounds|
    ensures RunPass(rounds, p, n).lastPost == LastPostBefore(rounds, n)
  {
    if n > 0 {
      var m: nat :| m + 1 == n;
      PassLastPost(rounds, p, m);
      PassLastPostStep(rounds, p, m);
    }
  }

  lemma PassLastPostStep(rounds: seq<RoundInput>, p: Settings, m: nat)
    requires m < |rounds| && RunPass(rounds, p, m).lastPost == LastPostBefore(rounds, m)
    ensures RunPass(rounds, p, m + 1).lastPost == LastPostBefore(rounds, m + 1)
  {
    StepLastPost(RunPass(rounds, p, m), rounds, m, p);
  }

  lemma StepLastPost(st: PassState, rounds: seq<RoundInput>, i: nat, p: Settings)
    requires i < |rounds| && WellIndexed(st, rounds)
    ensures Step(st, rounds, i, p).lastPost == NextLastPost(rounds[i], st.lastPost)
  {
  }

  /** A round writes its own figures and no other round's. */
  lemma StepFigures(st: PassState, rounds: seq<RoundInput>, i: nat, p: Settings, k: nat)
    requires i < |rounds| && WellIndexed(st, rounds) && k < |rounds|
    ensures FiguresOf(Step(st, rounds, i, p).calculated[k])
      == if k != i then FiguresOf(st.calculated[k])
         else if rounds[i].isEnabled then EnabledFigures(rounds[i], st.lastPost)
         else DisabledFigures(rounds[i])
  {
    if rounds[i].isEnabled {
      var conv := Conversions(st, rounds, i, p);
      assert FiguresOf(conv.calculated[k]) == FiguresOf(st.calculated[k]);
    }
  }

  /** The figures of round `k` once the first `n` rounds are done: those the
      running valuation before it determines, or none if it is still to
      come. */
  function ExpectedFigures(rounds: seq<RoundInput>, k: nat, n: nat): Figures
    requires k < |rounds| && n <= |rounds|
  {
    if n <= k then NoFigures
    else if rounds[k].isEnabled then EnabledFigures(rounds[k], LastPostBefore(rounds, k))
    else DisabledFigures(rounds[k])
  }

  /** The figures of every round the pass has reached. */
  lemma {:induction false} PassFigures(rounds: seq<RoundInput>, p: Settings, n: nat, k: nat)
    requires n <= |rounds| && k < |rounds|
    ensures FiguresOf(RunPass(rounds, p, n).calculated[k]) == ExpectedFigures(rounds, k, n)
  {
    if n > 0 {
      var m: nat :| m + 1 == n;
      PassFigures(rounds, p, m, k);
      PassLastPost(rounds, p, m);
      PassFiguresStep(rounds, p, m, k);
    }
  }

  lemma PassFiguresStep(rounds: seq<RoundInput>, p: Settings, m: nat, k: nat)
    requires m < |rounds| && k < |rounds|
    requires RunPass(rounds, p, m).lastPost == LastPostBefore(rounds, m)
    requires FiguresOf(RunPass(rounds, p, m).calculated[k]) == ExpectedFigures(rounds, k, m)
    ensures FiguresOf(RunPass(rounds, p, m + 1).calculated[k]) == ExpectedFigures(rounds, k, m + 1)
  {
    StepFigures(RunPass(rounds, p, m), rounds, m, p, k);
  }

  // ---------------------------------------------------------------------
  // SAFE conversion

  /** The first round after index `a` and before `n` that triggers
      conversion. */
  function FirstTrigger(rounds: seq<RoundInput>, a: nat, n: nat): (t: Option<nat>)
    requires n <= |rounds|
    ensures t.Some? ==>
      && a < t.value < n && TriggerPreMoney(rounds[t.value]).Some?
      && forall u :: a < u < t.value ==> TriggerPreMoney(rounds[u]).None?
    ensures t.None? ==> forall u :: a < u < n ==> TriggerPreMoney(rounds[u]).None?
    decreases n
  {
    if n <= a + 1 then None
    else match FirstTrigger(rounds, a, n - 1)
      case Some(t) => Some(t)
      case None => if TriggerPreMoney(rounds[n - 1]).Some? then Some(n - 1) else None
  }

  /** The record of a SAFE after the first `n` rounds: converted at the first
      triggering round after it, if it is enabled and there is one. */
  function ExpectedSafe(rounds: seq<RoundInput>, rec: ProcessedSafe, n: nat): ProcessedSafe
    requires rec.originalIndex < |rounds| && n <= |rounds|
  {
    if rounds[rec.originalIndex].isEnabled then
      match FirstTrigger(rounds, rec.originalIndex, n)
      case Some(t) => Converted(rec, SafeEffectivePercent(rec.details, TriggerPreMoney(rounds[t]).value), rounds[t].name)
      case None => rec
    else rec
  }

  /** The dilution reported for round `k` after the first `n` rounds: a SAFE
      that has converted reports its effective percentage, every other round
      its input. */
  function ExpectedDilution(rounds: seq<RoundInput>, k: nat, n: nat): Option<real>
    requires k < |rounds| && n <= |rounds|
  {
    if rounds[k].roundType.Safe? && rounds[k].isEnabled then
      match FirstTrigger(rounds, k, n)
      case Some(t) => Some(SafeEffectivePercent(rounds[k], TriggerPreMoney(rounds[t]).value))
      case None => rounds[k].dilutionPercent
    else rounds[k].dilutionPercent
  }

  /** One round converts exactly the records pending at it, and only if it
      triggers. */
  lemma StepSafes(st: PassState, rounds: seq<RoundInput>, i: nat, p: Settings, j: nat)
    requires i < |rounds| && WellIndexed(st, rounds) && j < |st.safes|
    ensures Step(st, rounds, i, p).safes[j]
      == if rounds[i].isEnabled && TriggerPreMoney(rounds[i]).Some? && Pending(st.safes[j], rounds, i)
         then Converted(st.safes[j], SafeEffectivePercent(st.safes[j].details, TriggerPreMoney(rounds[i]).value), rounds[i].name)
         else st.safes[j]
  {
    var r := rounds[i];
    if r.isEnabled && TriggerPreMoney(r).Some? {
      var start := ConversionState(TopUp(st, r, p), st.safes, st.calculated);
      ConvertFirstSafeAt(start, rounds, i, TriggerPreMoney(r).value, r.name, |st.safes|, j);
    }
  }

  /** A trigger found before `n` is still the first one later on, and with
      none before `n` the next round is the first if it triggers. */
  lemma FirstTriggerStep(rounds: seq<RoundInput>, a: nat, n: nat)
    requires n < |rounds|
    ensures FirstTrigger(rounds, a, n).Some? ==> FirstTrigger(rounds, a, n + 1) == FirstTrigger(rounds, a, n)
    ensures FirstTrigger(rounds, a, n).None? ==>
      FirstTrigger(rounds, a, n + 1) == if a < n && TriggerPreMoney(rounds[n]).Some? then Some(n) else None
  {
  }

  /** A round moves a record from what the first `i` rounds make of it to
      what the first `i + 1` make of it. */
  lemma StepSafeRecord(st: PassState, rounds: seq<RoundInput>, i: nat, p: Settings, j: nat)
    requires i < |rounds| && WellIndexed(st, rounds)
    requires j < |st.safes| && j < |SafeRecords(rounds, |rounds|)|
    requires st.safes[j] == ExpectedSafe(rounds, SafeRecords(rounds, |rounds|)[j], i)
    ensures Step(st, rounds, i, p).safes[j] == ExpectedSafe(rounds, SafeRecords(rounds, |rounds|)[j], i + 1)
  {
    var rec := SafeRecords(rounds, |rounds|)[j];
    SafeRecordsFacts(rounds, |rounds|, j);
    StepSafes(st, rounds, i, p, j);
    FirstTriggerStep(rounds, rec.originalIndex, i);
  }

  /** Each SAFE converts at most once: after the first `n` rounds its record
      is converted exactly when it is enabled and a later round among them
      triggers conversion, and then at the first such round. */
  lemma {:induction false} PassSafes(rounds: seq<RoundInput>, p: Settings, n: nat, j: nat)
    requires n <= |rounds| && j < |SafeRecords(rounds, |rounds|)|
    ensures RunPass(rounds, p, n).safes[j] == ExpectedSafe(rounds, SafeRecords(rounds, |rounds|)[j], n)
  {
    if n == 0 {
      SafeRecordsFacts(rounds, |rounds|, j);
    } else {
      var m: nat :| m + 1 == n;
      PassSafes(rounds, p, m, j);
      PassSafesStep(rounds, p, m, j);
    }
  }

  lemma PassSafesStep(rounds: seq<RoundInput>, p: Settings, m: nat, j: nat)
    requires m < |rounds| && j < |SafeRecords(rounds, |rounds|)|
    requires RunPass(rounds, p, m).safes[j] == ExpectedSafe(rounds, SafeRecords(rounds, |rounds|)[j], m)
    ensures RunPass(rounds, p, m + 1).safes[j] == ExpectedSafe(rounds, SafeRecords(rounds, |rounds|)[j], m + 1)
  {
    StepSafeRecord(RunPass(rounds, p, m), rounds, m, p, j);
  }

  /** A converted record stays as it is: no later round revisits it. */
  lemma ConvertedStays(rounds: seq<RoundInput>, p: Settings, n: nat, m: nat, j: nat)
    requires n <= m <= |rounds| && j < |SafeRecords(rounds, |rounds|)|
    requires RunPass(rounds, p, n).safes[j].converted
    ensures RunPass(rounds, p, m).safes[j] == RunPass(rounds, p, n).safes[j]
  {
    var rec := SafeRecords(rounds, |rounds|)[j];
    SafeRecordsFacts(rounds, |rounds|, j);
    PassSafes(rounds, p, n, j);
    PassSafes(rounds, p, m, j);
    FirstTriggerFrom(rounds, rec.originalIndex, n, m);
  }

  lemma {:induction false} FirstTriggerFrom(rounds: seq<RoundInput>, a: nat, n: nat, m: nat)
    requires n <= m <= |rounds| && FirstTrigger(rounds, a, n).Some?
    ensures FirstTrigger(rounds, a, m) == FirstTrigger(rounds, a, n)
    decreases m
  {
    if n < m {
      FirstTriggerFrom(rounds, a, n, m - 1);
      FirstTriggerStep(rounds, a, m - 1);
    }
  }

  /** A round's effect on the dilution reported for the round of a SAFE
      record other than itself. */
  lemma StepDilutionOfSafe(st: PassState, rounds: seq<RoundInput>, i: nat, p: Settings, j: nat)
    requires i < |rounds| && WellIndexed(st, rounds) && j < |st.safes| && st.safes[j].originalIndex != i
    ensures Step(st, rounds, i, p).calculated[st.safes[j].originalIndex].dilutionPercent
      == if rounds[i].isEnabled && TriggerPreMoney(rounds[i]).Some? && Pending(st.safes[j], rounds, i)
         then Some(SafeEffectivePercent(st.safes[j].details, TriggerPreMoney(rounds[i]).value))
         else st.calculated[st.safes[j].originalIndex].dilutionPercent
  {
    var r := rounds[i];
    if r.isEnabled && TriggerPreMoney(r).Some? {
      var start := ConversionState(TopUp(st, r, p), st.safes, st.calculated);
      ConvertFirstCalculated(start, rounds, i, TriggerPreMoney(r).value, r.name, |st.safes|, j);
    }
  }

  /** A round leaves the dilution of a round without a SAFE record alone,
      unless it is itself. */
  lemma StepDilutionOther(st: PassState, rounds: seq<RoundInput>, i: nat, p: Settings, k: nat)
    requires i < |rounds| && WellIndexed(st, rounds) && k < |rounds| && k != i
    requires forall j :: 0 <= j < |st.safes| ==> st.safes[j].originalIndex != k
    ensures Step(st, rounds, i, p).calculated[k].dilutionPercent == st.calculated[k].dilutionPercent
  {
    var r := rounds[i];
    if r.isEnabled && TriggerPreMoney(r).Some? {
      var start := ConversionState(TopUp(st, r, p), st.safes, st.calculated);
      ConvertFirstOthers(start, rounds, i, TriggerPreMoney(r).value, r.name, |st.safes|, k);
    }
  }

  /** A round's effect on its own reported dilution: an enabled priced round
      and a disabled SAFE reset it to the input; otherwise it is kept, since
      conversion only reaches earlier rounds. */
  lemma StepDilutionOwn(st: PassState, rounds: seq<RoundInput>, i: nat, p: Settings)
    requires i < |rounds| && WellIndexed(st, rounds)
    ensures Step(st, rounds, i, p).calculated[i].dilutionPercent
      == if (rounds[i].isEnabled && rounds[i].roundType.Priced?) || (!rounds[i].isEnabled && rounds[i].roundType.Safe?)
         then rounds[i].dilutionPercent
         else st.calculated[i].dilutionPercent
  {
    if rounds[i].isEnabled && rounds[i].roundType.Safe? {
      assert Conversions(st, rounds, i, p).calculated == st.calculated;
    }
  }

  /** Every SAFE record is what the first `n` rounds make of it. */
  predicate SafesAsExpected(st: PassState, rounds: seq<RoundInput>, n: nat)
    requires n <= |rounds|
  {
    var recs := SafeRecords(rounds, |rounds|);
    |st.safes| == |recs| && forall j :: 0 <= j < |recs| ==> st.safes[j] == ExpectedSafe(rounds, recs[j], n)
  }

  lemma PassSafesAll(rounds: seq<RoundInput>, p: Settings, n: nat)
    requires n <= |rounds|
    ensures SafesAsExpected(RunPass(rounds, p, n), rounds, n)
  {
    forall j | 0 <= j < |SafeRecords(rounds, |rounds|)|
      ensures RunPass(rounds, p, n).safes[j] == ExpectedSafe(rounds, SafeRecords(rounds, |rounds|)[j], n)
    {
      PassSafes(rounds, p, n, j);
    }
  }

  /** One round's effect on the dilution of a SAFE's round other than
      itself. */
  lemma StepDilutionOfSafeRecord(st: PassState, rounds: seq<RoundInput>, i: nat, p: Settings, j: nat, rec: ProcessedSafe)
    requires i < |rounds| && WellIndexed(st, rounds) && j < |st.safes|
    requires rec.originalIndex < |rounds| && rec.originalIndex != i
    requires rec.details == rounds[rec.originalIndex] && rounds[rec.originalIndex].roundType.Safe? && !rec.converted
    requires st.safes[j] == ExpectedSafe(rounds, rec, i)
    requires st.calculated[rec.originalIndex].dilutionPercent == ExpectedDilution(rounds, rec.originalIndex, i)
    ensures Step(st, rounds, i, p).calculated[rec.originalIndex].dilutionPercent
      == ExpectedDilution(rounds, rec.originalIndex, i + 1)
  {
    assert st.safes[j].originalIndex == rec.originalIndex;
    StepDilutionOfSafe(st, rounds, i, p, j);
    SafeDilutionStep(rounds, i, rec, st.safes[j], st.calculated[rec.originalIndex].dilutionPercent,
                     Step(st, rounds, i, p).calculated[rec.originalIndex].dilutionPercent);
  }

  /** The bookkeeping behind the previous lemma, on plain values. */
  lemma SafeDilutionStep(rounds: seq<RoundInput>, i: nat, rec: ProcessedSafe, cur: ProcessedSafe,
                         before: Option<real>, after: Option<real>)
    requires i < |rounds| && rec.originalIndex < |rounds| && rec.originalIndex != i
    requires rec.details == rounds[rec.originalIndex] && rounds[rec.originalIndex].roundType.Safe? && !rec.converted
    requires cur == ExpectedSafe(rounds, rec, i)
    requires before == ExpectedDilution(rounds, rec.originalIndex, i)
    requires after == if rounds[i].isEnabled && TriggerPreMoney(rounds[i]).Some? && Pending(cur, rounds, i)
                      then Some(SafeEffectivePercent(cur.details, TriggerPreMoney(rounds[i]).value))
                      else before
    ensures after == ExpectedDilution(rounds, rec.originalIndex, i + 1)
  {
    FirstTriggerStep(rounds, rec.originalIndex, i);
  }

  /** One round moves the dilution of round `k` from what the first `i`
      rounds make of it to what the first `i + 1` make of it. */
  lemma StepDilution(st: PassState, rounds: seq<RoundInput>, i: nat, p: Settings, k: nat)
    requires i < |rounds| && WellIndexed(st, rounds) && k < |rounds| && SafesAsExpected(st, rounds, i)
    requires st.calculated[k].dilutionPercent == ExpectedDilution(rounds, k, i)
    ensures Step(st, rounds, i, p).calculated[k].dilutionPercent == ExpectedDilution(rounds, k, i + 1)
  {
    FirstTriggerStep(rounds, k, i);
    if k == i {
      StepDilutionOwn(st, rounds, i, p);
    } else if rounds[k].roundType.Safe? {
      var j := SafeRecordFor(rounds, |rounds|, k);
      SafeRecordsFacts(rounds, |rounds|, j);
      StepDilutionOfSafeRecord(st, rounds, i, p, j, SafeRecords(rounds, |rounds|)[j]);
    } else {
      forall j | 0 <= j < |st.safes|
        ensures st.safes[j].originalIndex != k
      {
        SafeRecordsFacts(rounds, |rounds|, j);
      }
      StepDilutionOther(st, rounds, i, p, k);
    }
  }

  /** The dilution each calculated round reports after the first `n` rounds;
      for a converted SAFE this is the effective percentage written back to
      it. */
  lemma {:induction false} PassDilution(rounds: seq<RoundInput>, p: Settings, n: nat, k: nat)
    requires n <= |rounds| && k < |rounds|
    ensures RunPass(rounds, p, n).calculated[k].dilutionPercent == ExpectedDilution(rounds, k, n)
  {
    if n > 0 {
      var m: nat :| m + 1 == n;
      PassDilution(rounds, p, m, k);
      PassSafesAll(rounds, p, m);
      PassDilutionStep(rounds, p, m, k);
    }
  }

  lemma PassDilutionStep(rounds: seq<RoundInput>, p: Settings, m: nat, k: nat)
    requires m < |rounds| && k < |rounds| && SafesAsExpected(RunPass(rounds, p, m), rounds, m)
    requires RunPass(rounds, p, m).calculated[k].dilutionPercent == ExpectedDilution(rounds, k, m)
    ensures RunPass(rounds, p, m + 1).calculated[k].dilutionPercent == ExpectedDilution(rounds, k, m + 1)
  {
    StepDilution(RunPass(rounds, p, m), rounds, m, p, k);
  }
}
