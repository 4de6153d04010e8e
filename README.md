# Cap-table engine of the Startup Fundraising Simulator, in Dafny

This project models `calculateAllRounds` and its three valuation helpers
(`src/lib/calculations.ts`) and proves properties of the model. Given an
ordered list of funding rounds, the engine does the following.

- It starts from the founders' initial stake.
- Before an enabled round that is neither a SAFE nor the Exit, it tops up the employee option pool (ESOP). This happens only when the round's target (its own pool percentage, or the default) is positive and above the current pool.
- An enabled priced round that is not the Exit and has a size and a nonzero dilution converts every earlier pending SAFE, using its valuation cap and/or discount.
- An enabled priced round that is not the Exit changes the ownership in two cases:
  - With a size and a dilution strictly between 0 and 100, it scales every holder by (100 − dilution)/100 and adds its investors at the dilution.
  - With a multiple, a positive size and a dilution of exactly 100, it sets every holder to 0 and gives its investors 100 percent.
  - Any other priced round, and the Exit, leaves the ownership unchanged.
- Each enabled round pushes a copy of the ownership list as a stage. A disabled Exit round also pushes one.
- The engine reports each round's pre-money, post-money and required ARR (annual recurring revenue).
- Finally it runs a liquidation-preference waterfall over the Exit stage. When claims exceed the exit value, they are prorated.
- It copies every holder's exit value, invested amount and return multiple back onto the earlier stages.

## Layout

| file | module | contents |
|---|---|---|
| options.dfy | Options | `Option` |
| types.dfy | Types | round inputs, calculated rounds, shares, stages, SAFE records; holder display names and the `/ Investors(?: \(SAFE\))?$/` strip |
| valuation.dfy | Valuation | `calculatePreMoney`, `calculatePostMoney`, `calculateRequiredARR` |
| ownership.dfy | Ownership | the live ownership list as a value and the operations on it: dilution, ESOP top-up, SAFE conversion, renormalization |
| conversion.dfy | Conversion | SAFE terms, effective percentage, and the pass over the pending SAFEs |
| rounds.dfy | Rounds | per-round figures and the running post-money valuation |
| pass.dfy | Pass | the forward pass over the rounds, as a function of the number of rounds done |
| pass_properties.dfy | PassProperties | invariants and closed forms of the pass |
| waterfall.dfy | Waterfall | claims, proration, multiples, back-fill |
| calculations.dfy | Calculations | the whole engine, with what it guarantees about its result |
| scenario.dfy | Scenario | the whole engine run on the scenario of test-calculations.js |
| engine.dfy | Engine | the engine as the source runs it. Its loops update sequences in place, and each method is proved to compute the function of the same name. |

The ownership list, the SAFE records, the calculated rounds and the stages are sequences. The source's loops update them in place, and the methods in `Engine` reassign them. Snapshots are deep copies in the source (`map(s => ({...s}))`), so a stage is a value and no two stages share a share object.

Holders are a datatype: `Founders | Esop | Investors(round) | SafeInvestors(round)`. `Types.ShareName` gives the display name the source uses as identity. `Types.ShareNameInjective` proves that comparing holders is the same as comparing names. Amounts and percentages are `real`. `Infinity` as a return multiple is the `Infinite` variant, and an undefined multiple is `Unset`.

### Where the code and its documented behaviour differ (the model follows the code)

- A disabled round other than Exit pushes no stage. Only a disabled Exit snapshots (calculations.ts:85-104).
- The running-valuation fallback for a priced round runs only when the round has both a revenue multiple and a size (calculations.ts:260). Its 100 percent wipe-out is therefore skipped for a round with no multiple.
- A disabled Exit with a size overwrites the running valuation with that size (calculations.ts:97-98).
  - Its pre-money is then computed from the overwritten value, so it is always 0.
  - Only an enabled Exit leaves the running valuation alone.

## Model

| member | source | states |
|---|---|---|
| Valuation.PreMoney | src/lib/calculations.ts:3-9 | None exactly when the dilution is 0; otherwise the new money is exactly `dilution` percent of pre + size |
| Valuation.PostMoney | src/lib/calculations.ts:11-14 | None exactly when pre-money is None; otherwise post − size = pre |
| Valuation.RequiredARR | src/lib/calculations.ts:16-21 | None exactly when post or the multiple is missing or the multiple is 0; otherwise ARR × multiple = post |
| Valuation.PreMoneyDegenerateCases | src/lib/calculations.ts:3-9 | zero dilution gives None, a zero round gives 0, otherwise pre = size·100/d − size |
| Valuation.DilutionRoundTrip | src/lib/calculations.ts:3-14 | pricing a round from its dilution and reading back size/post gives the dilution again |
| Valuation.HelperExamples | src/lib/calculations.ts:3-14 | (1,000,000, 20) → 4,000,000; (1,000,000, 0) → None; (0, 20) → 0; post of 4,000,000 + 1,000,000 is 5,000,000; post of None is None |
| Types.ShareNameInjective | src/lib/calculations.ts:362 | two holders with the same display name are the same holder, so lookups by name are lookups by holder |
| Types.StripInvestorSuffixOfShareName | src/lib/calculations.ts:307 | the regex strip turns " Investors" and " Investors (SAFE)" names back into their round's name and leaves Founders and ESOP alone |
| Ownership.Find | src/lib/calculations.ts:141 | the first share held by the holder, or None when there is none |
| Ownership.EsopTopUp | src/lib/calculations.ts:118-156 | the list is unchanged unless the target is positive and above the ESOP total; it never loses an entry |
| Ownership.SetEsop | src/lib/calculations.ts:141-146 | updates the ESOP entry in place when there is one, else appends one |
| Ownership.Renormalize | src/lib/calculations.ts:148-154 | a list scaled to total 100 when its total is positive and not 100 |
| Ownership.TotalScale | src/lib/calculations.ts:148-154 | scaling every share by f scales the total by f |
| Ownership.TotalScaleNonEsop | src/lib/calculations.ts:126-133 | scaling the non-ESOP shares by f scales their total by f and keeps the ESOP total |
| Ownership.SetEsopFacts | src/lib/calculations.ts:141-146 | with a single ESOP entry, ESOP ends at exactly the target, the total moves by target − old ESOP, no other holder changes, and the ESOP stays single |
| Ownership.RenormalizeFacts | src/lib/calculations.ts:148-154 | renormalization keeps holders, order and the single ESOP entry, and a positive total becomes 100 |
| Ownership.EsopDilutedFacts | src/lib/calculations.ts:123-139 | the pre-top-up dilution keeps holders and the ESOP total, and leaves room for the target in a list summing to 100 |
| Ownership.EsopDilutedClosedForm | src/lib/calculations.ts:123-139 | below a full pool, a list summing to 100 is diluted to exactly 100 − target outside the pool |
| Ownership.EsopDilutedShape | src/lib/calculations.ts:126-139 | both dilution branches are the same scaling by (100 − target)/(100 − esop): of the non-ESOP holders when there is a pool, of everyone when there is none |
| Ownership.EsopTopUpEvolves | src/lib/calculations.ts:113-157 | the top-up keeps every entry in place, keeps a single ESOP entry single, resolves no exit value, and keeps a total of 100 at 100 |
| Ownership.EsopTopUpReachesTarget | src/lib/calculations.ts:118-156 | from a list summing to 100 with a pool below the target, ESOP ends at exactly the target, the total stays 100, the renormalization is a no-op, and exactly one ESOP entry is created or updated |
| Ownership.EsopTopUpScalesOthers | src/lib/calculations.ts:123-139 | under the same conditions every other holder ends at (100 − target)/(100 − esop) times its share |
| Ownership.DiluteFacts | src/lib/calculations.ts:249-257 | a dilution by d scales every holder by (100 − d)/100, appends exactly one new entry with d percent and the invested amount, and keeps a total of 100 at 100 |
| Ownership.ClampedConversionExact | src/lib/calculations.ts:199-220 | at 100 percent or more the clamped conversion leaves everyone at 0 and the SAFE at 100; the excess correction never changes anything |
| Ownership.ConvertSafeEvolves | src/lib/calculations.ts:188-221 | a SAFE conversion keeps the list well formed and a total of 100 at 100, whatever its effective percentage |
| Ownership.FullDilutionFacts | src/lib/calculations.ts:268-275 | the 100 percent round zeroes everyone, appends the investors at 100, and totals 100 |
| Ownership.PricedRoundOwnershipEvolves | src/lib/calculations.ts:241-278 | every branch of a priced round keeps the list well formed and a total of 100 at 100 |
| Ownership.FindSameHolders | src/lib/calculations.ts:141 | a lookup by holder depends only on the holders of the list |
| Conversion.ConversionValuation | src/lib/calculations.ts:167-176 | the lower of the cap (when positive) and the discounted pre-money (when the discount and the pre-money are positive); None when neither applies |
| Conversion.EffectivePercent | src/lib/calculations.ts:178-186 | in [0, 100); positive exactly when there is a positive valuation and a positive investment, and then eff·(valuation + investment) = investment·100 |
| Conversion.TriggerPreMoney | src/lib/calculations.ts:160-163 | some pre-money exactly for an enabled priced non-Exit round with size and nonzero dilution, priced as `calculatePreMoney` |
| Conversion.ConvertOneIsDilution | src/lib/calculations.ts:188-221 | a SAFE conversion is a plain dilution by its effective percentage or, at 0, no change; the clamping branch cannot be reached |
| Conversion.CapBindsExample | src/lib/calculations.ts:167-186 | a 500,000 SAFE with a 6,000,000 cap and a 20 percent discount, in a round priced at 40,000,000, converts at the cap to 100/13 percent |
| Conversion.ConvertFirst | src/lib/calculations.ts:164-225 | the pass over the first k SAFE records keeps the number of records and of calculated rounds, each record's round index and details, and the records' fit with the calculated rounds; it changes the calculated rounds only in their dilution |
| Conversion.ConversionStep | src/lib/calculations.ts:165-224 | one SAFE's handling keeps the records' indices and details and changes only the dilution of calculated rounds |
| Conversion.ConvertFirstSafes | src/lib/calculations.ts:164-225 | after the pass, each record that was pending has converted at this round's effective percentage, under this round's name; the others are untouched |
| Conversion.ConvertFirstCalculated | src/lib/calculations.ts:222-224 | the round of each converted SAFE reports its effective percentage; the others keep theirs |
| Conversion.ConvertFirstOthers | src/lib/calculations.ts:164-225 | a calculated round that is not a SAFE's is untouched by the pass |
| Conversion.ConvertFirstEvolves | src/lib/calculations.ts:164-225 | the pass keeps the live list well formed and a total of 100 at 100 |
| Rounds.DisabledFigures | src/lib/calculations.ts:85-103 | no figures, except that a disabled Exit with a size reports it as post-money, with 0 pre-money and no ARR |
| Rounds.EnabledFigures | src/lib/calculations.ts:230-279 | a SAFE reports no figures; a reported ARR times the multiple is the post-money |
| Rounds.PricedFigures | src/lib/calculations.ts:241-248 | a round priced from its dilution has post = pre + size, the round buys exactly d percent of post, and ARR is present exactly when the multiple is nonzero |
| Rounds.FallbackFigures | src/lib/calculations.ts:259-266 | otherwise, with a size and a multiple, post grows the running valuation by a positive round and pre = post − size; without both there are no figures |
| Rounds.ExitFigures | src/lib/calculations.ts:234-239 | an enabled Exit has pre = the running valuation and post = its size (0 when unset), with ARR only for a nonzero multiple |
| Rounds.LastPostUntouched | src/lib/calculations.ts:293-295 | an enabled Exit, an enabled SAFE and a disabled non-Exit round leave the running valuation alone |
| Rounds.LastPostTaken | src/lib/calculations.ts:293-295 | every other enabled round with a post-money sets the running valuation to it |
| Rounds.LastPostCarries | src/lib/calculations.ts:96-98 | the running valuation set by a round is carried unchanged across later rounds that keep it |
| Rounds.FiguresExample | src/lib/calculations.ts:241-248 | a 1,000,000 round for 20 percent at a 10x multiple is priced at 4,000,000 pre, 5,000,000 post, and needs 500,000 ARR |
| Pass.InitialCalculated | src/lib/calculations.ts:49-56 | one calculated entry per round, in order |
| Pass.SafeRecords | src/lib/calculations.ts:58-68 | records in round order, pointing into the rounds |
| Pass.EsopTarget | src/lib/calculations.ts:114-116 | the round's option pool when set and not negative, else the default |
| Pass.Step | src/lib/calculations.ts:81-295 | one round keeps the SAFE records' count and their fit with the calculated rounds |
| Pass.RunPass | src/lib/calculations.ts:81-296 | the state after n rounds fits the rounds |
| PassProperties.SafeRecordsFacts | src/lib/calculations.ts:58-68 | each record is an unconverted copy of a SAFE round at its own index |
| PassProperties.SafeRecordFor | src/lib/calculations.ts:58-68 | every SAFE round has a record |
| PassProperties.StepOwnership | src/lib/calculations.ts:105-291 | a round's ownership changes are a later state of the live list, and it snapshots the result exactly when it is enabled or is a disabled Exit |
| PassProperties.StepSound | src/lib/calculations.ts:81-295 | a round keeps the live list and every snapshot well formed: a single ESOP, no exit values, and a total of 100 when the founders start at 100 |
| PassProperties.InitialSound | src/lib/calculations.ts:70-77 | the initial state is well formed |
| PassProperties.PassSound | src/lib/calculations.ts:81-296 | every list the pass produces, live or snapshot, is well formed; with founders at 100 every stage sums to 100 |
| PassProperties.StepStageNames | src/lib/calculations.ts:92-95 | a round appends its own name when it emits a stage and keeps the Initial stage |
| PassProperties.PassStageNames | src/lib/calculations.ts:74-77 | the stages are Initial with the founders alone, then one per enabled round or disabled Exit, in order |
| PassProperties.StepStages | src/lib/calculations.ts:288-291 | a round appends at most one stage and changes none of the others (the old stages are a prefix of the new, which is at most one longer) |
| PassProperties.PassStagesPrefix | src/lib/calculations.ts:288-291 | a later round never changes a stage already pushed |
| PassProperties.StepInputs | src/lib/calculations.ts:81-287 | a round changes only figures and dilutions of calculated rounds |
| PassProperties.PassInputs | src/lib/calculations.ts:49-56 | each calculated round carries its own input |
| PassProperties.PassLastPost | src/lib/calculations.ts:79-98 | the running valuation after n rounds is the one those rounds determine |
| PassProperties.StepLastPost | src/lib/calculations.ts:293-295 | a round moves the running valuation exactly as `NextLastPost` says |
| PassProperties.StepFigures | src/lib/calculations.ts:280-282 | a round writes its own figures and no other round's |
| PassProperties.PassFigures | src/lib/calculations.ts:81-295 | each reached round reports the figures that the running valuation before it determines; unreached rounds report none |
| PassProperties.FirstTrigger | src/lib/calculations.ts:160-165 | the first later round that triggers conversion, or None when there is none |
| PassProperties.StepSafes | src/lib/calculations.ts:164-165 | one round converts exactly the records pending at it, and only if it triggers conversion |
| PassProperties.FirstTriggerStep | src/lib/calculations.ts:160-165 | a trigger found earlier stays the first, and with none the next round is the first when it triggers |
| PassProperties.StepSafeRecord | src/lib/calculations.ts:164-224 | a round moves a record from what the first i rounds make of it to what the first i + 1 make of it |
| PassProperties.PassSafes | src/lib/calculations.ts:164-224 | each SAFE converts at most once, exactly when it is enabled and a later round triggers conversion, and then at the first such round, under its name |
| PassProperties.ConvertedStays | src/lib/calculations.ts:165 | a converted record is never revisited by a later round |
| PassProperties.FirstTriggerFrom | src/lib/calculations.ts:160-165 | once found, the first trigger stays the same for all later prefixes of the rounds |
| PassProperties.StepDilutionOfSafe | src/lib/calculations.ts:224 | a round's effect on the dilution reported for another SAFE's round |
| PassProperties.StepDilutionOther | src/lib/calculations.ts:222-224 | a round leaves the dilution of another round without a SAFE record alone |
| PassProperties.StepDilutionOwn | src/lib/calculations.ts:89-91 | an enabled priced round and a disabled SAFE reset their own dilution to the input; otherwise it is kept |
| PassProperties.PassSafesAll | src/lib/calculations.ts:164-224 | every SAFE record after n rounds is as `ExpectedSafe` says |
| PassProperties.StepDilution | src/lib/calculations.ts:222-286 | one round moves the dilution of round k from its value after i rounds to its value after i + 1 |
| PassProperties.PassDilution | src/lib/calculations.ts:222-286 | each round reports its input dilution, except a converted SAFE, which reports its effective percentage at its first trigger |
| Waterfall.FindRound | src/lib/calculations.ts:308 | the first round with the name, or None |
| Waterfall.InvestorTerms | src/lib/calculations.ts:304-318 | a round's investor group, priced or SAFE, takes that round's preference type (or the default) and multiple (or 1) |
| Waterfall.ClaimFacts | src/lib/calculations.ts:320-332 | a non-participating holder claims the larger of its preference and its common share, a participating one the sum, and any other holder its common share |
| Waterfall.CommonHoldersClaim | src/lib/calculations.ts:310-311 | Founders and ESOP claim their common share and nothing more, whatever the settings |
| Waterfall.Claims | src/lib/calculations.ts:303-333 | one claim per Exit share |
| Waterfall.Payouts | src/lib/calculations.ts:337-349 | one payout per claim |
| Waterfall.SumPayouts | src/lib/calculations.ts:335-349 | the payouts against a positive total sum to the claims scaled by exit/total when the total exceeds the exit value, and to the claims themselves otherwise |
| Waterfall.PayoutsTotal | src/lib/calculations.ts:335-349 | the waterfall pays out exactly the smaller of the total claim and the exit value |
| Waterfall.PayoutOrder | src/lib/calculations.ts:339-349 | proration keeps the order of the claims, never pays more than a non-negative claim, and pays every claim in full when the total is within the exit value |
| Waterfall.MultipleOf | src/lib/calculations.ts:350-357 | value/invested when invested > 0 (multiple × invested = value); Infinite exactly when nothing was invested and something is received; otherwise 0 |
| Waterfall.Resolve | src/lib/calculations.ts:337-357 | a share with its value and multiple set, and its holder, percentage and invested amount kept |
| Waterfall.ResolveExitSharesFacts | src/lib/calculations.ts:302-358 | the Exit snapshot keeps holders, percentages and invested amounts; its values are the prorated claims; their total is the smaller of the total claim and the exit value, or 0 when nothing is claimed |
| Waterfall.FindStage | src/lib/calculations.ts:298 | the first stage with the name, or None |
| Waterfall.ResolveStagesKeepsHoldings | src/lib/calculations.ts:298-386 | the waterfall keeps every stage's name, holders, percentages and total |
| Waterfall.ResolveStagesPays | src/lib/calculations.ts:301-370 | with a positive exit value, the first Exit stage pays out the smaller of its claim and the exit value, and every other non-Exit stage takes value, invested amount and multiple from the Exit share of the same holder, leaving holders not at Exit untouched |
| Waterfall.ResolveStagesZero | src/lib/calculations.ts:371-386 | without an Exit stage or a positive exit value, nobody receives anything in any stage |
| Calculations.CalculateAllRounds | src/lib/calculations.ts:43-389 | one calculated round per input round |
| Calculations.CalculatedRoundFacts | src/lib/calculations.ts:49-295 | every calculated round is its input with the dilution the engine reports (a converted SAFE's effective percentage) and the figures set by the running valuation before it |
| Calculations.FindEnabledExit | src/lib/calculations.ts:299 | the first enabled round named Exit, or None |
| Calculations.ExitValuationOf | src/lib/calculations.ts:299 | the exit value is the post-money of the first enabled round named Exit, or 0 |
| Calculations.ExitValue | src/lib/calculations.ts:234-299 | the exit value is the size of the first enabled Exit; it is 0 when that round is a SAFE, has no size, or there is no such round |
| Calculations.SingleEsopOfHolders | src/lib/calculations.ts:298-386 | two lists with the same holders either both have at most one ESOP entry or neither does, so the waterfall, which keeps holders, keeps that property |
| Calculations.OwnershipStagesFacts | src/lib/calculations.ts:74-386 | stage count and names are Initial plus one per enabled round or disabled Exit, the Initial stage holds the founders alone, every stage has at most one ESOP entry, and with founders at 100 every stage sums to 100 |
| Calculations.FindStageOfNames | src/lib/calculations.ts:298 | the Exit stage is found at the same place before and after the waterfall |
| Calculations.ExitPayouts | src/lib/calculations.ts:301-370 | with an Exit stage and a positive exit value, its holders get in all the smaller of their total claim and the exit value, and every other non-Exit stage reports each holder's value, invested amount and multiple from the Exit stage (value 0 for a holder absent there) |
| Calculations.NoExitNoValue | src/lib/calculations.ts:371-386 | with no Exit stage or no positive exit value, every value at exit in every stage is 0 |
| Engine.SumPercentages | src/lib/calculations.ts:148 | the `reduce` computes exactly `Total` |
| Engine.SumEsop | src/lib/calculations.ts:119-120 | the ESOP sum computes exactly `EsopTotal` |
| Engine.FindShare | src/lib/calculations.ts:141 | the `find` computes exactly `Find` |
| Engine.ScaleShares | src/lib/calculations.ts:136-138 | the `forEach` scaling computes exactly `Scale` |
| Engine.ScaleNonEsopShares | src/lib/calculations.ts:129-133 | the loop that skips ESOP computes exactly `ScaleNonEsop` |
| Engine.ZeroShares | src/lib/calculations.ts:269 | computes exactly `ZeroAll` |
| Engine.ZeroFoundersAndEsopShares | src/lib/calculations.ts:211-214 | computes exactly `ZeroFoundersAndEsop` |
| Engine.DiluteShares | src/lib/calculations.ts:249-257 | computes exactly `Dilute` |
| Engine.TopUpEsop | src/lib/calculations.ts:118-156 | the in-place top-up computes exactly `EsopTopUp`, so every top-up lemma holds of it |
| Engine.ConvertSafeShares | src/lib/calculations.ts:188-221 | the in-place conversion computes exactly `ConvertSafe` |
| Engine.ConvertSafes | src/lib/calculations.ts:164-225 | the loop over the SAFE records computes exactly `ConvertPending` |
| Engine.PricedRound | src/lib/calculations.ts:240-279 | a priced non-Exit round's ownership and figures are exactly `PricedRoundOwnership` and `EnabledFigures` |
| Engine.ProcessRound | src/lib/calculations.ts:82-295 | the loop body computes exactly `Step` |
| Engine.FindRoundIndex | src/lib/calculations.ts:308 | computes exactly `FindRound` |
| Engine.HolderTerms | src/lib/calculations.ts:304-318 | computes exactly `LpTerms` |
| Engine.HolderClaim | src/lib/calculations.ts:320-332 | computes exactly `Claim` |
| Engine.ComputeClaims | src/lib/calculations.ts:303-333 | computes exactly `Claims` |
| Engine.SumClaims | src/lib/calculations.ts:335 | computes exactly `Sum` |
| Engine.ResolveShare | src/lib/calculations.ts:338-357 | computes exactly `Resolve` at `Payout` |
| Engine.ResolveExit | src/lib/calculations.ts:302-358 | computes exactly `ResolveExitShares` |
| Engine.BackFillShares | src/lib/calculations.ts:361-369 | computes exactly `BackFill` |
| Engine.BackFillAll | src/lib/calculations.ts:359-370 | computes exactly `BackFillStages` |
| Engine.ZeroExit | src/lib/calculations.ts:373-376 | computes exactly `ZeroExitShares` |
| Engine.ZeroBackFillAll | src/lib/calculations.ts:377-385 | computes exactly `ZeroBackFillStages` |
| Engine.FindStageIndex | src/lib/calculations.ts:298 | computes exactly `FindStage` |
| Engine.FinalExitValuation | src/lib/calculations.ts:299 | computes exactly `ExitValuation` |
| Engine.RunWaterfall | src/lib/calculations.ts:298-386 | computes exactly `ResolveStages` |
| Engine.CalculateAll | src/lib/calculations.ts:43-389 | the whole engine, with the invariant that the running state after i rounds is `RunPass(i)`, returns exactly `CalculateAllRounds`, so every lemma of `Calculations` and `PassProperties` holds of its result |
| Scenario.ScenarioExample | test-calculations.js:21-93 | a $500,000 SAFE (6M cap, 20% discount), a $10M Series A for 20% with a 15% pool, and a $100M exit: at the Series A stage Founders 816/13, ESOP 144/13, SAFE investors 80/13 and Series A 20 percent, summing to 100, and the Pre-Seed stage reports Founders' exit value from the Exit stage, 816,000,000/13 |

## Left out

- `console.warn` (calculations.ts:179, 182, 200): logging only, it affects no result.
- Floating point: amounts and percentages are exact reals. The model therefore does not capture rounding drift, the `currentSum !== 100` renormalization firing on drift alone, or `NaN`.
  - `(s as any)._provisionalPayout || 0` is the claim itself, since no real is `NaN`.
- The display-only and governance fields of a round are not part of `RoundInput`. These are the pre-money, post-money and ARR as typed, plus `proRataRights`, `antiDilution`, `investorBoardSeats`, `protectiveProvisions` and `dragAlongRights`. The engine never reads them.
- Everything outside `src/lib/calculations.ts` (the React components, the PDF report, the tips, the thumbnail script) renders or stores the engine's output and is not part of this model.
- The temporary `_provisionalPayout` field is a separate sequence of claims, built by `Engine.ComputeClaims`.
- Holders are identified by a datatype instead of a string. That identification is sound because `Types.ShareNameInjective` proves display names injective. A round could be named so that its investors' name equals "Founders" or "ESOP" only if "Founders" or "ESOP" ended in " Investors", which they do not.
- The clamping branch for an effective percentage of 100 or more (calculations.ts:199-220) is modelled as written, but it cannot be reached, because `Conversion.EffectivePercent` is always below 100 for a positive valuation and investment.
  - `Conversion.ConvertOneIsDilution` proves it dead, and `Ownership.ClampedConversionExact` shows that its excess correction would never change anything either.
- Only the first stage named Exit is resolved, as in the source (`findIndex`). A second stage named Exit keeps its snapshot values, because the back-fill skips every stage named Exit.
- `returnMultiple` for an Exit share whose invested amount is `undefined`: every share the engine creates has a number there, so the `undefined` alternatives in calculations.ts:350-352 are not modelled.
- In-place mutation: the methods of `Engine` reassign sequences instead of mutating objects in place. Snapshots are deep copies in the source, so no aliasing between stages is lost. The in-place effect shows up in the methods' loop invariants, which state the prefix already updated and the suffix still untouched.
- Ownership.EsopTopUpScalesOthers: the independent claim that a larger pool target leaves every other holder strictly less is not stated as a lemma of its own. It follows from this lemma's closed form, `p * (100 - target) / (100 - esop)`. The promise is strict only for a holder with a positive share, for t1 < t2 with t2 above the pool, since the closed form leaves a zero share at zero.
