/** Data model of the cap-table engine: round inputs, calculated rounds,
    stakeholder shares and ownership stages (src/lib/types.ts), and the
    display names that the engine uses as stakeholder identities. */
module Types {
  import opened Options

  /** `roundType`. The engine only ever tests for 'SAFE'; an unset type
      behaves exactly as 'Priced'. */
  datatype RoundType = Safe | Priced

  /** `lpType` when set; an unset type defers to the global default. */
  datatype LpType = NonParticipating | Participating

  /** One financing event as entered by the user. The display-only fields
      (pre/post-money and required ARR as typed in, and the governance
      terms) are never read by the engine and are not part of this record. */
  datatype RoundInput = RoundInput(
    name: string,
    roundSize: Option<real>,
    dilutionPercent: Option<real>,
    arrMultiple: Option<real>,
    isEnabled: bool,
    roundType: RoundType,
    valuationCap: Option<real>,
    discountRate: Option<real>,
    lpType: Option<LpType>,
    lpMultiple: Option<real>,
    optionPoolPercent: Option<real>)

  /** A round as reported back: the input, the dilution the engine reports
      for it (a SAFE's effective dilution once converted) and its
      valuation figures. */
  datatype CalculatedRound = CalculatedRound(
    input: RoundInput,
    dilutionPercent: Option<real>,
    preMoneyValuation: Option<real>,
    postMoneyValuation: Option<real>,
    requiredARR: Option<real>)

  /** Stakeholder identity. The engine identifies holders by display name;
      `ShareName` below is that name and is injective, so comparing holders
      is comparing names. */
  datatype Holder = Founders | Esop | Investors(round: string) | SafeInvestors(round: string)

  /** `returnMultiple`: unset (undefined), a finite multiple, or Infinity. */
  datatype ReturnMultiple = Unset | Finite(multiple: real) | Infinite

  datatype Share = Share(
    holder: Holder,
    percentage: real,
    valueAtExit: real,
    investedAmount: real,
    returnMultiple: ReturnMultiple)

  datatype Stage = Stage(stageName: string, shares: seq<Share>)

  /** Book-keeping for one SAFE round while the main pass runs. */
  datatype ProcessedSafe = ProcessedSafe(
    originalIndex: nat,
    details: RoundInput,
    converted: bool,
    effectiveDilutionPercent: Option<real>,
    conversionStageName: Option<string>)

  const ExitName: string := "Exit"
  const InitialStageName: string := "Initial"
  const InvestorsSuffix: string := " Investors"
  const SafeSuffix: string := " Investors (SAFE)"

  /** The display name under which the engine files a holder. */
  function ShareName(h: Holder): string {
    match h
    case Founders => "Founders"
    case Esop => "ESOP"
    case Investors(r) => r + InvestorsSuffix
    case SafeInvestors(r) => r + SafeSuffix
  }

  predicate EndsWith(s: string, suffix: string) {
    |suffix| <= |s| && s[|s| - |suffix|..] == suffix
  }

  /** `name.replace(/ Investors(?: \(SAFE\))?$/, '')`. A match must end at the
      end of the name, so it is one of the two suffixes; they end in different
      characters, so at most one of them is present and the replacement
      removes exactly that one. */
  function StripInvestorSuffix(name: string): string {
    if EndsWith(name, SafeSuffix) then name[..|name| - |SafeSuffix|]
    else if EndsWith(name, InvestorsSuffix) then name[..|name| - |InvestorsSuffix|]
    else name
  }

  /** No two holders share a display name. */
  lemma ShareNameInjective(h1: Holder, h2: Holder)
    requires ShareName(h1) == ShareName(h2)
    ensures h1 == h2
  {
    var n := ShareName(h1);
    match h1
    case Founders =>
    case Esop =>
    case Investors(a) =>
      assert n[|n| - 1] == 's';
      match h2 {
        case Investors(b) =>
          assert a == n[..|a|] && b == n[..|b|];
        case SafeInvestors(b) =>
        case Founders =>
        case Esop =>
      }
    case SafeInvestors(a) =>
      assert n[|n| - 1] == ')';
      match h2 {
        case SafeInvestors(b) =>
          assert a == n[..|a|] && b == n[..|b|];
        case Investors(b) =>
        case Founders =>
        case Esop =>
      }
  }

  /** Stripping the investor suffix from an investor group's name gives back
      the name of the round it came from; Founders and ESOP are left as they are. */
  lemma StripInvestorSuffixOfShareName(h: Holder)
    ensures h.Investors? ==> StripInvestorSuffix(ShareName(h)) == h.round
    ensures h.SafeInvestors? ==> StripInvestorSuffix(ShareName(h)) == h.round
    ensures h == Founders || h == Esop ==> StripInvestorSuffix(ShareName(h)) == ShareName(h)
  {
    var n := ShareName(h);
    match h
    case Founders =>
    case Esop =>
    case Investors(r) =>
      assert n[|n| - |InvestorsSuffix|..] == InvestorsSuffix;
      assert n[|n| - 1] == 's';
      assert !EndsWith(n, SafeSuffix);
      assert n[..|n| - |InvestorsSuffix|] == r;
    case SafeInvestors(r) =>
      assert n[|n| - |SafeSuffix|..] == SafeSuffix;
      assert n[..|n| - |SafeSuffix|] == r;
  }
}
