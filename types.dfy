/** The records and enumerations of the application (`types.ts`). */
module Types {
  import opened Wrappers

  /** The four top-level modes of the application. */
  datatype AppSection = Incorporate | Promote | Manage | Measure {
    /** The string value each enumeration member carries. */
    function Name(): string {
      match this
      case Incorporate => "Incorporate"
      case Promote => "Promote"
      case Manage => "Manage"
      case Measure => "Measure"
    }
  }

  /** The four string values are distinct, so a section is determined by its value. */
  lemma SectionNameInjective(a: AppSection, b: AppSection)
    ensures a.Name() == b.Name() ==> a == b
  {
  }

  /** The wizard steps; `Value()` is the number each member stands for. */
  datatype Step =
    | Onboarding | MissionName | BoardFormation | Incorporation | EIN | Bylaws
    | FederalTaxExemption | StateTaxExemption | Branding | Maintenance
    | BrandIdentity | OnlinePresence | AcceptDonations | Fundraising | GrantSearch
    | FederalFiling | StateReport | BoardMeetings | Bookkeeping | ComplianceCheck
    | MeasureDashboard | ImpactTracking | DonorAnalytics | CustomReports
  {
    function Value(): (n: int)
      ensures IsStepNumber(n)
    {
      match this
      case Onboarding => 0
      case MissionName => 1
      case BoardFormation => 2
      case Incorporation => 3
      case EIN => 4
      case Bylaws => 5
      case FederalTaxExemption => 6
      case StateTaxExemption => 7
      case Branding => 8
      case Maintenance => 9
      case BrandIdentity => 100
      case OnlinePresence => 101
      case AcceptDonations => 102
      case Fundraising => 103
      case GrantSearch => 104
      case FederalFiling => 200
      case StateReport => 201
      case BoardMeetings => 202
      case Bookkeeping => 203
      case ComplianceCheck => 204
      case MeasureDashboard => 300
      case ImpactTracking => 301
      case DonorAnalytics => 302
      case CustomReports => 303
    }
  }

  /** The numbers the `Step` enumeration defines. */
  predicate IsStepNumber(n: int) {
    0 <= n <= 9 || 100 <= n <= 104 || 200 <= n <= 204 || 300 <= n <= 303
  }

  /** The test `n in Step`: the member whose value is `n`, if there is one. */
  function StepOf(n: int): (r: Option<Step>)
    ensures r.Some? <==> IsStepNumber(n)
    ensures r.Some? ==> r.value.Value() == n
  {
    match n
    case 0 => Some(Onboarding)
    case 1 => Some(MissionName)
    case 2 => Some(BoardFormation)
    case 3 => Some(Incorporation)
    case 4 => Some(EIN)
    case 5 => Some(Bylaws)
    case 6 => Some(FederalTaxExemption)
    case 7 => Some(StateTaxExemption)
    case 8 => Some(Branding)
    case 9 => Some(Maintenance)
    case 100 => Some(BrandIdentity)
    case 101 => Some(OnlinePresence)
    case 102 => Some(AcceptDonations)
    case 103 => Some(Fundraising)
    case 104 => Some(GrantSearch)
    case 200 => Some(FederalFiling)
    case 201 => Some(StateReport)
    case 202 => Some(BoardMeetings)
    case 203 => Some(Bookkeeping)
    case 204 => Some(ComplianceCheck)
    case 300 => Some(MeasureDashboard)
    case 301 => Some(ImpactTracking)
    case 302 => Some(DonorAnalytics)
    case 303 => Some(CustomReports)
    case _ => None
  }

  /** Every member is found again from its own number. */
  lemma StepOfValue(s: Step)
    ensures StepOf(s.Value()) == Some(s)
  {
  }

  /** The values are pairwise distinct: a step is determined by its number. */
  lemma StepValueInjective(s: Step, t: Step)
    ensures s.Value() == t.Value() ==> s == t
  {
    StepOfValue(s);
    StepOfValue(t);
  }

  /** The numeric band each section reserves, as the enumeration's comments label them. */
  function BandOf(n: int): (r: Option<AppSection>)
    ensures r == Some(Incorporate) <==> 0 <= n <= 9
    ensures r == Some(Promote) <==> 100 <= n <= 199
    ensures r == Some(Manage) <==> 200 <= n <= 299
    ensures r == Some(Measure) <==> 300 <= n <= 399
  {
    if 0 <= n <= 9 then Some(Incorporate)
    else if 100 <= n <= 199 then Some(Promote)
    else if 200 <= n <= 299 then Some(Manage)
    else if 300 <= n <= 399 then Some(Measure)
    else None
  }

  /** Every step lies in exactly one section's band. */
  lemma EveryStepHasABand(s: Step)
    ensures BandOf(s.Value()).Some?
  {
  }

  /** Who wrote a message. */
  datatype Role = User | Model

  /** One transcript entry; `id` and `timestamp` come from the clock. */
  datatype Message = Message(id: string, role: Role, text: string, timestamp: int)

  /** One palette swatch. */
  datatype Color = Color(role: string, hex: string, name: string)

  /** A palette: its name, its mood and its ordered colours. */
  datatype BrandingData = BrandingData(paletteName: string, colors: seq<Color>, mood: string)

  datatype Organization = Organization(id: string, name: string, plan: string, initials: string)

  /** The whole application state. */
  datatype AppState = AppState(
    currentSection: AppSection,
    currentStep: Step,
    messages: seq<Message>,
    isLoading: bool,
    browserUrl: Option<string>,
    brandingData: Option<BrandingData>,
    supplementalProvisionText: Option<string>,
    activeOrg: Option<Organization>)
}
