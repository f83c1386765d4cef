/** The constant tables the application reads (`constants.ts`); the prompt text is not modelled. */
module Constants {
  import opened Wrappers
  import opened Types

  const InitialGreeting: string :=
    "Hi! I'm Gemma, here to help you get your NFP started so you can change the world! Are you ready to get started?"

  /** What the sidebar and the right-hand pane show for a step. */
  datatype StepDetails = StepDetails(title: string, description: string, url: Option<string>)

  const SosDirectUrl := "https://www.sos.state.tx.us/corp/sosda/index.shtml"

  /**
   * `STEPS_INFO`. The table also holds an entry keyed by `Step.CreateCampaigns`,
   * which is not a member of the enumeration; no step reaches it, so it is omitted.
   */
  function StepInfo(s: Step): (r: StepDetails)
    ensures r.url.Some? <==> s in {MissionName, Incorporation, EIN, FederalTaxExemption}
    ensures r.url.Some? ==> r.url.value != ""
  {
    match s
    case Onboarding => StepDetails("Welcome", "Getting Started", None)
    case MissionName => StepDetails("Mission & Name", "Define purpose & check availability", Some(SosDirectUrl))
    case BoardFormation => StepDetails("Board Formation", "Directors & Officers", None)
    case Incorporation => StepDetails("Incorporation", "File Form 202", Some(SosDirectUrl))
    case EIN => StepDetails("EIN Issuance", "Get Tax ID", Some("https://sa.www4.irs.gov/modiein/individual/index.jsp"))
    case Bylaws => StepDetails("Bylaws", "Internal governance documents", None)
    case FederalTaxExemption => StepDetails("Federal 501(c)(3)", "Form 1023-EZ", Some("https://www.pay.gov/public/form/start/62754889"))
    case StateTaxExemption => StepDetails("State Exemption", "Form AP-204", None)
    case Branding => StepDetails("Branding", "Visual Identity", None)
    case Maintenance => StepDetails("Compliance", "Ongoing requirements", None)
    case BrandIdentity => StepDetails("Brand Identity", "Logos, Colors & Tone", None)
    case OnlinePresence => StepDetails("Online Presence", "Website & Social Setup", None)
    case AcceptDonations => StepDetails("Accept Donations", "Setup Payment Links", None)
    case Fundraising => StepDetails("Fundraising", "Campaigns & Events", None)
    case GrantSearch => StepDetails("Grant Search", "Find & Apply for Funding", None)
    case FederalFiling => StepDetails("Federal Filing", "File Form 990-N (Annual)", None)
    case StateReport => StepDetails("State Report", "File Form 802 (Every 4 yrs)", None)
    case BoardMeetings => StepDetails("Board Meetings", "Record Annual Minutes", None)
    case Bookkeeping => StepDetails("Bookkeeping", "Track Income & Expenses", None)
    case ComplianceCheck => StepDetails("Compliance Check", "Review 'Good Standing' Status", None)
    case MeasureDashboard => StepDetails("Dashboard", "Overview of Key Metrics", None)
    case ImpactTracking => StepDetails("Impact Tracking", "Log Program Outcomes", None)
    case DonorAnalytics => StepDetails("Donor Analytics", "Retention & Growth Stats", None)
    case CustomReports => StepDetails("Custom Reports", "Export Data for Stakeholders", None)
  }

  /** `PRESET_PALETTES`, in declaration order, with their record keys. */
  const PresetPalettes: seq<(string, BrandingData)> := [
    ("GROWTH", BrandingData("Growth & Health", [
      Color("Primary", "#2F80ED", "Trust Blue"),
      Color("Secondary", "#6FCF97", "Growth Green"),
      Color("Accent", "#F2F2F2", "Clean White"),
      Color("Text", "#333333", "Charcoal")], "Fresh, Vital, Organic")),
    ("EMPATHY", BrandingData("Empathy & Care", [
      Color("Primary", "#FF6B6B", "Coral Heart"),
      Color("Secondary", "#2D3436", "Solid Navy"),
      Color("Accent", "#FFD93D", "Hope Yellow"),
      Color("Background", "#FFF5F5", "Soft Blush")], "Warm, Urgent, Loving")),
    ("BOLD", BrandingData("Bold Future", [
      Color("Primary", "#8E44AD", "Vision Purple"),
      Color("Secondary", "#00CEC9", "Action Teal"),
      Color("Accent", "#2D3436", "Midnight"),
      Color("Background", "#F8F9FA", "Tech Grey")], "Innovative, Strong, Loud")),
    ("TEXAS", BrandingData("Lone Star Pride", [
      Color("Primary", "#1C3F94", "Texas Blue"),
      Color("Secondary", "#F2994A", "Sunset Orange"),
      Color("Accent", "#BF0A30", "Lone Star Red"),
      Color("Background", "#FFFFFF", "Pure White")], "Local, Loyal, Texan"))
  ]

  /** Every preset has four colours and leads with its primary colour. */
  lemma PresetPalettesShape()
    ensures |PresetPalettes| == 4
    ensures forall i :: 0 <= i < |PresetPalettes| ==>
      |PresetPalettes[i].1.colors| == 4 && PresetPalettes[i].1.colors[0].role == "Primary"
  {
  }

  /** `MOCK_ORGS`. */
  const MockOrgs: seq<Organization> := [
    Organization("org_1", "Wear it Forward", "Pro", "WF"),
    Organization("org_2", "Austin Housing", "Free", "AH"),
    Organization("org_3", "Tech for Good", "Free", "TG")
  ]

  /** The mock organisations have distinct ids; the first is the one active at start-up. */
  lemma MockOrgsShape()
    ensures |MockOrgs| == 3
    ensures forall i, j :: 0 <= i < j < |MockOrgs| ==> MockOrgs[i].id != MockOrgs[j].id
    ensures MockOrgs[0].name == "Wear it Forward" && MockOrgs[0].initials == "WF"
  {
  }

  datatype UsState = UsState(name: string, code: string)

  /** `US_STATES`, in declaration order (declared in two halves, Alabama to Missouri and Montana to Wyoming). */
  const UsStates: seq<UsState> := UsStatesAToMo + UsStatesMtToW

  const UsStatesAToMo: seq<UsState> := [
    UsState("Alabama", "AL"), UsState("Alaska", "AK"), UsState("Arizona", "AZ"),
    UsState("Arkansas", "AR"), UsState("California", "CA"), UsState("Colorado", "CO"),
    UsState("Connecticut", "CT"), UsState("Delaware", "DE"), UsState("Florida", "FL"),
    UsState("Georgia", "GA"), UsState("Hawaii", "HI"), UsState("Idaho", "ID"),
    UsState("Illinois", "IL"), UsState("Indiana", "IN"), UsState("Iowa", "IA"),
    UsState("Kansas", "KS"), UsState("Kentucky", "KY"), UsState("Louisiana", "LA"),
    UsState("Maine", "ME"), UsState("Maryland", "MD"), UsState("Massachusetts", "MA"),
    UsState("Michigan", "MI"), UsState("Minnesota", "MN"), UsState("Mississippi", "MS"),
    UsState("Missouri", "MO")
  ]

  const UsStatesMtToW: seq<UsState> := [
    UsState("Montana", "MT"), UsState("Nebraska", "NE"), UsState("Nevada", "NV"),
    UsState("New Hampshire", "NH"), UsState("New Jersey", "NJ"), UsState("New Mexico", "NM"),
    UsState("New York", "NY"), UsState("North Carolina", "NC"), UsState("North Dakota", "ND"),
    UsState("Ohio", "OH"), UsState("Oklahoma", "OK"), UsState("Oregon", "OR"),
    UsState("Pennsylvania", "PA"), UsState("Rhode Island", "RI"), UsState("South Carolina", "SC"),
    UsState("South Dakota", "SD"), UsState("Tennessee", "TN"), UsState("Texas", "TX"),
    UsState("Utah", "UT"), UsState("Vermont", "VT"), UsState("Virginia", "VA"),
    UsState("Washington", "WA"), UsState("West Virginia", "WV"), UsState("Wisconsin", "WI"),
    UsState("Wyoming", "WY")
  ]

  /** The position of a jurisdiction code in the selector, if it is one of the fifty. */
  function StateIndex(code: string): Option<nat> {
    match code
    case "AL" => Some(0)
    case "AK" => Some(1)
    case "AZ" => Some(2)
    case "AR" => Some(3)
    case "CA" => Some(4)
    case "CO" => Some(5)
    case "CT" => Some(6)
    case "DE" => Some(7)
    case "FL" => Some(8)
    case "GA" => Some(9)
    case "HI" => Some(10)
    case "ID" => Some(11)
    case "IL" => Some(12)
    case "IN" => Some(13)
    case "IA" => Some(14)
    case "KS" => Some(15)
    case "KY" => Some(16)
    case "LA" => Some(17)
    case "ME" => Some(18)
    case "MD" => Some(19)
    case "MA" => Some(20)
    case "MI" => Some(21)
    case "MN" => Some(22)
    case "MS" => Some(23)
    case "MO" => Some(24)
    case "MT" => Some(25)
    case "NE" => Some(26)
    case "NV" => Some(27)
    case "NH" => Some(28)
    case "NJ" => Some(29)
    case "NM" => Some(30)
    case "NY" => Some(31)
    case "NC" => Some(32)
    case "ND" => Some(33)
    case "OH" => Some(34)
    case "OK" => Some(35)
    case "OR" => Some(36)
    case "PA" => Some(37)
    case "RI" => Some(38)
    case "SC" => Some(39)
    case "SD" => Some(40)
    case "TN" => Some(41)
    case "TX" => Some(42)
    case "UT" => Some(43)
    case "VT" => Some(44)
    case "VA" => Some(45)
    case "WA" => Some(46)
    case "WV" => Some(47)
    case "WI" => Some(48)
    case "WY" => Some(49)
    case _ => None
  }

  /** Alabama to Louisiana: each code leads back to its own position. */
  lemma {:induction false} StatesIndexedFrom0()
    ensures forall i :: 0 <= i < 13 ==> |UsStatesAToMo[i].code| == 2 && StateIndex(UsStatesAToMo[i].code) == Some(i)
  {
    forall i | 0 <= i < 13
      ensures |UsStatesAToMo[i].code| == 2 && StateIndex(UsStatesAToMo[i].code) == Some(i)
    {
      if i == 0 {} else if i == 1 {} else if i == 2 {} else if i == 3 {} else if i == 4 {} else
      if i == 5 {} else if i == 6 {} else if i == 7 {} else if i == 8 {} else if i == 9 {} else
      if i == 10 {} else if i == 11 {} else {}
    }
  }

  /** Maine to Missouri: each code leads back to its own position. */
  lemma {:induction false} StatesIndexedFrom13()
    ensures forall i :: 13 <= i < 25 ==> |UsStatesAToMo[i].code| == 2 && StateIndex(UsStatesAToMo[i].code) == Some(i)
  {
    forall i | 13 <= i < 25
      ensures |UsStatesAToMo[i].code| == 2 && StateIndex(UsStatesAToMo[i].code) == Some(i)
    {
      if i == 13 {} else if i == 14 {} else if i == 15 {} else if i == 16 {} else
      if i == 17 {} else if i == 18 {} else if i == 19 {} else if i == 20 {} else
      if i == 21 {} else if i == 22 {} else if i == 23 {} else {}
    }
  }

  /** Montana to Pennsylvania: each code leads back to its own position. */
  lemma {:induction false} StatesIndexedFrom25()
    ensures forall i :: 25 <= i < 38 ==> |UsStatesMtToW[i - 25].code| == 2 && StateIndex(UsStatesMtToW[i - 25].code) == Some(i)
  {
    forall i | 25 <= i < 38
      ensures |UsStatesMtToW[i - 25].code| == 2 && StateIndex(UsStatesMtToW[i - 25].code) == Some(i)
    {
      if i == 25 {} else if i == 26 {} else if i == 27 {} else if i == 28 {} else
      if i == 29 {} else if i == 30 {} else if i == 31 {} else if i == 32 {} else
      if i == 33 {} else if i == 34 {} else if i == 35 {} else if i == 36 {} else {}
    }
  }

  /** Rhode Island to Wyoming: each code leads back to its own position. */
  lemma {:induction false} StatesIndexedFrom38()
    ensures forall i :: 38 <= i < 50 ==> |UsStatesMtToW[i - 25].code| == 2 && StateIndex(UsStatesMtToW[i - 25].code) == Some(i)
  {
    forall i | 38 <= i < 50
      ensures |UsStatesMtToW[i - 25].code| == 2 && StateIndex(UsStatesMtToW[i - 25].code) == Some(i)
    {
      if i == 38 {} else if i == 39 {} else if i == 40 {} else if i == 41 {} else
      if i == 42 {} else if i == 43 {} else if i == 44 {} else if i == 45 {} else
      if i == 46 {} else if i == 47 {} else if i == 48 {} else {}
    }
  }

  /**
   * Fifty jurisdictions, each with a two-letter code that leads back to its own
   * position, so no two share a code; Texas is among them.
   */
  lemma {:induction false} UsStatesShape()
    ensures |UsStates| == 50
    ensures forall i :: 0 <= i < |UsStates| ==> |UsStates[i].code| == 2 && StateIndex(UsStates[i].code) == Some(i)
    ensures forall i, j :: 0 <= i < j < |UsStates| ==> UsStates[i].code != UsStates[j].code
    ensures UsStates[42] == UsState("Texas", "TX")
  {
    StatesIndexedFrom0();
    StatesIndexedFrom13();
    StatesIndexedFrom25();
    StatesIndexedFrom38();
    forall i | 0 <= i < |UsStates|
      ensures |UsStates[i].code| == 2 && StateIndex(UsStates[i].code) == Some(i)
    {
      if i < 25 {
        assert UsStates[i] == UsStatesAToMo[i];
      } else {
        assert UsStates[i] == UsStatesMtToW[i - 25];
      }
    }
    assert UsStates[42] == UsStatesMtToW[17];
  }
}
