/**
 * The sidebar (`components/ProgressBar.tsx`): which steps a section lists,
 * which of them is active and which are marked completed, and the heading.
 */
module ProgressBar {
  import opened Wrappers
  import opened Types
  import opened Constants

  /** The steps listed for a section, in the order they are drawn. */
  function SectionSteps(section: AppSection): (r: seq<Step>)
    ensures forall i :: 0 <= i < |r| ==> BandOf(r[i].Value()) == Some(section)
  {
    match section
    case Incorporate => [MissionName, BoardFormation, Incorporation, EIN, Bylaws, FederalTaxExemption, StateTaxExemption]
    case Promote => [BrandIdentity, OnlinePresence, AcceptDonations, Fundraising, GrantSearch]
    case Manage => [FederalFiling, StateReport, BoardMeetings, Bookkeeping, ComplianceCheck]
    case Measure => [MeasureDashboard, ImpactTracking, DonorAnalytics, CustomReports]
  }

  /** The listed steps are in strictly ascending order of their numbers. */
  lemma SectionStepsAscending(section: AppSection)
    ensures var r := SectionSteps(section);
      forall i, j :: 0 <= i < j < |r| ==> r[i].Value() < r[j].Value()
  {
    match section
    case Incorporate =>
    case Promote =>
    case Manage =>
    case Measure =>
  }

  /**
   * A section lists every step of its band, except that the formation list
   * leaves out onboarding (0) and steps 8 and 9.
   */
  lemma SectionStepsCoverBand(section: AppSection, s: Step)
    ensures s in SectionSteps(section) <==>
      BandOf(s.Value()) == Some(section) && !(section == Incorporate && s in {Onboarding, Branding, Maintenance})
  {
    match s
    case Onboarding =>
    case MissionName =>
    case BoardFormation =>
    case Incorporation =>
    case EIN =>
    case Bylaws =>
    case FederalTaxExemption =>
    case StateTaxExemption =>
    case Branding =>
    case Maintenance =>
    case BrandIdentity =>
    case OnlinePresence =>
    case AcceptDonations =>
    case Fundraising =>
    case GrantSearch =>
    case FederalFiling =>
    case StateReport =>
    case BoardMeetings =>
    case Bookkeeping =>
    case ComplianceCheck =>
    case MeasureDashboard =>
    case ImpactTracking =>
    case DonorAnalytics =>
    case CustomReports =>
  }

  /** The formation checklist is exactly steps 1 to 7. */
  lemma IncorporateListsOneToSeven()
    ensures forall i :: 0 <= i < |SectionSteps(Incorporate)| ==> SectionSteps(Incorporate)[i].Value() == i + 1
    ensures |SectionSteps(Incorporate)| == 7
  {
  }

  /** How one listed step is drawn. */
  datatype StepView = StepView(step: Step, details: StepDetails, active: bool, completed: bool)

  /** The drawn list: the section's steps, with the active and completed flags. */
  function RenderSteps(currentSection: AppSection, currentStep: Step): (r: seq<StepView>)
    ensures |r| == |SectionSteps(currentSection)|
    ensures forall i :: 0 <= i < |r| ==> r[i].step == SectionSteps(currentSection)[i] && r[i].details == StepInfo(r[i].step)
    ensures forall i :: 0 <= i < |r| ==> (r[i].active <==> r[i].step == currentStep)
    ensures forall i :: 0 <= i < |r| ==>
      (r[i].completed <==> currentSection == Incorporate && r[i].step.Value() < currentStep.Value())
  {
    var steps := SectionSteps(currentSection);
    seq(|steps|, i requires 0 <= i < |steps| =>
      StepView(steps[i], StepInfo(steps[i]), steps[i] == currentStep,
               currentSection == Incorporate && steps[i].Value() < currentStep.Value()))
  }

  /** At most one drawn step is active, and none is both active and completed. */
  lemma AtMostOneActive(currentSection: AppSection, currentStep: Step)
    ensures var r := RenderSteps(currentSection, currentStep);
      forall i, j :: 0 <= i < |r| && 0 <= j < |r| && r[i].active && r[j].active ==> i == j
    ensures var r := RenderSteps(currentSection, currentStep);
      forall i :: 0 <= i < |r| ==> !(r[i].active && r[i].completed)
  {
    SectionStepsAscending(currentSection);
  }

  /** Completed steps form a prefix of the list, and occur only in Incorporate. */
  lemma CompletedFormAPrefix(currentSection: AppSection, currentStep: Step)
    ensures var r := RenderSteps(currentSection, currentStep);
      forall i, j :: 0 <= i < j < |r| && r[j].completed ==> r[i].completed
    ensures var r := RenderSteps(currentSection, currentStep);
      currentSection != Incorporate ==> forall i :: 0 <= i < |r| ==> !r[i].completed
  {
    SectionStepsAscending(currentSection);
  }

  /** The label above the list; Manage falls to the last branch. */
  function Heading(section: AppSection): (r: string)
    ensures section == Incorporate ==> r == "Formation Steps"
    ensures section == Promote ==> r == "Growth Tools"
    ensures section == Measure ==> r == "Impact Data"
    ensures section == Manage ==> r == "Compliance"
  {
    if section == Incorporate then "Formation Steps"
    else if section == Promote then "Growth Tools"
    else if section == Measure then "Impact Data"
    else "Compliance"
  }
}
