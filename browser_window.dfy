/**
 * The right-hand pane (`components/BrowserWindow.tsx`): the address shown,
 * which view fills the pane, the palette colours the brand mock-ups use, and
 * the copy button for the generated provision text.
 */
module BrowserWindow {
  import opened Wrappers
  import opened Types
  import opened Constants
  import opened Text
  import opened ArrayOps

  const DashboardUrl := "https://nfpcompass.app/dashboard"
  const Scheme := "https://"

  /** `displayUrl`: the browser URL if non-empty, else the step's link, else the dashboard. */
  function DisplayUrl(browserUrl: Option<string>, step: Step): (r: string)
    ensures browserUrl.Some? && browserUrl.value != "" ==> r == browserUrl.value
    ensures (browserUrl.None? || browserUrl.value == "") && StepInfo(step).url.Some? ==> r == StepInfo(step).url.value
    ensures (browserUrl.None? || browserUrl.value == "") && StepInfo(step).url.None? ==> r == DashboardUrl
    ensures r != ""
  {
    if browserUrl.Some? && browserUrl.value != "" then browserUrl.value
    else if StepInfo(step).url.Some? && StepInfo(step).url.value != "" then StepInfo(step).url.value
    else DashboardUrl
  }

  /** With no browser URL, only the four linked steps show a page other than the dashboard. */
  lemma DashboardUnlessLinked(step: Step)
    ensures DisplayUrl(None, step) != DashboardUrl <==> step in {MissionName, Incorporation, EIN, FederalTaxExemption}
  {
  }

  /** The address bar: the URL with its first `https://` removed, wherever it occurs. */
  function AddressBar(displayUrl: string): (r: string)
    ensures !Contains(displayUrl, Scheme) ==> r == displayUrl
    ensures |r| <= |displayUrl|
  {
    ReplaceFirst(displayUrl, Scheme, "")
  }

  /** A URL that begins with the scheme is shown without it. */
  lemma AddressBarDropsLeadingScheme(url: string)
    requires StartsAt(url, Scheme, 0)
    ensures AddressBar(url) == url[|Scheme|..]
  {
    assert FirstOccurrence(url, Scheme, 0);
  }

  /** The views the pane can show. */
  datatype Pane = BrandingPane | IncorporationHelp | MeasureDashboardPane | DefaultResource

  /** The pane for a step, tested in the source's order. */
  function SelectPane(step: Step): (r: Pane)
    ensures r == BrandingPane <==> step == Branding || step == BrandIdentity
    ensures r == IncorporationHelp <==> step == Incorporation
    ensures r == MeasureDashboardPane <==> step in {MeasureDashboard, ImpactTracking, DonorAnalytics, CustomReports}
  {
    if step == Branding || step == BrandIdentity then BrandingPane
    else if step == Incorporation then IncorporationHelp
    else if MeasureDashboard.Value() <= step.Value() <= CustomReports.Value() then MeasureDashboardPane
    else DefaultResource
  }

  /** Every step in the Measure section's sidebar list opens the dashboard. */
  lemma MeasureStepsShowDashboard(step: Step)
    requires BandOf(step.Value()) == Some(Measure)
    ensures SelectPane(step) == MeasureDashboardPane
  {
  }

  function HasRole(role: string): Color -> bool {
    (c: Color) => c.role == role
  }

  /** `colors[i]` is the first colour whose role is `role`. */
  predicate FirstWithRole(colors: seq<Color>, role: string, i: int) {
    0 <= i < |colors| && colors[i].role == role && forall k :: 0 <= k < i ==> colors[k].role != role
  }

  /**
   * The hex of the first colour with the given role; the fallback when no
   * colour has that role or when that colour's hex is empty.
   */
  function RoleHex(colors: seq<Color>, role: string, fallback: string): (r: string)
    ensures (forall k :: 0 <= k < |colors| ==> colors[k].role != role) ==> r == fallback
    ensures forall i :: FirstWithRole(colors, role, i) ==> r == if colors[i].hex != "" then colors[i].hex else fallback
  {
    match Find(colors, HasRole(role))
    case None => fallback
    case Some(c) => if c.hex != "" then c.hex else fallback
  }

  /** The brand view: a placeholder without a palette, else the palette and the three role colours. */
  datatype BrandingView =
    | Placeholder
    | PaletteView(name: string, mood: string, swatches: seq<Color>, primary: string, secondary: string, background: string)

  function RenderBranding(branding: Option<BrandingData>): (r: BrandingView)
    ensures r.Placeholder? <==> branding.None?
    ensures r.PaletteView? ==> r.swatches == branding.value.colors && r.name == branding.value.paletteName
    ensures r.PaletteView? ==> r.mood == branding.value.mood
    ensures r.PaletteView? ==> r.primary == RoleHex(branding.value.colors, "Primary", "#3b82f6")
    ensures r.PaletteView? ==> r.secondary == RoleHex(branding.value.colors, "Secondary", "#1e293b")
    ensures r.PaletteView? ==> r.background == RoleHex(branding.value.colors, "Background", "#f8fafc")
    ensures r.PaletteView? ==> r.primary != "" && r.secondary != "" && r.background != ""
  {
    match branding
    case None => Placeholder
    case Some(b) =>
      PaletteView(b.paletteName, b.mood, b.colors,
        RoleHex(b.colors, "Primary", "#3b82f6"),
        RoleHex(b.colors, "Secondary", "#1e293b"),
        RoleHex(b.colors, "Background", "#f8fafc"))
  }

  /** Each preset's primary colour is the one the brand view uses. */
  lemma PresetPrimaryIsShown(i: nat)
    requires i < |PresetPalettes|
    ensures RenderBranding(Some(PresetPalettes[i].1)).primary == PresetPalettes[i].1.colors[0].hex
  {
    PresetPalettesShape();
  }

  /** The provision box: the generated text, or a waiting note while there is none. */
  function ProvisionShown(supplementalText: Option<string>): (r: string)
    ensures supplementalText.Some? && supplementalText.value != "" ==> r == supplementalText.value
    ensures supplementalText.None? || supplementalText.value == "" ==> r == "Waiting for legal text generation..."
  {
    if supplementalText.Some? && supplementalText.value != "" then supplementalText.value
    else "Waiting for legal text generation..."
  }

  /** The copy button's state, with the clipboard writes it has made. */
  class CopyButton {
    var copied: bool
    var clipboard: seq<string>

    constructor ()
      ensures !copied && clipboard == []
    {
      copied := false;
      clipboard := [];
    }

    /** `handleCopy`: only a non-empty provision is copied and acknowledged. */
    method HandleCopy(supplementalText: Option<string>)
      modifies this
      ensures supplementalText.Some? && supplementalText.value != "" ==>
        copied && clipboard == old(clipboard) + [supplementalText.value]
      ensures supplementalText.None? || supplementalText.value == "" ==>
        copied == old(copied) && clipboard == old(clipboard)
    {
      if supplementalText.Some? && supplementalText.value != "" {
        clipboard := clipboard + [supplementalText.value];
        copied := true;
      }
    }

    /** The timer that follows a copy turns the acknowledgement off again. */
    method TimerElapsed()
      modifies this
      ensures !copied && clipboard == old(clipboard)
    {
      copied := false;
    }
  }
}
