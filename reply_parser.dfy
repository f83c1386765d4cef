/**
 * The reply-reconciliation parsers of the application shell: the `[STEP: n]`
 * marker, the ```` ```json ```` palette block, the supplemental-provision fenced
 * block, and the clean text shown in the chat. Each works on the model's raw
 * reply; JSON decoding is an uninterpreted function the caller supplies.
 */
module ReplyParser {
  import opened Wrappers
  import opened Text
  import opened Types

  const StepTag := "[STEP:"
  const Fence := "```"
  const JsonFence := "```json"
  const Acknowledgement := "(I have updated the visual brand panel for you!)"
  const DefaultPaletteName := "Custom Palette"
  const GeneratedMood := "Generated by Gemma"
  const SupplementalHeading := "Supplemental Provisions"

  // ---------------------------------------------------------------------------
  // Step markers: the pattern \[STEP:\s*(\d+)\]

  /** `[STEP:` at `i`, character by character. */
  predicate TagAt(s: string, i: nat) {
    && i + 6 <= |s|
    && s[i] == '[' && s[i + 1] == 'S' && s[i + 2] == 'T'
    && s[i + 3] == 'E' && s[i + 4] == 'P' && s[i + 5] == ':'
  }

  lemma TagAtIsStartsAt(s: string, i: nat)
    ensures TagAt(s, i) <==> StartsAt(s, StepTag, i)
  {
    if StartsAt(s, StepTag, i) {
      var w := s[i..i + 6];
      assert w[0] == s[i] && w[1] == s[i + 1] && w[2] == s[i + 2];
      assert w[3] == s[i + 3] && w[4] == s[i + 4] && w[5] == s[i + 5];
    }
  }

  /**
   * The pattern matches `s[i..k+1]`: the tag, white space up to `j`, the digits
   * `s[j..k]` (at least one), then `]`.
   */
  predicate IsMarker(s: string, i: nat, j: nat, k: nat) {
    && TagAt(s, i)
    && i + 6 <= j < k < |s|
    && (forall t :: i + 6 <= t < j ==> IsSpace(s[t]))
    && (forall t :: j <= t < k ==> IsDigit(s[t]))
    && s[k] == ']'
  }

  /** A marker found at some index: where its digits start, where its `]` is, and its number. */
  datatype Marker = Marker(digits: nat, close: nat, number: nat)

  /** Where the marker that starts at `i` closes, if the pattern matches there. */
  function MarkerClose(s: string, i: nat): (r: Option<nat>)
    ensures r.Some? ==> i < r.value < |s|
  {
    if !TagAt(s, i) then None
    else
      var j := Span(s, i + 6, Space);
      var k := Span(s, j, Digit);
      if j < k < |s| && s[k] == ']' then Some(k) else None
  }

  /** The marker that starts at `i`, if the pattern matches there. */
  function MarkerAt(s: string, i: nat): (r: Option<Marker>)
    ensures r.Some? ==> IsMarker(s, i, r.value.digits, r.value.close)
    ensures r.Some? ==> r.value.number == DecimalValue(s[r.value.digits..r.value.close])
    ensures r.None? <==> MarkerClose(s, i).None?
    ensures r.Some? ==> r.value.close == MarkerClose(s, i).value
  {
    match MarkerClose(s, i)
    case None => None
    case Some(k) =>
      var j := Span(s, i + 6, Space);
      SpanRun(s, i + 6, Space);
      SpanRun(s, j, Digit);
      assert AllDigits(s[j..k]);
      Some(Marker(j, k, DecimalValue(s[j..k])))
  }

  /** Wherever the pattern matches, `MarkerClose` finds where that match closes. */
  lemma MarkerCloseComplete(s: string, i: nat, j: nat, k: nat)
    requires IsMarker(s, i, j, k)
    ensures MarkerClose(s, i) == Some(k)
    ensures Span(s, i + 6, Space) == j
  {
    SpanStopsAt(s, i + 6, j, Space);
    SpanStopsAt(s, j, k, Digit);
  }

  /** Wherever the pattern matches, `MarkerAt` finds that very match. */
  lemma MarkerAtComplete(s: string, i: nat, j: nat, k: nat)
    requires IsMarker(s, i, j, k)
    ensures MarkerAt(s, i) == Some(Marker(j, k, DecimalValue(s[j..k])))
  {
    MarkerCloseComplete(s, i, j, k);
  }

  /** No marker starts anywhere in `[from, to)`. */
  predicate NoMarkerIn(s: string, from: nat, to: nat) {
    forall t: nat :: from <= t < to ==> MarkerClose(s, t).None?
  }

  /** Where the pattern matches nowhere, no marker is found. */
  lemma NoMatchNoMarker(s: string, from: nat, to: nat)
    requires forall i: nat, j: nat, k: nat :: from <= i < to ==> !IsMarker(s, i, j, k)
    ensures NoMarkerIn(s, from, to)
  {
    forall t: nat | from <= t < to ensures MarkerClose(s, t).None? {
      var m := MarkerAt(s, t);
      assert m.Some? ==> IsMarker(s, t, m.value.digits, m.value.close);
    }
  }

  /** The first index at or after `from` where a marker starts (the leftmost match). */
  function FirstMarker(s: string, from: nat): (r: Option<nat>)
    decreases |s| - from
    ensures r.Some? ==> from <= r.value < |s| && MarkerClose(s, r.value).Some? && NoMarkerIn(s, from, r.value)
    ensures r.None? ==> NoMarkerIn(s, from, |s|)
  {
    if from >= |s| then None
    else if MarkerClose(s, from).Some? then Some(from)
    else FirstMarker(s, from + 1)
  }

  /** A marker with none before it is the one `FirstMarker` finds. */
  lemma {:induction false} FirstMarkerIs(s: string, from: nat, i: nat)
    requires from <= i && NoMarkerIn(s, from, i) && MarkerClose(s, i).Some?
    ensures FirstMarker(s, from) == Some(i)
    decreases i - from
  {
    if from < i {
      FirstMarkerIs(s, from + 1, i);
    }
  }

  /** `parseStepFromResponse`: the first marker's number, if it is a `Step` value. */
  function ParseStep(text: string): Option<Step> {
    match FirstMarker(text, 0)
    case None => None
    case Some(i) => StepOf(MarkerAt(text, i).value.number)
  }

  /** A parsed step always comes from a marker in the text: its digits name that step. */
  lemma ParseStepSound(text: string)
    ensures ParseStep(text).Some? ==>
      exists i: nat, j: nat, k: nat :: IsMarker(text, i, j, k) && ParseStep(text) == StepOf(DecimalValue(text[j..k]))
  {
    if ParseStep(text).Some? {
      var i := FirstMarker(text, 0).value;
      var m := MarkerAt(text, i).value;
      assert IsMarker(text, i, m.digits, m.close);
    }
  }

  /**
   * Only the first marker counts: its number, including 0, becomes the step
   * exactly when it is a `Step` value, whatever markers follow it.
   */
  lemma {:induction false} ParseStepUsesFirstMarker(text: string, i: nat, j: nat, k: nat)
    requires IsMarker(text, i, j, k)
    requires forall i': nat, j': nat, k': nat :: i' < i ==> !IsMarker(text, i', j', k')
    ensures ParseStep(text) == StepOf(DecimalValue(text[j..k]))
    ensures ParseStep(text).Some? <==> IsStepNumber(DecimalValue(text[j..k]))
  {
    MarkerAtComplete(text, i, j, k);
    NoMatchNoMarker(text, 0, i);
    FirstMarkerIs(text, 0, i);
  }

  /** A reply with no marker at all leaves the step alone. */
  lemma ParseStepWithoutMarker(text: string)
    requires forall i: nat, j: nat, k: nat :: !IsMarker(text, i, j, k)
    ensures ParseStep(text).None?
  {
    NoMatchNoMarker(text, 0, |text|);
  }

  /**
   * The global replace of the marker pattern by the empty string: scanning left
   * to right, each match is dropped and every other character is kept.
   */
  function StripMarkersFrom(s: string, i: nat): (r: string)
    requires i <= |s|
    decreases |s| - i
    ensures |r| <= |s| - i
  {
    if i == |s| then []
    else
      match MarkerClose(s, i)
      case Some(k) => StripMarkersFrom(s, k + 1)
      case None => [s[i]] + StripMarkersFrom(s, i + 1)
  }

  function StripMarkers(s: string): string {
    StripMarkersFrom(s, 0)
  }

  lemma StripStep(s: string, i: nat)
    requires i < |s| && MarkerClose(s, i).None?
    ensures StripMarkersFrom(s, i) == [s[i]] + StripMarkersFrom(s, i + 1)
  {}

  lemma StripSkip(s: string, i: nat)
    requires i < |s| && MarkerClose(s, i).Some?
    ensures StripMarkersFrom(s, i) == StripMarkersFrom(s, MarkerClose(s, i).value + 1)
  {}

  /** A character where the marker pattern matches nowhere is kept, and the scan moves on by one. */
  lemma StripKeepsChar(s: string, i: nat)
    requires i < |s|
    requires forall j: nat, k: nat :: !IsMarker(s, i, j, k)
    ensures StripMarkersFrom(s, i) == [s[i]] + StripMarkersFrom(s, i + 1)
  {
    NoMatchNoMarker(s, i, i + 1);
    StripStep(s, i);
  }

  /** A match of the marker pattern is dropped as a whole, and the scan resumes after its `]`. */
  lemma StripDropsMatch(s: string, i: nat, j: nat, k: nat)
    requires IsMarker(s, i, j, k)
    ensures StripMarkersFrom(s, i) == StripMarkersFrom(s, k + 1)
  {
    MarkerCloseComplete(s, i, j, k);
  }

  /** Text in which no marker starts is copied unchanged. */
  lemma {:induction false} StripMarkersUpTo(s: string, from: nat, to: nat)
    requires from <= to <= |s|
    requires NoMarkerIn(s, from, to)
    ensures StripMarkersFrom(s, from) == s[from..to] + StripMarkersFrom(s, to)
  {
    if from < to {
      StripMarkersUpTo(s, from, to - 1);
      StripStep(s, to - 1);
      var rest := StripMarkersFrom(s, to);
      calc {
        StripMarkersFrom(s, from);
        s[from..to - 1] + ([s[to - 1]] + rest);
        (s[from..to - 1] + [s[to - 1]]) + rest;
        { assert s[from..to - 1] + [s[to - 1]] == s[from..to]; }
        s[from..to] + rest;
      }
    }
  }

  /** A reply without markers is shown as it is. */
  lemma StripMarkersWithoutMarker(s: string)
    requires NoMarkerIn(s, 0, |s|)
    ensures StripMarkers(s) == s
  {
    StripMarkersUpTo(s, 0, |s|);
  }

  /**
   * The marker that sets the step is removed along with every later one, and the
   * prose in front of it is kept verbatim; the text gets at least eight characters shorter.
   */
  lemma StripMarkersRemovesFirst(s: string, i: nat, j: nat, k: nat)
    requires IsMarker(s, i, j, k)
    requires forall i': nat, j': nat, k': nat :: i' < i ==> !IsMarker(s, i', j', k')
    ensures StripMarkers(s) == s[..i] + StripMarkersFrom(s, k + 1)
    ensures |StripMarkers(s)| <= |s| - 8
  {
    NoMatchNoMarker(s, 0, i);
    StripMarkersUpTo(s, 0, i);
    MarkerCloseComplete(s, i, j, k);
    StripSkip(s, i);
    var rest := StripMarkersFrom(s, k + 1);
    assert StripMarkers(s) == s[0..i] + rest;
    assert s[0..i] == s[..i];
    assert |rest| <= |s| - (k + 1);
  }

  /** The doubled marker `[STEP:[STEP:d]d]`, as a sequence of characters. */
  function DoubledMarker(d: char): (s: string)
    ensures |s| == 16
  {
    ['[', 'S', 'T', 'E', 'P', ':', '[', 'S', 'T', 'E', 'P', ':', d, ']', d, ']']
  }

  /** In the doubled marker nothing matches before the inner marker: the outer tag has no digits. */
  lemma DoubledMarkerPrefix(d: char)
    requires IsDigit(d)
    ensures NoMarkerIn(DoubledMarker(d), 0, 6)
  {
    var s := DoubledMarker(d);
    assert Span(s, 6, Space) == 6 && Span(s, 6, Digit) == 6;
    forall t: nat | 0 <= t < 6 ensures MarkerClose(s, t).None? {
      assert t == 0 || !TagAt(s, t);
    }
  }

  /** The inner marker of the doubled marker is dropped, and the two characters after it are kept. */
  lemma DoubledMarkerInner(d: char)
    requires IsDigit(d)
    ensures StripMarkersFrom(DoubledMarker(d), 6) == [d, ']']
  {
    var s := DoubledMarker(d);
    assert IsMarker(s, 6, 12, 13);
    MarkerCloseComplete(s, 6, 12, 13);
    StripSkip(s, 6);
    assert !TagAt(s, 14) && !TagAt(s, 15);
    StripStep(s, 14);
    StripStep(s, 15);
  }

  /**
   * The replace is a single left-to-right pass: removing an inner marker can
   * join the text around it into a new marker, which then stays in the shown text.
   */
  lemma StrippingCanLeaveAMarker(d: char)
    requires IsDigit(d)
    ensures var s := "[STEP:[STEP:" + [d] + "]" + [d] + "]";
      StripMarkers(s) == "[STEP:" + [d] + "]" && IsMarker(StripMarkers(s), 0, 6, 7)
  {
    var s := DoubledMarker(d);
    assert s == "[STEP:[STEP:" + [d] + "]" + [d] + "]";
    DoubledMarkerPrefix(d);
    StripMarkersUpTo(s, 0, 6);
    DoubledMarkerInner(d);
    var kept := s[0..6] + [d, ']'];
    assert kept == "[STEP:" + [d] + "]";
    assert StripMarkers(s) == kept;
  }

  // ---------------------------------------------------------------------------
  // Fenced blocks: an opening string, then lazily up to the next ``` fence

  /** The pattern `open[\s\S]*?```` matches `s[i..j+3]`. */
  predicate LazyBlock(s: string, open: string, i: nat, j: nat) {
    && StartsAt(s, open, i)
    && i + |open| <= j
    && StartsAt(s, Fence, j)
    && forall t: nat :: i + |open| <= t < j ==> !StartsAt(s, Fence, t)
  }

  /** The leftmost match of `open[\s\S]*?```` as `(start, closing fence)`. */
  function FirstBlock(s: string, open: string): (r: Option<(nat, nat)>)
    ensures r.Some? ==> LazyBlock(s, open, r.value.0, r.value.1)
    ensures r.Some? ==> forall i: nat, j: nat :: LazyBlock(s, open, i, j) ==> r.value.0 <= i
    ensures r.Some? ==> forall j: nat :: LazyBlock(s, open, r.value.0, j) ==> j == r.value.1
    ensures r.None? ==> forall i: nat, j: nat :: !LazyBlock(s, open, i, j)
  {
    match IndexFrom(s, open, 0)
    case None => None
    case Some(i) =>
      match IndexFrom(s, Fence, i + |open|)
      case None => None
      case Some(j) => Some((i, j))
  }

  /** The JSON block replaced in the shown text by the fixed acknowledgement. */
  function ReplaceJsonBlock(s: string): (r: string)
    ensures FirstBlock(s, JsonFence).None? ==> r == s
  {
    match FirstBlock(s, JsonFence)
    case None => s
    case Some((i, j)) => s[..i] + Acknowledgement + s[j + |Fence|..]
  }

  /**
   * Only the first ```` ```json … ``` ```` span is replaced, whether or not its
   * contents decode; everything before and after it is kept.
   */
  lemma ReplaceJsonBlockFirstOnly(s: string, i: nat, j: nat)
    requires LazyBlock(s, JsonFence, i, j)
    requires forall i': nat, j': nat :: i' < i ==> !LazyBlock(s, JsonFence, i', j')
    ensures ReplaceJsonBlock(s) == s[..i] + Acknowledgement + s[j + 3..]
  {
    var b := FirstBlock(s, JsonFence);
    assert b.Some?;
    assert b.value.0 == i;
  }

  /** The text shown for a reply: markers removed, trimmed, JSON block acknowledged. */
  function CleanText(reply: string): string {
    ReplaceJsonBlock(Trim(StripMarkers(reply)))
  }

  // ---------------------------------------------------------------------------
  // Palette block: ```json\s*(\{[\s\S]*?\})\s*```

  /** A `}` at `k` that white space and then a fence follow. */
  predicate ClosesPalette(s: string, k: nat) {
    k < |s| && s[k] == '}' && StartsAt(s, Fence, Span(s, k + 1, Space))
  }

  /** The first index at or after `from` that closes a palette body (the lazy `*?`). */
  function ClosingBrace(s: string, from: nat): (r: Option<nat>)
    decreases |s| - from
    ensures r.Some? ==> from <= r.value && ClosesPalette(s, r.value)
    ensures r.Some? ==> forall t: nat :: from <= t < r.value ==> !ClosesPalette(s, t)
    ensures r.None? ==> forall t: nat :: from <= t ==> !ClosesPalette(s, t)
  {
    if from >= |s| then None
    else if ClosesPalette(s, from) then Some(from)
    else ClosingBrace(s, from + 1)
  }

  /** The palette pattern matches at `i`, with the captured body `s[q..k+1]`. */
  predicate IsPaletteBlock(s: string, i: nat, q: nat, k: nat) {
    && StartsAt(s, JsonFence, i)
    && i + |JsonFence| <= q < k < |s|
    && AllSpace(s[i + |JsonFence|..q])
    && s[q] == '{'
    && ClosesPalette(s, k)
    && forall t: nat :: q < t < k ==> !ClosesPalette(s, t)
  }

  /** Where the body of a palette block at `i` opens and closes, if the pattern matches there. */
  function PaletteBounds(s: string, i: nat): (r: Option<(nat, nat)>)
    ensures r.Some? ==> i + |JsonFence| <= r.value.0 < r.value.1 < |s|
  {
    if !StartsAt(s, JsonFence, i) then None
    else
      var q := Span(s, i + |JsonFence|, Space);
      if q < |s| && s[q] == '{' then
        match ClosingBrace(s, q + 1)
        case None => None
        case Some(k) => Some((q, k))
      else None
  }

  /** The bounds `PaletteBounds` reports are those of a match. */
  lemma PaletteBoundsSound(s: string, i: nat)
    requires PaletteBounds(s, i).Some?
    ensures IsPaletteBlock(s, i, PaletteBounds(s, i).value.0, PaletteBounds(s, i).value.1)
  {
    var t0 := i + |JsonFence|;
    var q := Span(s, t0, Space);
    SpanRun(s, t0, Space);
    assert AllSpace(s[t0..q]);
  }

  /** The captured body when the palette pattern matches at `i`. */
  function PaletteAt(s: string, i: nat): (r: Option<string>)
    ensures r.Some? ==> exists q: nat, k: nat :: IsPaletteBlock(s, i, q, k) && r.value == s[q..k + 1]
  {
    match PaletteBounds(s, i)
    case None => None
    case Some((q, k)) =>
      PaletteBoundsSound(s, i);
      Some(s[q..k + 1])
  }

  /** A closing brace with none before it, from `from` on, is the one `ClosingBrace` finds. */
  lemma {:induction false} ClosingBraceIs(s: string, from: nat, k: nat)
    requires from <= k && ClosesPalette(s, k)
    requires forall t: nat :: from <= t < k ==> !ClosesPalette(s, t)
    ensures ClosingBrace(s, from) == Some(k)
    decreases k - from
  {
    if from < k {
      ClosingBraceIs(s, from + 1, k);
    }
  }

  /** Wherever the palette pattern matches, `PaletteBounds` finds that very match. */
  lemma PaletteBoundsComplete(s: string, i: nat, q: nat, k: nat)
    requires IsPaletteBlock(s, i, q, k)
    ensures PaletteBounds(s, i) == Some((q, k))
  {
    var t0 := i + |JsonFence|;
    forall t | t0 <= t < q ensures IsSpace(s[t]) {
      assert s[t0..q][t - t0] == s[t];
    }
    SpanStopsAt(s, t0, q, Space);
    ClosingBraceIs(s, q + 1, k);
  }

  /** Wherever the palette pattern matches, `PaletteAt` captures that very body. */
  lemma PaletteAtComplete(s: string, i: nat, q: nat, k: nat)
    requires IsPaletteBlock(s, i, q, k)
    ensures PaletteAt(s, i) == Some(s[q..k + 1])
  {
    PaletteBoundsComplete(s, i, q, k);
  }

  /** The leftmost index at or after `from` where the palette pattern matches, with its body. */
  function PaletteBlockFrom(s: string, from: nat): (r: Option<(nat, string)>)
    decreases |s| - from
    ensures r.Some? ==> from <= r.value.0 && PaletteAt(s, r.value.0) == Some(r.value.1)
    ensures r.Some? ==> forall t: nat :: from <= t < r.value.0 ==> PaletteAt(s, t).None?
    ensures r.None? ==> forall t: nat :: from <= t ==> PaletteAt(s, t).None?
  {
    if from >= |s| then
      assert forall t: nat :: from <= t ==> !StartsAt(s, JsonFence, t);
      None
    else
      match PaletteAt(s, from)
      case Some(body) => Some((from, body))
      case None => PaletteBlockFrom(s, from + 1)
  }

  /** What the JSON decoder reports about the `colors` property. */
  datatype ColorsField = Missing | NotAnArray | ColorArray(entries: seq<Color>)

  /**
   * A decoded palette object: `palette_name` when it is a string, and `colors`.
   * The decoder itself (`JSON.parse`) is not modelled; `None` is a parse failure.
   */
  datatype DecodedPalette = DecodedPalette(paletteName: Option<string>, colors: ColorsField)

  /** The branding record built from a decoded block, when `colors` is an array. */
  function PaletteFromJson(d: Option<DecodedPalette>): (r: Option<BrandingData>)
    ensures r.Some? <==> d.Some? && d.value.colors.ColorArray?
    ensures r.Some? ==> r.value.mood == GeneratedMood && r.value.colors == d.value.colors.entries
    ensures r.Some? && d.value.paletteName.Some? && d.value.paletteName.value != "" ==>
      r.value.paletteName == d.value.paletteName.value
    ensures r.Some? && (d.value.paletteName.None? || d.value.paletteName.value == "") ==>
      r.value.paletteName == DefaultPaletteName
  {
    match d
    case Some(DecodedPalette(name, ColorArray(cs))) =>
      Some(BrandingData(if name.Some? && name.value != "" then name.value else DefaultPaletteName, cs, GeneratedMood))
    case _ => None
  }

  /** `parsePaletteFromResponse`, with `decode` standing for `JSON.parse`. */
  function ParsePalette(text: string, decode: string -> Option<DecodedPalette>): (r: Option<BrandingData>)
    ensures PaletteBlockFrom(text, 0).None? ==> r.None?
  {
    match PaletteBlockFrom(text, 0)
    case None => None
    case Some((_, body)) => PaletteFromJson(decode(body))
  }

  /**
   * The palette comes from the first block the pattern matches: its body, from
   * the `{` to the first `}` that white space and a fence follow, is what is decoded.
   */
  lemma ParsePaletteUsesFirstBlock(text: string, decode: string -> Option<DecodedPalette>, i: nat, q: nat, k: nat)
    requires IsPaletteBlock(text, i, q, k)
    requires forall i': nat, q': nat, k': nat :: i' < i ==> !IsPaletteBlock(text, i', q', k')
    ensures ParsePalette(text, decode) == PaletteFromJson(decode(text[q..k + 1]))
  {
    PaletteAtComplete(text, i, q, k);
    var b := PaletteBlockFrom(text, 0);
    assert b.Some?;
    var p := b.value.0;
    assert PaletteAt(text, p).Some?;
    assert exists q': nat, k': nat :: IsPaletteBlock(text, p, q', k');
    assert p == i;
  }

  /** A reply in which the palette pattern matches nowhere leaves the palette alone. */
  lemma ParsePaletteWithoutBlock(text: string, decode: string -> Option<DecodedPalette>)
    requires forall i: nat, q: nat, k: nat :: !IsPaletteBlock(text, i, q, k)
    ensures ParsePalette(text, decode).None?
  {
    var b := PaletteBlockFrom(text, 0);
    assert b.Some? ==> PaletteAt(text, b.value.0).Some?;
  }

  // ---------------------------------------------------------------------------
  // Supplemental provision: the first ``` … ``` body

  /** The body of the first fenced block, language tag included. */
  function FencedBody(s: string): (r: Option<string>)
    ensures r.None? <==> forall i: nat, j: nat :: !LazyBlock(s, Fence, i, j)
  {
    match FirstBlock(s, Fence)
    case None => None
    case Some((i, j)) => Some(s[i + |Fence|..j])
  }

  /**
   * `parseProvisionText`: only at the Incorporation step (as captured when the
   * turn began) or when the reply names the supplemental provisions, and never
   * when the reply holds a ```` ```json ```` fence; then the first fenced body, trimmed.
   */
  function ParseProvision(text: string, stepAtCall: Step): (r: Option<string>)
    ensures Contains(text, JsonFence) ==> r.None?
    ensures stepAtCall != Incorporation && !Contains(text, SupplementalHeading) ==> r.None?
    ensures r.Some? ==> exists i: nat, j: nat ::
      LazyBlock(text, Fence, i, j) && r.value == Trim(text[i + |Fence|..j])
  {
    if stepAtCall == Incorporation || Contains(text, SupplementalHeading) then
      if Contains(text, JsonFence) then None
      else
        match FirstBlock(text, Fence)
        case None => None
        case Some((i, j)) => Some(Trim(text[i + |Fence|..j]))
    else None
  }

  /** When it applies, the provision is the first fenced body, trimmed; nothing if there is no block. */
  lemma ParseProvisionUsesFirstBlock(text: string, stepAtCall: Step, i: nat, j: nat)
    requires stepAtCall == Incorporation || Contains(text, SupplementalHeading)
    requires !Contains(text, JsonFence)
    requires LazyBlock(text, Fence, i, j)
    requires forall i': nat, j': nat :: i' < i ==> !LazyBlock(text, Fence, i', j')
    ensures ParseProvision(text, stepAtCall) == Some(Trim(text[i + 3..j]))
  {
    var b := FirstBlock(text, Fence);
    assert b.Some?;
    assert b.value.0 == i;
  }

  // ---------------------------------------------------------------------------
  // The whole reply

  /** Everything one reply contributes: the shown text and the three optional updates. */
  datatype ReplyUpdate = ReplyUpdate(
    cleanText: string,
    step: Option<Step>,
    palette: Option<BrandingData>,
    provision: Option<string>)

  /** The three parsers and the clean text, each applied to the raw reply. */
  function ReconcileReply(reply: string, stepAtCall: Step, decode: string -> Option<DecodedPalette>): ReplyUpdate {
    ReplyUpdate(CleanText(reply), ParseStep(reply), ParsePalette(reply, decode), ParseProvision(reply, stepAtCall))
  }

  /**
   * A reply that ends in a single marker, after prose with no `[` in it: the
   * marker sets the step when its number is a step, and removing markers leaves the prose.
   */
  lemma {:induction false} TrailingMarker(prose: string, digits: string)
    requires forall t :: 0 <= t < |prose| ==> prose[t] != '['
    requires |digits| > 0 && AllDigits(digits)
    ensures var reply := prose + StepTag + " " + digits + "]";
      && ParseStep(reply) == StepOf(DecimalValue(digits))
      && StripMarkers(reply) == prose
  {
    var reply := prose + StepTag + " " + digits + "]";
    var i := |prose|;
    var j := i + |StepTag| + 1;
    var k := j + |digits|;
    assert reply[i..i + |StepTag|] == StepTag;
    TagAtIsStartsAt(reply, i);
    assert reply[i + 6] == ' ';
    forall t | j <= t < k ensures IsDigit(reply[t]) {
      assert reply[t] == digits[t - j];
    }
    assert IsMarker(reply, i, j, k);
    forall i': nat, j': nat, k': nat | i' < i ensures !IsMarker(reply, i', j', k') {
      assert reply[i'] == prose[i'];
    }
    ParseStepUsesFirstMarker(reply, i, j, k);
    StripMarkersRemovesFirst(reply, i, j, k);
    assert k + 1 == |reply|;
    assert reply[..i] == prose;
  }

  /** The chat shows such a reply as its prose, trimmed, when that holds no JSON block. */
  lemma TrailingMarkerShown(prose: string, digits: string)
    requires forall t :: 0 <= t < |prose| ==> prose[t] != '['
    requires |digits| > 0 && AllDigits(digits)
    requires FirstBlock(Trim(prose), JsonFence).None?
    ensures CleanText(prose + StepTag + " " + digits + "]") == Trim(prose)
  {
    TrailingMarker(prose, digits);
  }

  /** Every step can be set by a reply that ends in its marker, written in decimal. */
  lemma EveryStepHasAMarker(prose: string, step: Step)
    requires forall t :: 0 <= t < |prose| ==> prose[t] != '['
    ensures ParseStep(prose + StepTag + " " + DecimalString(step.Value()) + "]") == Some(step)
  {
    DecimalRoundTrip(step.Value());
    TrailingMarker(prose, DecimalString(step.Value()));
    StepOfValue(step);
  }

  /**
   * A plain reply, with neither a `[` nor a backtick in its prose, that ends in a
   * marker only moves the step: the chat shows the trimmed prose, and neither a
   * palette nor a provision is taken from it.
   */
  lemma PlainReplyOnlyMovesStep(prose: string, digits: string, stepAtCall: Step,
                                decode: string -> Option<DecodedPalette>)
    requires forall t :: 0 <= t < |prose| ==> prose[t] != '[' && prose[t] != '`'
    requires |digits| > 0 && AllDigits(digits)
    ensures ReconcileReply(prose + StepTag + " " + digits + "]", stepAtCall, decode)
      == ReplyUpdate(Trim(prose), StepOf(DecimalValue(digits)), None, None)
  {
    var reply := prose + StepTag + " " + digits + "]";
    MarkedReplyHasNoBacktick(prose, digits);
    NoBacktickNoBlock(reply);
    ParsePaletteWithoutBlock(reply, decode);
    TrimHasNoBacktick(prose);
    NoBacktickNoBlock(Trim(prose));
    TrailingMarker(prose, digits);
    TrailingMarkerShown(prose, digits);
  }

  lemma MarkedReplyHasNoBacktick(prose: string, digits: string)
    requires forall t :: 0 <= t < |prose| ==> prose[t] != '`'
    requires AllDigits(digits)
    ensures var reply := prose + StepTag + " " + digits + "]";
      forall t :: 0 <= t < |reply| ==> reply[t] != '`'
  {
    var reply := prose + StepTag + " " + digits + "]";
    forall t | 0 <= t < |reply| ensures reply[t] != '`' {
      if |prose| + 7 <= t < |prose| + 7 + |digits| {
        assert reply[t] == digits[t - |prose| - 7];
      }
    }
  }

  lemma TrimHasNoBacktick(s: string)
    requires forall t :: 0 <= t < |s| ==> s[t] != '`'
    ensures forall t :: 0 <= t < |Trim(s)| ==> Trim(s)[t] != '`'
  {
    var a := |s| - |TrimStart(s)|;
    var shown := Trim(s);
    assert shown == s[a..a + |shown|];
    forall t | 0 <= t < |shown| ensures shown[t] != '`' {
      assert shown[t] == s[a + t];
    }
  }

  /** Text without a backtick holds no fence, so neither block pattern matches in it. */
  lemma NoBacktickNoBlock(s: string)
    requires forall t :: 0 <= t < |s| ==> s[t] != '`'
    ensures FirstBlock(s, Fence).None? && FirstBlock(s, JsonFence).None?
    ensures forall i: nat, q: nat, k: nat :: !IsPaletteBlock(s, i, q, k)
    ensures !Contains(s, JsonFence)
  {
    forall i: nat | i < |s| ensures !StartsAt(s, Fence, i) && !StartsAt(s, JsonFence, i) {
      if i + 3 <= |s| {
        assert s[i..i + 3][0] == s[i];
      }
    }
  }

  /** A reply ending in `[STEP: 300]` after prose without a `[` sets the Measure dashboard step. */
  lemma TrailingMeasureMarker(prose: string)
    requires forall t :: 0 <= t < |prose| ==> prose[t] != '['
    ensures ParseStep(prose + "[STEP: 300]") == Some(MeasureDashboard)
  {
    MeasureDashboardDigits();
    StepOfValue(MeasureDashboard);
    TrailingMarker(prose, "300");
    assert prose + StepTag + " " + "300" + "]" == prose + "[STEP: 300]";
  }

  /** The digits `300` are the value of the Measure dashboard step. */
  lemma MeasureDashboardDigits()
    ensures AllDigits("300") && DecimalValue("300") == MeasureDashboard.Value()
  {
    assert "300"[..2] == "30" && "30"[..1] == "3" && "3"[..0] == "";
  }
}
