# NFP-Compass reply reconciliation, in Dafny

NFP-Compass is a single-page assistant that walks a founder through forming a
Texas nonprofit. Its assistant, "Gemma", chats with the founder. Each reply
from the chat model is free text that may carry machine-readable content:
- a `[STEP: n]` marker that moves the wizard;
- a ```` ```json ```` palette block that restyles the brand panel;
- a fenced block with supplemental provisions for the certificate of formation.

The application shell (`App.tsx`) pulls these out of each reply. It removes
them from the text the chat shows and merges them into one `AppState` record.

This project models that shell and the pieces around it:
- the enumerations and records (`types.ts`) and the constant tables (`constants.ts`);
- the colour helpers;
- the sidebar, the right-hand pane, the board chart, the landing page and the chat input;
- the string extraction inside the LinkedIn profile lookup.

The regular expressions the source uses are written out as Dafny functions with
JavaScript's semantics:
- the leftmost match wins;
- `*?` stops at the first closing fence it can;
- `\s` is JavaScript's white-space set, the same set `trim` drops;
- a global `replace` is one left-to-right pass.

Each is paired with a declarative predicate that says what a match is, and
lemmas show that the function finds the first match.

Modules, one per source file:
- `Types`: `types.ts`.
- `Constants`: `constants.ts`.
- `ReplyParser`: the parsers in `App.tsx`.
- `App`: the state machine in `App.tsx`.
- `ColorUtil`: the colour helpers in `App.tsx`.
- `ProgressBar`, `BrowserWindow`, `OrgChart`, `LandingPage`, `ChatInterface`: the components of the same names.
- `SteelService`: `services/steelService.ts`.

Helper modules:
- `Wrappers`: `Option`.
- `Text`: string search, `trim`, decimal digits.
- `ArrayOps`: `find`, `findIndex`, `filter`.

React state that a component updates in place becomes a class with fields:
- `App.AppStore` holds the launch flag and the `AppState` record;
- `BrowserWindow.CopyButton`, `LandingPage.Landing` and `ChatInterface.Chat` hold their components' state.

Each handler is a method whose `ensures` gives the whole new state. The shell's
handlers replace the record through pure transition functions (`BeginTurn`,
`MergeReply`, `FailTurn`, `FinishTurn`), and the lemmas reason about those
functions.

Inputs the source takes from outside the model are parameters:
- the chat model's reply: `App.Reply`, either an answer text or a thrown error;
- `JSON.parse`: a function `decode: string -> Option<DecodedPalette>`;
- `Date.now()` values and the ids built from them;
- whether the chat session or speech recognition could be created;
- the outcome of the scrape and of the session release.

Three behaviours of the code that the model keeps:
- **The step is not kept inside the current section's band.** A reply marker or a step selection can set any step in any section. `App.ReplyStepIgnoresSection` shows a reply whose marker names step 300 moving an Incorporate session to a Measure step; `ReplyParser.TrailingMeasureMarker` shows that any prose without a `[` followed by `[STEP: 300]` is such a reply.
- **Marker removal is a single pass.** It can leave a marker in the shown text; `ReplyParser.StrippingCanLeaveAMarker` shows `"[STEP:[STEP:d]d]"` becoming `"[STEP:d]"` for any digit d.
- **A failed turn is rarely `Failed` in practice.** The chat service already turns its own errors into fallback reply strings. The `Failed` branch models the `catch` in `App.tsx`.

## Model

| member | source | states |
|---|---|---|
| Types.SectionNameInjective | types.ts:2-7 | the four sections carry four distinct string values |
| Types.Step.Value | types.ts:9-42 | every step's number is one of 0..9, 100..104, 200..204, 300..303 |
| Types.StepOf | App.tsx:114 | `n in Step`: a step is found exactly for those numbers, and it is the one with value n |
| Types.StepOfValue | types.ts:9-42 | each step is found again from its own number |
| Types.StepValueInjective | types.ts:9-42 | step numbers are pairwise distinct |
| Types.BandOf | types.ts:10-41 | the bands the enumeration labels: 0-9 Incorporate, 100s Promote, 200s Manage, 300s Measure |
| Types.EveryStepHasABand | types.ts:10-41 | every step falls in one section's band |
| Constants.StepInfo | constants.ts:194-227 | only Mission & Name, Incorporation, EIN and Federal 501(c)(3) carry a link, and each link is non-empty |
| Constants.PresetPalettesShape | constants.ts:145-186 | four presets, each with four colours whose first has role Primary |
| Constants.MockOrgsShape | constants.ts:188-192 | three organisations with distinct ids; the first is Wear it Forward, initials WF |
| Constants.StatesIndexedFrom0 | constants.ts:230-242 | the first 13 states have two-letter codes found at their own index |
| Constants.StatesIndexedFrom13 | constants.ts:243-254 | the same for states 13 to 24 |
| Constants.StatesIndexedFrom25 | constants.ts:255-267 | the same for states 25 to 37 |
| Constants.StatesIndexedFrom38 | constants.ts:268-279 | the same for states 38 to 49 |
| Constants.UsStatesShape | constants.ts:229-280 | 50 states, two-letter codes, pairwise distinct, Texas/TX among them |
| ColorUtil.HexDigitValue | App.tsx:29-31 | a hex digit's value is below 16 |
| ColorUtil.HexBody | App.tsx:27 | the pattern accepts exactly an optional `#` and six hex digits of either case, and the digits captured are the input's last six characters |
| ColorUtil.PairValue | App.tsx:29-31 | two hex digits make a channel of at most 255 |
| ColorUtil.HexToRgb | App.tsx:26-33 | channels lie in 0..255; black for any text the pattern rejects |
| ColorUtil.LightenChannel | App.tsx:42-46 | the channel is capped at 255 and floored at 0, and unchanged in between |
| ColorUtil.Pow16 | App.tsx:46 | powers of sixteen are positive |
| ColorUtil.HexChar | App.tsx:46 | each digit value has a lowercase hex character with that value |
| ColorUtil.ToHexString | App.tsx:46 | `toString(16)` of a non-negative integer: at least one lower-case hex digit, with a leading `0` only for zero |
| ColorUtil.FixedHex | App.tsx:46 | a fixed-width rendering has exactly w lowercase hex digits |
| ColorUtil.ToHexOfOffset | App.tsx:46 | `toString(16)` of 16^w + v is "1" followed by v in w digits, so `slice(1)` keeps exactly w digits |
| ColorUtil.FixedHexPair | App.tsx:46 | the fixed-width rendering of hi·256 + lo is hi's rendering followed by lo's two digits |
| ColorUtil.FixedHexTwo | App.tsx:46 | two fixed digits are the high and low nibble of the value |
| ColorUtil.RenderRgb | App.tsx:46 | `"#" + (0x1000000 + packed).toString(16).slice(1)` is `#` and the packed channels in exactly six digits |
| ColorUtil.PairValueOfFixed | App.tsx:29-31 | reading back two rendered digits gives the value rendered |
| ColorUtil.LightenColor | App.tsx:39-47 | the result is `#` and six lowercase hex digits |
| ColorUtil.FixedHexOfChannels | App.tsx:46 | three channels packed and rendered give their three two-digit renderings |
| ColorUtil.HexToRgbOfFixed | App.tsx:26-33 | parsing a rendered colour gives back its channels |
| ColorUtil.LightenColorRoundTrip | App.tsx:39-47 | parsing a lightened colour gives each original channel plus the amount, clamped to 0..255 |
| Text.IndexFrom | App.tsx:146 | the search for the next fence inside the lazy block match: the first occurrence at or after the start, or none at all |
| Text.Contains | App.tsx:142-144 | `includes` holds exactly when the pattern occurs somewhere |
| Text.ReplaceFirst | components/BrowserWindow.tsx:327 | a string-pattern `replace` changes only the first occurrence and nothing without one |
| Text.Span | App.tsx:121 | a run from a position ends at the end of the text or at a character outside the class |
| Text.SpanRun | App.tsx:121 | every character a run passes over is in the class |
| Text.SpanStopsAt | App.tsx:121 | a run that ends at a non-matching character is the one found |
| Text.TrimStart | App.tsx:178 | drops exactly the leading white space |
| Text.TrimEnd | App.tsx:178 | drops exactly the trailing white space |
| Text.Trim | App.tsx:178 | the result neither starts nor ends with white space |
| Text.TrimOfPadded | App.tsx:148 | trimming a padded core gives back the core |
| Text.TrimStartOfPadded | App.tsx:178 | leading white space in front of a non-space is exactly what is dropped |
| Text.TrimEndOfPadded | App.tsx:178 | trailing white space after a non-space is exactly what is dropped |
| Text.TrimEmptyIffAllSpace | components/ChatInterface.tsx:143 | trimming leaves nothing exactly when the text is all white space |
| Text.DigitValue | App.tsx:113 | a decimal digit's value is below 10 |
| Text.DecimalString | App.tsx:113 | the decimal rendering of a number is a non-empty run of digits |
| Text.DecimalRoundTrip | App.tsx:113 | `parseInt(_, 10)` (`DecimalValue`) reads the decimal rendering of every number back as that number |
| ArrayOps.FindIndex | components/OrgChart.tsx:81-83 | the index of the first element satisfying the test, or none when no element does |
| ArrayOps.Find | components/BrowserWindow.tsx:158-160 | `find` gives nothing exactly when no element satisfies the test, else the first that does |
| ArrayOps.Filter | components/OrgChart.tsx:84 | every kept element satisfies the test and none are added |
| ArrayOps.FilterCounts | components/OrgChart.tsx:84 | each satisfying element is kept as often as it occurs, every other dropped |
| ArrayOps.FilterAppend | components/OrgChart.tsx:84 | filtering a concatenation filters each part, so order is kept |
| ReplyParser.TagAtIsStartsAt | App.tsx:111 | the character-wise tag test is exactly an occurrence of `[STEP:` |
| ReplyParser.MarkerClose | App.tsx:111 | where a marker found at a position closes lies inside the text |
| ReplyParser.MarkerCloseComplete | App.tsx:111 | wherever the marker pattern matches, its closing `]` is found |
| ReplyParser.NoMatchNoMarker | App.tsx:111 | where the marker pattern matches nowhere, no marker is found |
| ReplyParser.MarkerAt | App.tsx:111 | a marker found at a position matches `\[STEP:\s*(\d+)\]` there, its number read from the digits |
| ReplyParser.MarkerAtComplete | App.tsx:111 | wherever the marker pattern matches, that very match is found |
| ReplyParser.FirstMarker | App.tsx:111 | the leftmost marker, with none before it |
| ReplyParser.FirstMarkerIs | App.tsx:111 | a marker with none before it is the leftmost one |
| ReplyParser.ParseStepSound | App.tsx:110-117 | a parsed step always comes from a `[STEP: n]` marker in the reply whose number n is that step's value |
| ReplyParser.ParseStepUsesFirstMarker | App.tsx:110-117 | `ParseStep` (`parseStepFromResponse`): only the first marker counts; its number, 0 included, becomes the step iff it is a step value |
| ReplyParser.ParseStepWithoutMarker | App.tsx:110-117 | no marker, no step update |
| ReplyParser.EveryStepHasAMarker | App.tsx:110-117 | every step is set by a reply ending in `[STEP: n]` with n its value in decimal |
| ReplyParser.StripMarkersFrom | App.tsx:178 | the global removal never lengthens the text |
| ReplyParser.StripKeepsChar | App.tsx:178 | a character where the marker pattern matches nowhere is kept, and the scan moves on by one |
| ReplyParser.StripDropsMatch | App.tsx:178 | a match of the marker pattern is dropped as a whole, and the scan resumes after its `]` |
| ReplyParser.StripMarkersUpTo | App.tsx:178 | text in which no marker starts is copied verbatim |
| ReplyParser.StripMarkersWithoutMarker | App.tsx:178 | a reply with no marker is shown unchanged |
| ReplyParser.StripMarkersRemovesFirst | App.tsx:178 | `StripMarkers` (the global replace): the first marker is removed, whatever its number, the prose before it kept, and the text shrinks by at least eight characters |
| ReplyParser.DoubledMarkerPrefix | App.tsx:178 | no marker starts in the outer `[STEP:` of the doubled marker |
| ReplyParser.DoubledMarkerInner | App.tsx:178 | from the inner marker on, only the two characters after it are kept |
| ReplyParser.StrippingCanLeaveAMarker | App.tsx:178 | for any digit d, one pass turns `[STEP:[STEP:d]d]` into `[STEP:d]`, which is itself a marker |
| ReplyParser.FirstBlock | App.tsx:146 | the leftmost lazy fenced block: the first opening and the first closing fence after it |
| ReplyParser.ReplaceJsonBlock | App.tsx:179 | without a JSON block the text is unchanged |
| ReplyParser.ReplaceJsonBlockFirstOnly | App.tsx:179 | only the first JSON block is replaced by the acknowledgement, whether or not it decodes; the rest is kept |
| ReplyParser.ClosingBrace | App.tsx:121 | the first `}` that white space and a fence follow |
| ReplyParser.ClosingBraceIs | App.tsx:121 | a closing brace with none before it is the one found |
| ReplyParser.PaletteBounds | App.tsx:121 | the captured body opens after the ```` ```json ```` fence and closes inside the text |
| ReplyParser.PaletteBoundsSound | App.tsx:121 | the bounds found are those of a match of the palette pattern |
| ReplyParser.PaletteBoundsComplete | App.tsx:121 | wherever the palette pattern matches, its bounds are found |
| ReplyParser.PaletteAt | App.tsx:121 | a body captured at a position is a match of the palette pattern there |
| ReplyParser.PaletteAtComplete | App.tsx:121 | wherever the palette pattern matches, its body is captured |
| ReplyParser.PaletteBlockFrom | App.tsx:121 | the leftmost palette match |
| ReplyParser.PaletteFromJson | App.tsx:122-137 | a palette exactly when `colors` is an array: name or "Custom Palette", mood "Generated by Gemma", colours copied |
| ReplyParser.ParsePalette | App.tsx:119-138 | no palette block, no palette |
| ReplyParser.ParsePaletteUsesFirstBlock | App.tsx:119-138 | the palette is decoded from the first block's body |
| ReplyParser.ParsePaletteWithoutBlock | App.tsx:119-138 | without a matching block the palette is left alone |
| ReplyParser.FencedBody | App.tsx:146 | a fenced body exists exactly when some block matches |
| ReplyParser.ParseProvision | App.tsx:140-152 | never with a JSON fence; only at Incorporation or when the reply names the provisions; else the trimmed body of a block |
| ReplyParser.ParseProvisionUsesFirstBlock | App.tsx:140-152 | the provision is the first fenced body, trimmed, language tag included |
| ReplyParser.TrailingMarker | App.tsx:173-178 | prose without a `[` followed by one marker: the marker sets the step and removing markers leaves exactly the prose |
| ReplyParser.TrailingMarkerShown | App.tsx:178-179 | `CleanText` of such a reply is the trimmed prose when that holds no JSON block |
| ReplyParser.PlainReplyOnlyMovesStep | App.tsx:173-179 | `ReconcileReply` of prose with neither `[` nor a backtick, ending in a marker: the trimmed prose is shown, the step is the marker's, and no palette or provision is taken |
| ReplyParser.NoBacktickNoBlock | App.tsx:121 | text without a backtick matches neither fenced-block pattern nor the palette pattern |
| ReplyParser.TrailingMeasureMarker | App.tsx:110-117 | prose without a `[` followed by `[STEP: 300]` sets the step to MeasureDashboard |
| App.DefaultStep | App.tsx:95-102 | a section's default step lies in its own band and is never onboarding: 1, 100, 200, 300 |
| App.StepAfterPalette | App.tsx:219 | brand identity (100) only in Promote, else the step is kept |
| App.BeginTurn | App.tsx:154-167 | the user's message is appended, loading starts, nothing else changes |
| App.MergeReply | App.tsx:181-195 | one model message with the clean text; step replaced when parsed; palette replaced wholesale; provision only when non-empty; history kept |
| App.FailTurn | App.tsx:197-207 | the apology is appended, loading ends, nothing else changes |
| App.FinishTurn | App.tsx:169-208 | either outcome appends exactly one model message, keeps the history and ends loading |
| App.TurnAppendsTwoMessages | App.tsx:154-208 | a whole turn adds the user's message and then one model message, earlier ones untouched |
| App.HistoryExtendedTwice | App.tsx:165 | appending twice keeps the earlier history and puts the user's message right after it |
| App.FailedTurnOnlyAddsMessages | App.tsx:197-207 | a failed turn changes nothing but the two new messages |
| App.JsonFenceKeepsProvision | App.tsx:144 | a reply with a JSON fence never changes the provision |
| App.AnswerSetsStep | App.tsx:192 | an answer sets the step its text names, if any, and never changes the section |
| App.ReplyStepIgnoresSection | App.tsx:192 | a reply naming step 300 moves an Incorporate session to a step outside its band |
| App.AppStore.constructor | App.tsx:13-23 | the initial state: Incorporate, onboarding, no messages, the first organisation |
| App.AppStore.HandleLaunch | App.tsx:76-93 | launched; the history becomes the greeting when the chat opens, else the state is kept |
| App.AppStore.HandleSectionChange | App.tsx:95-108 | the section and its default step, which lies in the section's band |
| App.AppStore.HandleStepSelect | App.tsx:211-213 | only the step changes |
| App.AppStore.HandlePaletteChange | App.tsx:215-221 | the palette, and step 100 only in Promote |
| App.AppStore.HandleOrgChange | App.tsx:223-229 | only the active organisation changes |
| App.AppStore.BeginSend | App.tsx:154-167 | the turn's first phase |
| App.AppStore.CompleteSend | App.tsx:169-208 | the turn's second phase on the state as it is by then |
| App.AppStore.HandleSendMessage | App.tsx:154-209 | both phases with the step seen at the start, the user message and the reply each stamped with its own clock reading; two messages, history kept, loading off |
| ProgressBar.SectionSteps | components/ProgressBar.tsx:19-33 | every step a section lists is in the section's band |
| ProgressBar.SectionStepsAscending | components/ProgressBar.tsx:19-33 | a section lists its steps in strictly ascending order |
| ProgressBar.SectionStepsCoverBand | components/ProgressBar.tsx:19-33 | a section lists its whole band, except 0, 8 and 9 for Incorporate |
| ProgressBar.IncorporateListsOneToSeven | components/ProgressBar.tsx:21-23 | the formation list is steps 1 to 7 |
| ProgressBar.RenderSteps | components/ProgressBar.tsx:52-57 | active iff it is the current step; completed iff in Incorporate and below the current step |
| ProgressBar.AtMostOneActive | components/ProgressBar.tsx:53-56 | at most one step is active and none is both active and completed |
| ProgressBar.CompletedFormAPrefix | components/ProgressBar.tsx:56 | completed steps form a prefix, and occur only in Incorporate |
| ProgressBar.Heading | components/ProgressBar.tsx:43-45 | the heading per section, Manage falling to 'Compliance' |
| BrowserWindow.DisplayUrl | components/BrowserWindow.tsx:17-18 | the browser URL if non-empty, else the step's link, else the dashboard; never empty |
| BrowserWindow.DashboardUnlessLinked | components/BrowserWindow.tsx:18 | without a browser URL, exactly the four linked steps leave the dashboard |
| BrowserWindow.AddressBar | components/BrowserWindow.tsx:327 | a URL without the scheme is shown as is, and the bar never lengthens it |
| BrowserWindow.AddressBarDropsLeadingScheme | components/BrowserWindow.tsx:327 | a leading `https://` is dropped |
| BrowserWindow.SelectPane | components/BrowserWindow.tsx:334-337 | branding for steps 8 and 100, help for 3, dashboard for the four Measure steps, else the resource page |
| BrowserWindow.MeasureStepsShowDashboard | components/BrowserWindow.tsx:336 | every step in the Measure band opens the dashboard |
| BrowserWindow.RoleHex | components/BrowserWindow.tsx:158-160 | the first colour with the role gives its hex, unless empty; the fallback otherwise |
| BrowserWindow.RenderBranding | components/BrowserWindow.tsx:142-160 | a placeholder exactly without a palette; else the palette's name, mood and swatches, with primary, secondary and background the hex of the first colour of that role or `#3b82f6`, `#1e293b`, `#f8fafc` |
| BrowserWindow.PresetPrimaryIsShown | components/BrowserWindow.tsx:158 | each preset palette's first colour is the primary shown |
| BrowserWindow.ProvisionShown | components/BrowserWindow.tsx:267 | the provision when non-empty, else the waiting note |
| BrowserWindow.CopyButton.constructor | components/BrowserWindow.tsx:15 | not copied, nothing written |
| BrowserWindow.CopyButton.HandleCopy | components/BrowserWindow.tsx:20-26 | only non-empty text is written and acknowledged |
| BrowserWindow.CopyButton.TimerElapsed | components/BrowserWindow.tsx:24 | the acknowledgement is turned off |
| OrgChart.Officer | components/OrgChart.tsx:81-83 | the first member holding the title, none when nobody does |
| OrgChart.Directors | components/OrgChart.tsx:84 | only members titled Director |
| OrgChart.Render | components/OrgChart.tsx:36-84 | the skeleton exactly for an empty roster: President and Secretary required, Treasurer optional, three director slots; else the officers, the directors and a row flag |
| OrgChart.DirectorsRowShown | components/OrgChart.tsx:150 | the directors row appears iff some member is a Director |
| OrgChart.DirectorsCount | components/OrgChart.tsx:84 | every director is shown as often as listed, nobody else |
| OrgChart.DirectorsKeepOrder | components/OrgChart.tsx:84 | directors keep the roster's order |
| OrgChart.OtherTitlesHidden | components/OrgChart.tsx:81-84 | a member with any other title is drawn nowhere |
| LandingPage.UnsupportedMessage | components/LandingPage.tsx:18 | the error names the chosen code |
| LandingPage.LaunchDisabled | components/LandingPage.tsx:77 | the button is disabled exactly while nothing is selected |
| LandingPage.Landing.constructor | components/LandingPage.tsx:11-12 | nothing selected, no error |
| LandingPage.Landing.HandleStateSelect | components/LandingPage.tsx:25-28 | the code is recorded and the error cleared |
| LandingPage.Landing.HandleLaunch | components/LandingPage.tsx:14-23 | a no-op without a selection; an error for any code but TX; one launch with TX |
| LandingPage.TexasIsSelectable | components/LandingPage.tsx:66-67 | TX is among the codes the list offers |
| ChatInterface.SendDisabled | components/ChatInterface.tsx:206 | disabled exactly when the input is all white space or a reply is loading |
| ChatInterface.MergeTranscript | components/ChatInterface.tsx:70 | the transcript alone into an empty buffer, else after the old text and one space |
| ChatInterface.VoiceQuote | components/ChatInterface.tsx:273 | the last message is quoted exactly when it exists and the model wrote it |
| ChatInterface.Chat.constructor | components/ChatInterface.tsx:16-20 | text mode, empty buffer, not listening |
| ChatInterface.Chat.Edit | components/ChatInterface.tsx:201-202 | typing replaces the buffer, except while a reply is loading, when the input is disabled and the buffer is kept |
| ChatInterface.Chat.Submit | components/ChatInterface.tsx:141-147 | when enabled the untrimmed buffer is sent once and cleared; otherwise nothing changes |
| ChatInterface.Chat.SpeechResult | components/ChatInterface.tsx:62-73 | voice mode sends the transcript, other modes merge it into the buffer; listening stops |
| ChatInterface.Chat.SpeechEnded | components/ChatInterface.tsx:75-82 | listening stops |
| ChatInterface.Chat.ToggleListening | components/ChatInterface.tsx:88-100 | flips listening when a recogniser exists, else changes nothing |
| ChatInterface.Chat.SelectMode | components/ChatInterface.tsx:340-356 | only the mode changes |
| SteelService.FirstUrlMatch | services/steelService.ts:101 | the leftmost position where the URL pattern matches |
| SteelService.ExtractUrl | services/steelService.ts:101-110 | none exactly when the pattern matches nowhere; else the prefix and a run of URL characters |
| SteelService.ExtractUrlAtFirstMatch | services/steelService.ts:101-110 | the URL is taken at the first match and runs to the first quote, apostrophe or white space |
| SteelService.FirstHeadlineMatch | services/steelService.ts:113 | the leftmost headline match |
| SteelService.ExtractHeadline | services/steelService.ts:113-116 | none exactly when the pattern matches nowhere; else non-empty text without quotes |
| SteelService.ExtractHeadlineAtFirstMatch | services/steelService.ts:113-116 | the headline is the text between the first key and the next quote |
| SteelService.EmptyHeadlineIgnored | services/steelService.ts:113 | an empty headline value is not taken |
| SteelService.SearchLinkedIn | services/steelService.ts:70-136 | a profile exactly when the scrape and release succeed, with the name verbatim and the three fields extracted only from an object |

## Left out

- The chat, speech and profile services (`services/geminiService.ts`, `services/elevenLabsService.ts`), the database client (`lib/`) and `test-db.tsx` talk to the network. They are not part of this model. Their results are parameters.
- `JSON.parse` is a decoder parameter; no JSON grammar is modelled. Decoded `colors` entries are assumed to be objects: a `null` or non-object entry, on which the source would throw when reading `c.role`, cannot be represented. `ReplyParser.PaletteFromJson` reads a `palette_name` that decodes to a non-string value as missing, although the source would keep a truthy non-string value.
- The theme effect is left out: luminance, the 0.2/0.5 thresholds and CSS variables are floating point and DOM work. So is `Math.round(2.55 * percent)`.
- ColorUtil.LightenColor: takes the lighten amount as an integer, not the percentage the source scales and rounds.
- Rendering is left out: JSX markup, markdown, camera access, scrolling, alerts and console output.
- The speech-recognition engine itself is left out; only its result and end events are modelled.
- Clipboard contents beyond the recorded writes are left out.
- `TopNavigation.tsx` and `OrgSwitcher.tsx` are left out: dropdown open/close state and a mock wallet toggle.
- Tool calls and `[ORG_NAME: …]` markers appear only in the prompt text, and no code handles them. Board rosters in state and derived initials are left out for the same reason.
- `browserUrl` is never set by the code, so it only ever holds its initial `None`.
- The `STEPS_INFO` entry keyed by `Step.CreateCampaigns` names no member of the enumeration, so it is omitted. That key is not one any step can look up.
- `Date.now()` ids and timestamps are parameters; their decimal formatting is not modelled.
- App.AppStore.HandleSendMessage: assumes no other handler runs while the reply is awaited. Interleavings are expressible with `BeginSend` and `CompleteSend`.
- SteelService.SearchLinkedIn: session creation and the scrape are folded into one outcome, since either throwing gives the same `null`. Logging is not modelled.
