/**
 * The application shell's state machine (`App.tsx`): the whole-record updates
 * of `AppState` made by the section, step, palette and organisation handlers,
 * and the two phases of a chat turn, begin and then success or failure.
 */
module App {
  import opened Wrappers
  import opened Types
  import opened Constants
  import opened ReplyParser

  const Apology := "Sorry, I encountered an error. Please try again."

  /** What the chat service hands back: a reply text, or a thrown error. */
  datatype Reply = Answer(text: string) | Failed

  const InitialState := AppState(Incorporate, Onboarding, [], false, None, None, None, Some(MockOrgs[0]))

  /** The step a section opens on; revisiting Incorporate skips onboarding. */
  function DefaultStep(section: AppSection): (r: Step)
    ensures BandOf(r.Value()) == Some(section)
    ensures r != Onboarding
    ensures section == Incorporate ==> r.Value() == 1
    ensures section == Promote ==> r.Value() == 100
    ensures section == Manage ==> r.Value() == 200
    ensures section == Measure ==> r.Value() == 300
  {
    match section
    case Incorporate => MissionName
    case Promote => BrandIdentity
    case Manage => FederalFiling
    case Measure => MeasureDashboard
  }

  /** The step after a palette is chosen: brand identity, but only while in Promote. */
  function StepAfterPalette(st: AppState): (r: Step)
    ensures st.currentSection == Promote ==> r.Value() == 100
    ensures st.currentSection != Promote ==> r == st.currentStep
  {
    if st.currentSection == Promote then BrandIdentity else st.currentStep
  }

  /** Opening a turn: the user's message goes to the end of the history and loading starts. */
  function BeginTurn(st: AppState, userMessage: Message): (r: AppState)
    ensures r.messages == st.messages + [userMessage]
    ensures r.isLoading
    ensures r.(messages := st.messages, isLoading := st.isLoading) == st
  {
    st.(messages := st.messages + [userMessage], isLoading := true)
  }

  /**
   * A successful reply: one model message with the clean text, loading ends,
   * and the parsed step, palette and provision are merged in. A step replaces
   * the old one when present; a palette replaces the old one wholesale; a
   * provision only when it is non-empty. Section, URL and organisation are untouched.
   */
  function MergeReply(st: AppState, u: ReplyUpdate, id: string, timestamp: int): (r: AppState)
    ensures |r.messages| == |st.messages| + 1 && r.messages[..|st.messages|] == st.messages
    ensures r.messages[|st.messages|] == Message(id, Model, u.cleanText, timestamp)
    ensures !r.isLoading
    ensures u.step.Some? ==> r.currentStep == u.step.value
    ensures u.step.None? ==> r.currentStep == st.currentStep
    ensures u.palette.Some? ==> r.brandingData == u.palette
    ensures u.palette.None? ==> r.brandingData == st.brandingData
    ensures u.provision.Some? && u.provision.value != "" ==> r.supplementalProvisionText == u.provision
    ensures u.provision.None? || u.provision.value == "" ==> r.supplementalProvisionText == st.supplementalProvisionText
    ensures r.currentSection == st.currentSection && r.browserUrl == st.browserUrl && r.activeOrg == st.activeOrg
  {
    var message := Message(id, Model, u.cleanText, timestamp);
    st.(
      messages := st.messages + [message],
      isLoading := false,
      currentStep := u.step.GetOr(st.currentStep),
      brandingData := if u.palette.Some? then u.palette else st.brandingData,
      supplementalProvisionText :=
        if u.provision.Some? && u.provision.value != "" then u.provision else st.supplementalProvisionText)
  }

  /** A failed reply: the fixed apology is appended, loading ends, nothing else changes. */
  function FailTurn(st: AppState, id: string, timestamp: int): (r: AppState)
    ensures |r.messages| == |st.messages| + 1 && r.messages[..|st.messages|] == st.messages
    ensures r.messages[|st.messages|] == Message(id, Model, Apology, timestamp)
    ensures !r.isLoading
    ensures r.(messages := st.messages, isLoading := st.isLoading) == st
  {
    st.(messages := st.messages + [Message(id, Model, Apology, timestamp)], isLoading := false)
  }

  /** The second phase of a turn, for either outcome of the chat service. */
  function FinishTurn(st: AppState, reply: Reply, stepAtCall: Step, decode: string -> Option<DecodedPalette>,
                      id: string, timestamp: int): (r: AppState)
    ensures |r.messages| == |st.messages| + 1 && r.messages[..|st.messages|] == st.messages
    ensures !r.isLoading && r.messages[|st.messages|].role == Model
  {
    match reply
    case Answer(text) => MergeReply(st, ReconcileReply(text, stepAtCall, decode), id, timestamp)
    case Failed => FailTurn(st, id, timestamp)
  }

  /**
   * A whole turn adds exactly two messages, the user's and then the model's,
   * leaves every earlier message as it was, and ends with loading off.
   */
  lemma TurnAppendsTwoMessages(st: AppState, userMessage: Message, reply: Reply,
                               decode: string -> Option<DecodedPalette>, id: string, timestamp: int)
    ensures var r := FinishTurn(BeginTurn(st, userMessage), reply, st.currentStep, decode, id, timestamp);
      && |r.messages| == |st.messages| + 2
      && r.messages[..|st.messages|] == st.messages
      && r.messages[|st.messages|] == userMessage
      && r.messages[|st.messages| + 1].role == Model
      && !r.isLoading
  {
    var b := BeginTurn(st, userMessage);
    var r := FinishTurn(b, reply, st.currentStep, decode, id, timestamp);
    HistoryExtendedTwice(st.messages, userMessage, r.messages);
  }

  lemma HistoryExtendedTwice(history: seq<Message>, userMessage: Message, after: seq<Message>)
    requires |after| == |history| + 2 && after[..|history| + 1] == history + [userMessage]
    ensures after[..|history|] == history && after[|history|] == userMessage
  {
    assert after[..|history|] == after[..|history| + 1][..|history|];
    assert after[|history|] == after[..|history| + 1][|history|];
  }

  /** A failed turn leaves the state as it was apart from the two new messages. */
  lemma FailedTurnOnlyAddsMessages(st: AppState, userMessage: Message, decode: string -> Option<DecodedPalette>,
                                   id: string, timestamp: int)
    requires !st.isLoading
    ensures FinishTurn(BeginTurn(st, userMessage), Failed, st.currentStep, decode, id, timestamp)
      == st.(messages := st.messages + [userMessage, Message(id, Model, Apology, timestamp)])
  {
    assert st.messages + [userMessage] + [Message(id, Model, Apology, timestamp)]
      == st.messages + [userMessage, Message(id, Model, Apology, timestamp)];
  }

  /**
   * A reply carrying a JSON fence never touches the provision, even at the
   * Incorporation step or when it names the supplemental provisions.
   */
  lemma JsonFenceKeepsProvision(st: AppState, text: string, stepAtCall: Step,
                                decode: string -> Option<DecodedPalette>, id: string, timestamp: int)
    requires Text.Contains(text, JsonFence)
    ensures FinishTurn(st, Answer(text), stepAtCall, decode, id, timestamp).supplementalProvisionText
      == st.supplementalProvisionText
  {
  }

  /** An answer moves the step to the one its text names, if any, and never changes the section. */
  lemma AnswerSetsStep(st: AppState, text: string, stepAtCall: Step, decode: string -> Option<DecodedPalette>,
                       id: string, timestamp: int)
    ensures var r := FinishTurn(st, Answer(text), stepAtCall, decode, id, timestamp);
      && r.currentStep == ParseStep(text).GetOr(st.currentStep)
      && r.currentSection == st.currentSection
  {
  }

  /**
   * Nothing ties the step a reply sets to the current section: a reply whose
   * marker names a Measure step (such as prose without a `[` followed by
   * `[STEP: 300]`, see `TrailingMeasureMarker`) moves an Incorporate session to
   * that step while the section stays Incorporate.
   */
  lemma ReplyStepIgnoresSection(st: AppState, text: string, decode: string -> Option<DecodedPalette>,
                                id: string, timestamp: int)
    requires st.currentSection == Incorporate
    requires ParseStep(text) == Some(MeasureDashboard)
    ensures var r := FinishTurn(st, Answer(text), st.currentStep, decode, id, timestamp);
      r.currentStep == MeasureDashboard && r.currentSection == Incorporate
      && BandOf(r.currentStep.Value()) != Some(r.currentSection)
  {
    AnswerSetsStep(st, text, st.currentStep, decode, id, timestamp);
  }

  /** The application's state holder: the launch flag and the one `AppState` record. */
  class AppStore {
    var hasLaunched: bool
    var state: AppState

    constructor ()
      ensures !hasLaunched && state == InitialState
      ensures state.activeOrg == Some(MockOrgs[0]) && state.messages == []
    {
      hasLaunched := false;
      state := InitialState;
    }

    /**
     * `handleLaunch`: the app is shown; when the chat session could be opened
     * the history becomes the single greeting, otherwise the state is kept.
     */
    method HandleLaunch(chatReady: bool, now: int)
      modifies this
      ensures hasLaunched
      ensures chatReady ==> state == old(state).(messages := [Message("init", Model, InitialGreeting, now)])
      ensures !chatReady ==> state == old(state)
    {
      hasLaunched := true;
      if chatReady {
        state := state.(messages := [Message("init", Model, InitialGreeting, now)]);
      }
    }

    /** `handleSectionChange`: the section and its default step. */
    method HandleSectionChange(section: AppSection)
      modifies this
      ensures state == old(state).(currentSection := section, currentStep := DefaultStep(section))
      ensures BandOf(state.currentStep.Value()) == Some(state.currentSection)
      ensures hasLaunched == old(hasLaunched)
    {
      state := state.(currentSection := section, currentStep := DefaultStep(section));
    }

    /** `handleStepSelect`: any step, whatever the section. */
    method HandleStepSelect(step: Step)
      modifies this
      ensures state == old(state).(currentStep := step)
      ensures hasLaunched == old(hasLaunched)
    {
      state := state.(currentStep := step);
    }

    /** `handlePaletteChange`: the palette, and brand identity when in Promote. */
    method HandlePaletteChange(palette: BrandingData)
      modifies this
      ensures state == old(state).(brandingData := Some(palette), currentStep := StepAfterPalette(old(state)))
      ensures hasLaunched == old(hasLaunched)
    {
      state := state.(brandingData := Some(palette), currentStep := StepAfterPalette(state));
    }

    /** `handleOrgChange`: the active organisation only. */
    method HandleOrgChange(org: Organization)
      modifies this
      ensures state == old(state).(activeOrg := Some(org))
      ensures hasLaunched == old(hasLaunched)
    {
      state := state.(activeOrg := Some(org));
    }

    /** The first phase of `handleSendMessage`. */
    method BeginSend(text: string, id: string, now: int)
      modifies this
      ensures state == BeginTurn(old(state), Message(id, User, text, now))
      ensures hasLaunched == old(hasLaunched)
    {
      state := BeginTurn(state, Message(id, User, text, now));
    }

    /**
     * The second phase of `handleSendMessage`, applied to whatever the state is
     * by then; `stepAtCall` is the step the handler saw when the turn began.
     */
    method CompleteSend(reply: Reply, stepAtCall: Step, decode: string -> Option<DecodedPalette>, id: string, now: int)
      modifies this
      ensures state == FinishTurn(old(state), reply, stepAtCall, decode, id, now)
      ensures hasLaunched == old(hasLaunched)
    {
      state := FinishTurn(state, reply, stepAtCall, decode, id, now);
    }

    /**
     * `handleSendMessage` when no other handler runs while the reply is awaited;
     * the clock is read once for the user message and again when the reply arrives.
     */
    method HandleSendMessage(text: string, reply: Reply, decode: string -> Option<DecodedPalette>,
                             userId: string, replyId: string, userNow: int, replyNow: int)
      modifies this
      ensures state == FinishTurn(BeginTurn(old(state), Message(userId, User, text, userNow)),
                                  reply, old(state).currentStep, decode, replyId, replyNow)
      ensures |state.messages| == |old(state).messages| + 2 && !state.isLoading
      ensures state.messages[..|old(state).messages|] == old(state).messages
      ensures hasLaunched == old(hasLaunched)
    {
      var stepAtCall := state.currentStep;
      BeginSend(text, userId, userNow);
      CompleteSend(reply, stepAtCall, decode, replyId, replyNow);
      TurnAppendsTwoMessages(old(state), Message(userId, User, text, userNow), reply, decode, replyId, replyNow);
    }
  }
}
