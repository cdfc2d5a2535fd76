/**
  The step handlers of the echo bot (echobot.py) as transition functions.

  A `World` is what the handlers read and write: the sessions of all chats (the
  global `chat_handlers`, as values), the name registry of chat.py, the global
  `START_DATE`, and the message bundles handed to `send_msgs` with their send
  times. Each handler maps a world and an incoming update to a new world and an
  `Outcome`, the value it returns to the conversation handler. Dates are whole
  numbers of time units; `INTERVAL` is one "day" in the same units.

  The class `EchoBot.Bot` performs these same steps on `Chat.ChatHandler`
  objects; this module states what they do and proves the synchronisation
  properties of the partner barrier.
 */
module EchoEngine {
  import opened Wrappers
  import opened Strings
  import opened Chat
  import opened EchoStates

  /** Telegram never delivers an empty text message. */
  type MessageText = s: string | |s| > 0 witness "?"

  /** What an update carries: a text message (commands included) or a voice note. */
  datatype Content = Text(text: MessageText) | Voice

  datatype Update = Update(chatId: int, chatType: string, username: Option<string>,
                           title: Option<string>, content: Content)

  /** The message batches queued with `send_msgs`. */
  datatype Batch = IntroDone | StoryDone | TensionDone | ListeningDone | FeedbackDone | WeekTwo

  /** One call of `send_msgs`: a batch for one chat, to go out at `sendTime`. */
  datatype Bundle = Bundle(chatId: int, sendTime: int, batch: Batch)

  datatype World = World(
    sessions: map<int, Session>,
    names: map<Option<string>, int>,
    startDate: int,
    scheduled: seq<Bundle>)

  /** The bot's configuration: the pairing table, `ORIGINAL_START_DATE`,
      `INTERVAL`, `STARTING_STATUS` and the sorted tutorial story files. */
  datatype Config = Config(
    pairs: map<string, string>,
    originalStartDate: int,
    interval: int,
    startingStatus: Option<string>,
    tutorialFiles: seq<string>)

  /** What a handler returns: `None` (stay in the current state), a state number,
      `END`, or an exception that escapes the handler. */
  datatype Outcome = Stay | Enter(state: StateId) | End | Failed

  // ---------------------------------------------------------------------------
  // Elementary updates
  // ---------------------------------------------------------------------------

  /** `initialize_chat_handler`: the chat's session, created on first contact. */
  function Touch(w: World, u: Update, cfg: Config): (r: World)
    ensures u.chatId in r.sessions
    ensures u.chatId in w.sessions ==> r == w
    ensures forall k :: k in w.sessions ==> k in r.sessions && r.sessions[k] == w.sessions[k]
    ensures r.startDate == w.startDate && r.scheduled == w.scheduled
  {
    if u.chatId in w.sessions then w
    else
      var names := w.names[SessionName(u.chatType, u.username, u.title) := u.chatId];
      w.(sessions := w.sessions[u.chatId := NewSession(u.chatId, u.chatType, u.username, u.title, cfg.pairs, names)],
         names := names)
  }

  /** `c.status = value` on the session of chat `k`. */
  function SetStatusOf(w: World, k: int, value: string): World
    requires k in w.sessions
  {
    w.(sessions := w.sessions[k := w.sessions[k].WithStatus(value)])
  }

  function SetSubdir(w: World, k: int, subdir: string): World
    requires k in w.sessions
  {
    w.(sessions := w.sessions[k := w.sessions[k].(subdir := subdir)])
  }

  function SetWeek(w: World, k: int, week: nat): World
    requires k in w.sessions
  {
    w.(sessions := w.sessions[k := w.sessions[k].(week := week)])
  }

  /** `send_vn`: the file is recorded as sent to chat `k`. */
  function AddSent(w: World, k: int, vn: string): World
    requires k in w.sessions
  {
    w.(sessions := w.sessions[k := w.sessions[k].(sent := w.sessions[k].sent + [vn])])
  }

  /** `c.send_msgs(messages, send_time)`. */
  function Schedule(w: World, k: int, t: int, b: Batch): World {
    w.(scheduled := w.scheduled + [Bundle(k, t, b)])
  }

  /** One turn of a barrier loop: the intermediate status, the batch, the status
      the chat then awaits. */
  function Advance(w: World, k: int, midway: string, t: int, b: Batch, awaiting: string): World
    requires k in w.sessions
  {
    SetStatusOf(Schedule(SetStatusOf(w, k, midway), k, t, b), k, awaiting)
  }

  function WeekText(week: nat): string {
    NatToString(week)
  }

  /** When each barrier's batch goes out: `START_DATE` plus the batch's own
      number of intervals. */
  function SendTime(startDate: int, b: Batch, interval: int): int {
    match b
    case IntroDone => startDate + interval
    case StoryDone => startDate + 2 * interval
    case TensionDone => startDate + 3 * interval
    case ListeningDone => startDate + 5 * interval
    case FeedbackDone => startDate + 6 * interval
    case WeekTwo => startDate
  }

  /** `chat_handlers[chat.paired_chat_id]` succeeds exactly when the partner id is
      set and a session exists for it. */
  predicate PartnerKnown(w: World, id: int)
    requires id in w.sessions
  {
    w.sessions[id].pairedChatId.Some? && w.sessions[id].pairedChatId.value in w.sessions
  }

  /** `chat.first_name` exists: the constructor sets it only for a private
      chat, so reading it for any other chat raises `AttributeError`. Every
      voice-note branch reads it, in `get_voicenote`'s thank-you and in the
      handlers' own. */
  predicate HasFirstName(w: World, k: int)
    requires k in w.sessions
  {
    w.sessions[k].chatType == "private"
  }

  function PartnerOf(w: World, id: int): int
    requires id in w.sessions && PartnerKnown(w, id)
  {
    w.sessions[id].pairedChatId.value
  }

  // ---------------------------------------------------------------------------
  // /start and the tutorial
  // ---------------------------------------------------------------------------

  /** `if STARTING_STATUS:` */
  predicate SkipsAhead(cfg: Config) {
    cfg.startingStatus.Some? && cfg.startingStatus.value != ""
  }

  /** `start`: refresh the pairing; an unknown user ends the conversation; a known
      one enters week 1 and either jumps to the configured state, leaves a group,
      or is welcomed. */
  function Start(w: World, u: Update, cfg: Config): (r: (World, Outcome))
    ensures u.chatId in r.0.sessions
    ensures forall k :: k in w.sessions && k != u.chatId ==> k in r.0.sessions && r.0.sessions[k] == w.sessions[k]
  {
    var w0 := Touch(w, u, cfg);
    var id := u.chatId;
    var s := w0.sessions[id];
    var (partner, partnerId) := ResolvePairing(s.name, cfg.pairs, w0.names);
    var w1 := w0.(sessions := w0.sessions[id := s.(pairedUser := partner, pairedChatId := partnerId)]);
    if !w1.sessions[id].Paired() then (w1, End)
    else
      var w2 := SetWeek(w1, id, 1);
      if SkipsAhead(cfg) then
        match StateIndex(cfg.startingStatus.value)
        case Some(k) => (w2, Enter(k))
        case None => (w2, Failed)
      else if Contains(s.chatType, "group") then (SetStatusOf(w2, id, "left_group"), End)
      else (SetStatusOf(w2, id, "start_welcomed"), Enter(StartWelcomed))
  }

  /** `start` with the lookup that passing `chat_handlers` to `set_paired_user`
      evidently asks for: once the sender has looked its partner up, the partner's
      existing session looks its own partner up again as well, and so learns the
      sender's chat id. */
  function StartMutual(w: World, u: Update, cfg: Config): (World, Outcome) {
    var (w1, o) := Start(w, u, cfg);
    var p := w1.sessions[u.chatId].pairedChatId;
    if p.Some? && p.value in w1.sessions && p.value != u.chatId then
      var ps := w1.sessions[p.value];
      var (partner, partnerId) := ResolvePairing(ps.name, cfg.pairs, w1.names);
      (w1.(sessions := w1.sessions[p.value := ps.(pairedUser := partner, pairedChatId := partnerId)]), o)
    else (w1, o)
  }

  /** `start_tutorial`: only the exact command moves on. */
  function StartTutorial(w: World, u: Update, cfg: Config): (World, Outcome) {
    var w0 := Touch(w, u, cfg);
    if u.content == Text("/starttutorial") then (SetStatusOf(w0, u.chatId, "tut_started"), Enter(TutorialStarted))
    else (w0, Stay)
  }

  /** `get_tutorial_story`: sends the first tutorial file; with no tutorial files
      the index raises. */
  function GetTutorialStory(w: World, u: Update, cfg: Config): (World, Outcome) {
    var w0 := Touch(w, u, cfg);
    var id := u.chatId;
    if u.content != Text("/gettutorialstory") then (w0, Stay)
    else if cfg.tutorialFiles == [] then (w0, Failed)
    else
      var w1 := AddSent(w0, id, StoryPath(cfg.tutorialFiles[0]));
      (SetStatusOf(w1, id, "tut_story" + WeekText(w1.sessions[id].week) + "received"), Enter(TutStory1))
  }

  /** `tut_story1`: a voice note answers the first story and brings the second;
      `get_voicenote` comes first, so a chat without a first name raises before
      anything changes. */
  function TutStory1Step(w: World, u: Update, cfg: Config): (World, Outcome) {
    var w0 := Touch(w, u, cfg);
    var id := u.chatId;
    if u.content.Text? then (w0, Stay)
    else if !HasFirstName(w0, id) then (w0, Failed)
    else
      var w1 := SetStatusOf(w0, id, "tut_story" + WeekText(w0.sessions[id].week) + "responded");
      if |cfg.tutorialFiles| < 2 then (w1, Failed)
      else
        var w2 := AddSent(w1, id, StoryPath(cfg.tutorialFiles[1]));
        (SetStatusOf(w2, id, "tut_story2received"), Enter(TutStory2))
  }

  /** `tut_story2`: a voice note answers the second story (the status is set
      before `get_voicenote`, which raises for a chat without a first name). */
  function TutStory2Step(w: World, u: Update, cfg: Config): (World, Outcome) {
    var w0 := Touch(w, u, cfg);
    if u.content.Text? then (w0, Stay)
    else
      var w1 := SetStatusOf(w0, u.chatId, "tut_story2responded");
      if !HasFirstName(w1, u.chatId) then (w1, Failed) else (w1, Enter(TutCompleted))
  }

  /** `tut_completed`: /endtutorial moves to the introductions. */
  function TutCompletedStep(w: World, u: Update, cfg: Config): (World, Outcome) {
    var w0 := Touch(w, u, cfg);
    var id := u.chatId;
    if u.content != Text("/endtutorial") then (w0, Stay)
    else
      var w1 := SetSubdir(SetStatusOf(w0, id, "tut_completed"), id, "intros");
      (SetStatusOf(w1, id, "awaiting_intro"), Enter(AwaitingIntro))
  }

  // ---------------------------------------------------------------------------
  // The partner barriers
  // ---------------------------------------------------------------------------

  /** `awaiting_intro`: the introduction barrier. */
  function AwaitingIntroStep(w: World, u: Update, cfg: Config): (World, Outcome) {
    var w0 := Touch(w, u, cfg);
    var id := u.chatId;
    if u.content.Text? then (w0, Stay)
    else
      var w1 := SetStatusOf(w0, id, "received_intro");
      var p := w1.sessions[id].pairedChatId;
      if !HasFirstName(w1, id) then (w1, Failed)
      else if p.None? || p.value == 0 then (w1, Enter(Week1Prompt))
      else if p.value !in w1.sessions then (w1, Failed)
      else if w1.sessions[p.value].status != "received_intro" then (w1, Enter(Week1Prompt))
      else
        var t := SendTime(w1.startDate, IntroDone, cfg.interval);
        var awaiting := "awaiting_week" + WeekText(w1.sessions[id].week) + "_prompt";
        var w2 := Advance(w1, id, "intros_complete", t, IntroDone, awaiting);
        (Advance(w2, p.value, "intros_complete", t, IntroDone, awaiting), Enter(Week1Prompt))
  }

  /** The three weekly steps that share one barrier shape: the story for the
      prompt (`handle_prompt`), the value-tension reflection (`handle_vt`) and the
      curious-listening response to the partner's story (`handle_ps`). */
  datatype Step = Story | Tension | Listening

  function Received(step: Step, week: nat): string {
    "received_week" + WeekText(week) + match step
      case Story => "_story"
      case Tension => "_vt"
      case Listening => "_ps"
  }

  function Midway(step: Step, week: nat): string {
    match step
    case Story => "week" + WeekText(week) + "_day2_complete"
    case Tension => "day3_complete"
    case Listening => "day4_complete"
  }

  function Awaiting(step: Step, week: nat): string {
    match step
    case Story => "awaiting_week" + WeekText(week) + "_vt"
    case Tension => "awaiting_listening_response"
    case Listening => "awaiting_week1_feedback"
  }

  function BatchOf(step: Step): Batch {
    match step
    case Story => StoryDone
    case Tension => TensionDone
    case Listening => ListeningDone
  }

  /** The state each handler returns, the same in both weeks. */
  function NextState(step: Step): StateId {
    match step
    case Story => Week1Vt
    case Tension => Week1Ps
    case Listening => Week1Feedback
  }

  /** The world just before the barrier test: `handle_prompt` first switches the
      chat's subdirectory, then a voice note sets the chat's `received_*` status. */
  function Prepared(step: Step, w: World, u: Update, cfg: Config): World {
    var w0 := Touch(w, u, cfg);
    var week := w0.sessions[u.chatId].week;
    if step == Story then SetSubdir(w0, u.chatId, "week" + WeekText(week)) else w0
  }

  /** `handle_prompt`, `handle_vt` and `handle_ps`: the `received_*` status is
      set, then `get_voicenote` reads the sender's first name. */
  function Submit(step: Step, w: World, u: Update, cfg: Config): (World, Outcome) {
    var id := u.chatId;
    var w1 := Prepared(step, w, u, cfg);
    var week := w1.sessions[id].week;
    if u.content.Text? then (w1, Stay)
    else
      var w2 := SetStatusOf(w1, id, Received(step, week));
      if !HasFirstName(w2, id) then (w2, Failed)
      else Barrier(step, w2, id, week, cfg)
  }

  /** The barrier test once the sender's `received_*` status is set: a partner
      with the same status lets both chats pass. `handle_ps` also reads the
      partner's first name before the test. */
  function Barrier(step: Step, w: World, id: int, week: nat, cfg: Config): (World, Outcome)
    requires id in w.sessions
  {
    if !PartnerKnown(w, id) then (w, Failed)
    else
      var p := PartnerOf(w, id);
      if step == Listening && !HasFirstName(w, p) then (w, Failed)
      else if w.sessions[p].status != Received(step, week) then (w, Enter(NextState(step)))
      else (Meet(step, w, id, p, week, cfg), Enter(NextState(step)))
  }

  /** The loop over `(chat, paired_chat)` once both have submitted. */
  function Meet(step: Step, w: World, id: int, p: int, week: nat, cfg: Config): World
    requires id in w.sessions && p in w.sessions
  {
    var t := SendTime(w.startDate, BatchOf(step), cfg.interval);
    var w1 := Advance(w, id, Midway(step, week), t, BatchOf(step), Awaiting(step, week));
    Advance(w1, p, Midway(step, week), t, BatchOf(step), Awaiting(step, week))
  }

  /** `START_DATE` moves a week on only while it is still the original date. */
  function ShiftedStart(startDate: int, cfg: Config): int {
    if startDate == cfg.originalStartDate then startDate + 7 * cfg.interval else startDate
  }

  /** One turn of the week-two loop: week 2, the status named after the
      submitter's (new) week, the week-two batch. */
  function Rollover(w: World, k: int, id: int): World
    requires k in w.sessions && id in w.sessions
  {
    var w1 := SetWeek(w, k, 2);
    var w2 := SetStatusOf(w1, k, "awaiting_week" + WeekText(w1.sessions[id].week) + "_prompt");
    Schedule(w2, k, w2.startDate, WeekTwo)
  }

  /** `handle_feedback`: the last barrier of the week, then either the end of the
      conversation (week 2) or the move of both chats to week 2. */
  function Feedback(w: World, u: Update, cfg: Config): (World, Outcome) {
    var id := u.chatId;
    var w0 := Touch(w, u, cfg);
    if u.content.Text? then (w0, Stay)
    else
      var week := w0.sessions[id].week;
      var received := "received_week" + WeekText(week) + "_feedback";
      var w1 := SetStatusOf(w0, id, received);
      if !HasFirstName(w1, id) || !PartnerKnown(w1, id) then (w1, Failed)
      else
        var p := PartnerOf(w1, id);
        if w1.sessions[p].status != received then (w1, Stay)
        else CompleteWeek(w1, id, p, cfg)
  }

  /** Both feedbacks are in: the week-one batch for both, then the end of the
      conversation in week 2, or the move to week 2. */
  function CompleteWeek(w: World, id: int, p: int, cfg: Config): (World, Outcome)
    requires id in w.sessions && p in w.sessions
  {
    var t := SendTime(w.startDate, FeedbackDone, cfg.interval);
    var w1 := Schedule(SetStatusOf(w, id, "week1_complete"), id, t, FeedbackDone);
    var w2 := Schedule(SetStatusOf(w1, p, "week1_complete"), p, t, FeedbackDone);
    if w2.sessions[id].week == 2 then (w2, End)
    else
      var w3 := w2.(startDate := ShiftedStart(w2.startDate, cfg));
      (Rollover(Rollover(w3, id, id), p, id), Enter(Week2Prompt))
  }

  /** `cancel`. */
  function Cancel(w: World, u: Update, cfg: Config): (World, Outcome) {
    var w0 := Touch(w, u, cfg);
    (SetStatusOf(w0, u.chatId, "cancel"), Stay)
  }

  // ---------------------------------------------------------------------------
  // The conversation handler
  // ---------------------------------------------------------------------------

  function Run(h: HandlerName, w: World, u: Update, cfg: Config): (World, Outcome) {
    match h
    case StartTutorialHandler => StartTutorial(w, u, cfg)
    case GetTutorialStoryHandler => GetTutorialStory(w, u, cfg)
    case TutStory1Handler => TutStory1Step(w, u, cfg)
    case TutStory2Handler => TutStory2Step(w, u, cfg)
    case TutCompletedHandler => TutCompletedStep(w, u, cfg)
    case AwaitingIntroHandler => AwaitingIntroStep(w, u, cfg)
    case PromptHandler => Submit(Story, w, u, cfg)
    case VtHandler => Submit(Tension, w, u, cfg)
    case PsHandler => Submit(Listening, w, u, cfg)
    case FeedbackHandler => Feedback(w, u, cfg)
  }

  /** A text whose first space-separated word is the command `/name`. */
  predicate IsCommand(text: string, name: string) {
    Split(text)[0] == "/" + name
  }

  /** The conversation state after a handler's outcome: a state number is stored,
      `END` removes the chat, `None` and an escaping exception leave it. */
  function NextConv(conv: map<int, StateId>, id: int, o: Outcome): map<int, StateId> {
    match o
    case Enter(k) => conv[id := k]
    case End => conv - {id}
    case _ => conv
  }

  /** The conversation handler: outside a conversation only /start is heard;
      inside, the current state's handler takes every message its filter accepts
      (the /cancel fallback is consulted only when no state handler accepts). */
  function Dispatch(w: World, conv: map<int, StateId>, u: Update, cfg: Config): (World, map<int, StateId>) {
    var id := u.chatId;
    if id !in conv then
      if u.content.Text? && IsCommand(u.content.text, "start") then
        var (w1, o) := Start(w, u, cfg);
        (w1, NextConv(conv, id, o))
      else (w, conv)
    else
      var (h, f) := Table(conv[id]);
      if u.content.Voice? && f == TextOnly then (w, conv)
      else
        var (w1, o) := Run(h, w, u, cfg);
        (w1, NextConv(conv, id, o))
  }
}
