/**
  The echo bot's handlers as they run (echobot.py): the global `chat_handlers`
  dictionary of `Chat.ChatHandler` objects, the global `START_DATE`, the message
  bundles queued with `send_msgs`, and the conversation handler's per-chat state.
  Every handler changes the session objects in place; each method is proved to
  do exactly what the matching transition function of `EchoEngine` says, read
  through `Model()`.
 */
module EchoBot {
  import opened Wrappers
  import opened Strings
  import opened Chat
  import opened EchoStates
  import opened EchoEngine

  // ---------------------------------------------------------------------------
  // How each transition function is built from the elementary steps; the
  // methods below reach the same world one step at a time.
  // ---------------------------------------------------------------------------

  lemma MeetSteps(step: Step, w: World, id: int, p: int, week: nat, cfg: Config, t: int, w1: World, w2: World)
    requires id in w.sessions && p in w.sessions
    requires t == SendTime(w.startDate, BatchOf(step), cfg.interval)
    requires w1 == Advance(w, id, Midway(step, week), t, BatchOf(step), Awaiting(step, week))
    requires p in w1.sessions && w2 == Advance(w1, p, Midway(step, week), t, BatchOf(step), Awaiting(step, week))
    ensures Meet(step, w, id, p, week, cfg) == w2
  {
  }

  lemma IntroMetSteps(w: World, u: Update, cfg: Config, w0: World, w1: World, pid: int, t: int, awaiting: string,
                      w2: World, w3: World)
    requires u.content.Voice?
    requires w0 == Touch(w, u, cfg) && u.chatId in w0.sessions
    requires w1 == SetStatusOf(w0, u.chatId, "received_intro")
    requires w1.sessions[u.chatId].pairedChatId == Some(pid) && pid != 0 && HasFirstName(w1, u.chatId)
    requires pid in w1.sessions && w1.sessions[pid].status == "received_intro"
    requires t == SendTime(w1.startDate, IntroDone, cfg.interval)
    requires awaiting == "awaiting_week" + WeekText(w1.sessions[u.chatId].week) + "_prompt"
    requires w2 == Advance(w1, u.chatId, "intros_complete", t, IntroDone, awaiting)
    requires pid in w2.sessions && w3 == Advance(w2, pid, "intros_complete", t, IntroDone, awaiting)
    ensures AwaitingIntroStep(w, u, cfg) == (w3, Enter(Week1Prompt))
  {
  }

  lemma CompleteWeekSteps(w: World, id: int, p: int, cfg: Config, t: int, w1: World, w2: World, w3: World,
                          r1: World, r2: World)
    requires id in w.sessions && p in w.sessions
    requires t == SendTime(w.startDate, FeedbackDone, cfg.interval)
    requires w1 == Schedule(SetStatusOf(w, id, "week1_complete"), id, t, FeedbackDone)
    requires p in w1.sessions && w2 == Schedule(SetStatusOf(w1, p, "week1_complete"), p, t, FeedbackDone)
    requires id in w2.sessions && w2.sessions[id].week != 2
    requires w3 == w2.(startDate := ShiftedStart(w2.startDate, cfg))
    requires r1 == Rollover(w3, id, id)
    requires p in r1.sessions && id in r1.sessions && r2 == Rollover(r1, p, id)
    ensures CompleteWeek(w, id, p, cfg) == (r2, Enter(Week2Prompt))
  {
  }

  lemma DispatchByStart(w: World, conv: map<int, StateId>, u: Update, cfg: Config, w': World, o: Outcome)
    requires u.chatId !in conv && u.content.Text? && IsCommand(u.content.text, "start")
    requires (w', o) == Start(w, u, cfg)
    ensures Dispatch(w, conv, u, cfg) == (w', NextConv(conv, u.chatId, o))
  {
  }

  lemma DispatchByRun(w: World, conv: map<int, StateId>, u: Update, cfg: Config, w': World, o: Outcome)
    requires u.chatId in conv && !(u.content.Voice? && Table(conv[u.chatId]).1 == TextOnly)
    requires (w', o) == Run(Table(conv[u.chatId]).0, w, u, cfg)
    ensures Dispatch(w, conv, u, cfg) == (w', NextConv(conv, u.chatId, o))
  {
  }

  lemma DispatchIdle(w: World, conv: map<int, StateId>, u: Update, cfg: Config)
    requires if u.chatId in conv then u.content.Voice? && Table(conv[u.chatId]).1 == TextOnly
             else !(u.content.Text? && IsCommand(u.content.text, "start"))
    ensures Dispatch(w, conv, u, cfg) == (w, conv)
  {
  }

  class Bot {
    /** The pairing table, `ORIGINAL_START_DATE`, `INTERVAL`, `STARTING_STATUS`
        and the tutorial files, fixed at start-up. */
    const cfg: Config
    /** chat.py's module globals `user_pairs` and `name_to_chat_id`. */
    const shared: Shared
    /** `chat_handlers`. */
    var handlers: map<int, ChatHandler>
    /** The global `START_DATE`. */
    var startDate: int
    /** The `send_msgs` calls made so far. */
    var scheduled: seq<Bundle>

    /** Every handler is stored under its own chat id (so two keys never share
        an object), and the pairing table is the configured one. */
    ghost predicate Valid()
      reads this, shared
    {
      && (forall k :: k in handlers ==> handlers[k].chatId == k)
      && shared.userPairs == cfg.pairs
    }

    /** What the handlers see: the sessions as values, the name registry,
        `START_DATE` and the queued bundles. */
    ghost function Model(): World
      reads this, shared, handlers.Values
    {
      World(map k | k in handlers :: handlers[k].State(), shared.nameToChatId, startDate, scheduled)
    }

    constructor(cfg: Config, shared: Shared)
      requires shared.userPairs == cfg.pairs
      ensures Valid() && this.cfg == cfg && this.shared == shared
      ensures handlers == map[] && scheduled == []
      ensures startDate == cfg.originalStartDate
    {
      this.cfg := cfg;
      this.shared := shared;
      handlers := map[];
      startDate := cfg.originalStartDate;
      scheduled := [];
    }

    // -------------------------------------------------------------------------
    // Elementary steps, one object at a time
    // -------------------------------------------------------------------------

    /** `initialize_chat_handler`: the chat's handler, created (and its name
        registered) on first contact and the same object on every later call. */
    method InitializeChatHandler(u: Update) returns (c: ChatHandler)
      requires Valid()
      modifies this, shared
      ensures Valid() && Model() == Touch(old(Model()), u, cfg)
      ensures u.chatId in handlers && c == handlers[u.chatId]
      ensures u.chatId in old(handlers) ==> c == old(handlers)[u.chatId]
      ensures u.chatId !in old(handlers) ==> fresh(c)
      ensures handlers.Keys == old(handlers).Keys + {u.chatId}
      ensures forall k :: k in old(handlers) ==> handlers[k] == old(handlers)[k]
      ensures forall k :: k in handlers ==> handlers[k] in old(handlers).Values || fresh(handlers[k])
      ensures startDate == old(startDate) && scheduled == old(scheduled)
    {
      if u.chatId in handlers {
        c := handlers[u.chatId];
      } else {
        ghost var w := Model();
        c := new ChatHandler(u.chatId, u.chatType, u.username, u.title, shared);
        handlers := handlers[u.chatId := c];
        assert Model().sessions == w.sessions[u.chatId := c.State()];
      }
    }

    /** When only the object of chat `k` has changed, only that session has. */
    twostate lemma OnlyOneChanged(k: int)
      requires old(Valid()) && Valid() && k in handlers
      requires handlers == old(handlers) && unchanged(shared)
      requires forall j :: j in handlers && j != k ==> unchanged(handlers[j])
      ensures Model().sessions == old(Model()).sessions[k := handlers[k].State()]
      ensures Model().names == old(Model().names)
    {
      forall j | j in handlers && j != k
        ensures handlers[j].State() == old(handlers[j].State())
      {
      }
    }

    /** `set_paired_user` on the handler of chat `k`. */
    method RefreshPairing(k: int)
      requires Valid() && k in handlers
      modifies handlers[k]
      ensures Valid()
      ensures var s := old(Model()).sessions[k];
        Model() == old(Model()).(sessions := old(Model()).sessions[k := s.(
          pairedUser := ResolvePairing(s.name, cfg.pairs, old(Model()).names).0,
          pairedChatId := ResolvePairing(s.name, cfg.pairs, old(Model()).names).1)])
    {
      handlers[k].SetPairedUser(shared);
      OnlyOneChanged(k);
    }

    /** `c.status = value` on the handler of chat `k`. */
    method SetStatusOf(k: int, value: string)
      requires Valid() && k in handlers
      modifies handlers[k]
      ensures Valid() && Model() == EchoEngine.SetStatusOf(old(Model()), k, value)
    {
      handlers[k].SetStatus(value);
      OnlyOneChanged(k);
    }

    /** `c.subdir = subdir`. */
    method SetSubdir(k: int, subdir: string)
      requires Valid() && k in handlers
      modifies handlers[k]
      ensures Valid() && Model() == EchoEngine.SetSubdir(old(Model()), k, subdir)
    {
      handlers[k].subdir := subdir;
      OnlyOneChanged(k);
    }

    /** `c.week = week`. */
    method SetWeek(k: int, week: nat)
      requires Valid() && k in handlers
      modifies handlers[k]
      ensures Valid() && Model() == EchoEngine.SetWeek(old(Model()), k, week)
    {
      handlers[k].week := week;
      OnlyOneChanged(k);
    }

    /** `c.send_vn(vn)`: the file is recorded as sent. */
    method AddSent(k: int, vn: string)
      requires Valid() && k in handlers
      modifies handlers[k]
      ensures Valid() && Model() == EchoEngine.AddSent(old(Model()), k, vn)
    {
      handlers[k].SendVn(vn);
      OnlyOneChanged(k);
    }

    /** `c.send_msgs(messages, t)`. */
    method Schedule(k: int, t: int, b: Batch)
      modifies this
      ensures Model() == EchoEngine.Schedule(old(Model()), k, t, b)
      ensures handlers == old(handlers) && startDate == old(startDate)
    {
      scheduled := scheduled + [Bundle(k, t, b)];
    }

    /** `START_DATE` moves a week on while it is still the original date. */
    method ShiftStartDate()
      requires Valid()
      modifies this
      ensures Valid() && Model() == old(Model()).(startDate := ShiftedStart(old(startDate), cfg))
      ensures handlers == old(handlers) && scheduled == old(scheduled)
    {
      if startDate == cfg.originalStartDate {
        startDate := startDate + 7 * cfg.interval;
      }
    }

    /** One turn of a barrier loop. */
    method Advance(k: int, midway: string, t: int, b: Batch, awaiting: string)
      requires Valid() && k in handlers
      modifies this, handlers[k]
      ensures Valid() && Model() == EchoEngine.Advance(old(Model()), k, midway, t, b, awaiting)
      ensures handlers == old(handlers) && startDate == old(startDate)
    {
      SetStatusOf(k, midway);
      Schedule(k, t, b);
      SetStatusOf(k, awaiting);
    }

    /** One turn of the week-two loop. */
    method Rollover(k: int, id: int)
      requires Valid() && k in handlers && id in handlers
      modifies this, handlers[k]
      ensures Valid() && Model() == EchoEngine.Rollover(old(Model()), k, id)
      ensures handlers == old(handlers) && startDate == old(startDate)
    {
      SetWeek(k, 2);
      SetStatusOf(k, "awaiting_week" + WeekText(handlers[id].week) + "_prompt");
      Schedule(k, startDate, WeekTwo);
    }

    // -------------------------------------------------------------------------
    // The step handlers
    // -------------------------------------------------------------------------

    method Start(u: Update) returns (o: Outcome)
      requires Valid()
      modifies this, shared, handlers.Values
      ensures Valid() && (Model(), o) == EchoEngine.Start(old(Model()), u, cfg)
    {
      var c := InitializeChatHandler(u);
      RefreshPairing(u.chatId);
      if !c.Paired() {
        return End;
      }
      SetWeek(u.chatId, 1);
      if cfg.startingStatus.Some? && cfg.startingStatus.value != "" {
        var k := StateIndex(cfg.startingStatus.value);
        o := if k.Some? then Enter(k.value) else Failed;
      } else if Contains(c.chatType, "group") {
        SetStatusOf(u.chatId, "left_group");
        o := End;
      } else {
        SetStatusOf(u.chatId, "start_welcomed");
        o := Enter(StartWelcomed);
      }
    }

    method StartTutorial(u: Update) returns (o: Outcome)
      requires Valid()
      modifies this, shared, handlers.Values
      ensures Valid() && (Model(), o) == EchoEngine.StartTutorial(old(Model()), u, cfg)
    {
      var c := InitializeChatHandler(u);
      if u.content == Text("/starttutorial") {
        SetStatusOf(u.chatId, "tut_started");
        o := Enter(TutorialStarted);
      } else {
        o := Stay;
      }
    }

    method GetTutorialStory(u: Update) returns (o: Outcome)
      requires Valid()
      modifies this, shared, handlers.Values
      ensures Valid() && (Model(), o) == EchoEngine.GetTutorialStory(old(Model()), u, cfg)
    {
      var c := InitializeChatHandler(u);
      if u.content != Text("/gettutorialstory") {
        return Stay;
      }
      if cfg.tutorialFiles == [] {
        return Failed;
      }
      AddSent(u.chatId, StoryPath(cfg.tutorialFiles[0]));
      SetStatusOf(u.chatId, "tut_story" + WeekText(c.week) + "received");
      o := Enter(EchoStates.TutStory1);
    }

    method TutStory1(u: Update) returns (o: Outcome)
      requires Valid()
      modifies this, shared, handlers.Values
      ensures Valid() && (Model(), o) == TutStory1Step(old(Model()), u, cfg)
    {
      var c := InitializeChatHandler(u);
      if u.content.Text? {
        return Stay;
      }
      if c.chatType != "private" {
        return Failed;
      }
      SetStatusOf(u.chatId, "tut_story" + WeekText(c.week) + "responded");
      if |cfg.tutorialFiles| < 2 {
        return Failed;
      }
      AddSent(u.chatId, StoryPath(cfg.tutorialFiles[1]));
      SetStatusOf(u.chatId, "tut_story2received");
      o := Enter(EchoStates.TutStory2);
    }

    method TutStory2(u: Update) returns (o: Outcome)
      requires Valid()
      modifies this, shared, handlers.Values
      ensures Valid() && (Model(), o) == TutStory2Step(old(Model()), u, cfg)
    {
      var c := InitializeChatHandler(u);
      if u.content.Text? {
        return Stay;
      }
      SetStatusOf(u.chatId, "tut_story2responded");
      if c.chatType != "private" {
        return Failed;
      }
      o := Enter(EchoStates.TutCompleted);
    }

    method TutCompleted(u: Update) returns (o: Outcome)
      requires Valid()
      modifies this, shared, handlers.Values
      ensures Valid() && (Model(), o) == TutCompletedStep(old(Model()), u, cfg)
    {
      var c := InitializeChatHandler(u);
      if u.content != Text("/endtutorial") {
        return Stay;
      }
      SetStatusOf(u.chatId, "tut_completed");
      SetSubdir(u.chatId, "intros");
      SetStatusOf(u.chatId, "awaiting_intro");
      o := Enter(EchoStates.AwaitingIntro);
    }

    method AwaitingIntro(u: Update) returns (o: Outcome)
      requires Valid()
      modifies this, shared, handlers.Values
      ensures Valid() && (Model(), o) == AwaitingIntroStep(old(Model()), u, cfg)
    {
      ghost var w := Model();
      var c := InitializeChatHandler(u);
      ghost var w0 := Model();
      if u.content.Text? {
        assert AwaitingIntroStep(w, u, cfg) == (w0, Stay);
        return Stay;
      }
      SetStatusOf(u.chatId, "received_intro");
      ghost var w1 := Model();
      var p := c.pairedChatId;
      assert p == w1.sessions[u.chatId].pairedChatId;
      if c.chatType != "private" {
        assert AwaitingIntroStep(w, u, cfg) == (w1, Failed);
        return Failed;
      }
      if p.None? || p.value == 0 {
        assert AwaitingIntroStep(w, u, cfg) == (w1, Enter(Week1Prompt));
        return Enter(Week1Prompt);
      }
      if p.value !in handlers {
        assert AwaitingIntroStep(w, u, cfg) == (w1, Failed);
        return Failed;
      }
      if handlers[p.value].status != "received_intro" {
        assert AwaitingIntroStep(w, u, cfg) == (w1, Enter(Week1Prompt));
        return Enter(Week1Prompt);
      }
      var t := SendTime(startDate, IntroDone, cfg.interval);
      var awaiting := "awaiting_week" + WeekText(c.week) + "_prompt";
      assert t == SendTime(w1.startDate, IntroDone, cfg.interval);
      assert awaiting == "awaiting_week" + WeekText(w1.sessions[u.chatId].week) + "_prompt";
      assert w1.sessions[p.value].status == "received_intro";
      Advance(u.chatId, "intros_complete", t, IntroDone, awaiting);
      ghost var w2 := Model();
      Advance(p.value, "intros_complete", t, IntroDone, awaiting);
      IntroMetSteps(w, u, cfg, w0, w1, p.value, t, awaiting, w2, Model());
      o := Enter(Week1Prompt);
    }

    /** The loop over `(chat, paired_chat)` once both have submitted. */
    method Meet(step: Step, id: int, p: int, week: nat)
      requires Valid() && id in handlers && p in handlers
      modifies this, handlers[id], handlers[p]
      ensures Valid() && Model() == EchoEngine.Meet(step, old(Model()), id, p, week, cfg)
      ensures handlers == old(handlers)
    {
      ghost var w := Model();
      var t := SendTime(startDate, BatchOf(step), cfg.interval);
      Advance(id, Midway(step, week), t, BatchOf(step), Awaiting(step, week));
      ghost var w1 := Model();
      Advance(p, Midway(step, week), t, BatchOf(step), Awaiting(step, week));
      MeetSteps(step, w, id, p, week, cfg, t, w1, Model());
    }

    /** The opening of `handle_prompt` (which also files the week's recordings
        under `week<N>`), `handle_vt` and `handle_ps`. */
    method Prepare(step: Step, u: Update) returns (c: ChatHandler)
      requires Valid()
      modifies this, shared, handlers.Values
      ensures Valid() && Model() == Prepared(step, old(Model()), u, cfg)
      ensures u.chatId in handlers && c == handlers[u.chatId]
      ensures forall k :: k in handlers ==> handlers[k] in old(handlers).Values || fresh(handlers[k])
    {
      c := InitializeChatHandler(u);
      if step == Story {
        SetSubdir(u.chatId, "week" + WeekText(c.week));
      }
    }

    /** `handle_prompt`, `handle_vt` and `handle_ps`. */
    method Submit(step: Step, u: Update) returns (o: Outcome)
      requires Valid()
      modifies this, shared, handlers.Values
      ensures Valid() && (Model(), o) == EchoEngine.Submit(step, old(Model()), u, cfg)
    {
      ghost var w := Model();
      var c := Prepare(step, u);
      ghost var w1 := Model();
      var week := c.week;
      assert week == w1.sessions[u.chatId].week;
      if u.content.Text? {
        assert EchoEngine.Submit(step, w, u, cfg) == (w1, Stay);
        return Stay;
      }
      SetStatusOf(u.chatId, Received(step, week));
      if c.chatType != "private" {
        return Failed;
      }
      assert forall k :: k in handlers ==> handlers[k] in old(handlers).Values || fresh(handlers[k]);
      o := Barrier(step, u.chatId, week);
    }

    /** The barrier test of `handle_prompt`, `handle_vt` and `handle_ps`. */
    method Barrier(step: Step, id: int, week: nat) returns (o: Outcome)
      requires Valid() && id in handlers
      modifies this, handlers.Values
      ensures Valid() && (Model(), o) == EchoEngine.Barrier(step, old(Model()), id, week, cfg)
      ensures handlers == old(handlers)
    {
      var c := handlers[id];
      if c.pairedChatId.None? || c.pairedChatId.value !in handlers {
        return Failed;
      }
      var p := c.pairedChatId.value;
      if step == Listening && handlers[p].chatType != "private" {
        return Failed;
      }
      if handlers[p].status == Received(step, week) {
        Meet(step, id, p, week);
      }
      o := Enter(NextState(step));
    }

    /** `handle_feedback`. */
    method Feedback(u: Update) returns (o: Outcome)
      requires Valid()
      modifies this, shared, handlers.Values
      ensures Valid() && (Model(), o) == EchoEngine.Feedback(old(Model()), u, cfg)
    {
      var c := InitializeChatHandler(u);
      if u.content.Text? {
        return Stay;
      }
      var received := "received_week" + WeekText(c.week) + "_feedback";
      SetStatusOf(u.chatId, received);
      if c.chatType != "private" || c.pairedChatId.None? || c.pairedChatId.value !in handlers {
        return Failed;
      }
      var p := c.pairedChatId.value;
      if handlers[p].status != received {
        return Stay;
      }
      assert handlers[p] in old(handlers).Values || fresh(handlers[p]);
      o := CompleteWeek(u.chatId, p);
    }

    /** The end of `handle_feedback` once both feedbacks are in. */
    method CompleteWeek(id: int, p: int) returns (o: Outcome)
      requires Valid() && id in handlers && p in handlers
      modifies this, handlers[id], handlers[p]
      ensures Valid() && (Model(), o) == EchoEngine.CompleteWeek(old(Model()), id, p, cfg)
      ensures handlers == old(handlers)
    {
      ghost var w := Model();
      var t := SendTime(startDate, FeedbackDone, cfg.interval);
      SetStatusOf(id, "week1_complete");
      Schedule(id, t, FeedbackDone);
      ghost var w1 := Model();
      SetStatusOf(p, "week1_complete");
      Schedule(p, t, FeedbackDone);
      ghost var w2 := Model();
      assert handlers[id].week == w2.sessions[id].week;
      if handlers[id].week == 2 {
        assert EchoEngine.CompleteWeek(w, id, p, cfg) == (w2, End);
        return End;
      }
      ShiftStartDate();
      ghost var w3 := Model();
      Rollover(id, id);
      ghost var r1 := Model();
      Rollover(p, id);
      CompleteWeekSteps(w, id, p, cfg, t, w1, w2, w3, r1, Model());
      o := Enter(Week2Prompt);
    }

    /** `cancel`. */
    method Cancel(u: Update) returns (o: Outcome)
      requires Valid()
      modifies this, shared, handlers.Values
      ensures Valid() && (Model(), o) == EchoEngine.Cancel(old(Model()), u, cfg)
    {
      var c := InitializeChatHandler(u);
      SetStatusOf(u.chatId, "cancel");
      o := Stay;
    }

    /** The handler named in the state table. */
    method Run(h: HandlerName, u: Update) returns (o: Outcome)
      requires Valid()
      modifies this, shared, handlers.Values
      ensures Valid() && (Model(), o) == EchoEngine.Run(h, old(Model()), u, cfg)
    {
      match h
      case StartTutorialHandler => o := StartTutorial(u);
      case GetTutorialStoryHandler => o := GetTutorialStory(u);
      case TutStory1Handler => o := TutStory1(u);
      case TutStory2Handler => o := TutStory2(u);
      case TutCompletedHandler => o := TutCompleted(u);
      case AwaitingIntroHandler => o := AwaitingIntro(u);
      case PromptHandler => o := Submit(Story, u);
      case VtHandler => o := Submit(Tension, u);
      case PsHandler => o := Submit(Listening, u);
      case FeedbackHandler => o := Feedback(u);
    }
  }

  /** The conversation handler: the state number of each chat in a conversation,
      and the routing of every update to the handler of that state. */
  class Conversation {
    var states: map<int, StateId>

    constructor()
      ensures states == map[]
    {
      states := map[];
    }

    /** One update arriving at the conversation handler. */
    method HandleUpdate(bot: Bot, u: Update)
      requires bot.Valid()
      modifies this, bot, bot.shared, bot.handlers.Values
      ensures bot.Valid() && (bot.Model(), states) == Dispatch(old(bot.Model()), old(states), u, bot.cfg)
    {
      ghost var w := bot.Model();
      var id := u.chatId;
      if id !in states {
        if u.content.Text? && IsCommand(u.content.text, "start") {
          var o := bot.Start(u);
          DispatchByStart(w, states, u, bot.cfg, bot.Model(), o);
          states := NextConv(states, id, o);
        } else {
          DispatchIdle(w, states, u, bot.cfg);
        }
      } else {
        var (h, f) := Table(states[id]);
        if !(u.content.Voice? && f == TextOnly) {
          var o := bot.Run(h, u);
          DispatchByRun(w, states, u, bot.cfg, bot.Model(), o);
          states := NextConv(states, id, o);
        } else {
          DispatchIdle(w, states, u, bot.cfg);
        }
      }
    }
  }
}
