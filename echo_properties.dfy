/**
  What the echo bot's handlers guarantee: re-prompts change nothing, a partner
  who is not ready is left alone, the barriers move both partners together and
  do not depend on who submits second, the week rollover, the single shift of
  `START_DATE`, and the outcomes of /start.
 */
module EchoProperties {
  import opened Wrappers
  import opened Strings
  import opened Chat
  import opened EchoStates
  import opened EchoEngine

  // ---------------------------------------------------------------------------
  // Re-prompts
  // ---------------------------------------------------------------------------

  /** Text where a voice note is expected only re-prompts: the handler returns
      `None` and changes nothing but (for `handle_prompt`) the subdirectory. */
  lemma TextOnlyReprompts(w: World, u: Update, cfg: Config)
    requires u.content.Text?
    ensures TutStory1Step(w, u, cfg) == (Touch(w, u, cfg), Stay)
    ensures TutStory2Step(w, u, cfg) == (Touch(w, u, cfg), Stay)
    ensures AwaitingIntroStep(w, u, cfg) == (Touch(w, u, cfg), Stay)
    ensures Submit(Tension, w, u, cfg) == (Touch(w, u, cfg), Stay)
    ensures Submit(Listening, w, u, cfg) == (Touch(w, u, cfg), Stay)
    ensures Feedback(w, u, cfg) == (Touch(w, u, cfg), Stay)
    ensures Submit(Story, w, u, cfg) == (Prepared(Story, w, u, cfg), Stay)
  {
  }

  /** Seen from the conversation handler: in a state that expects a voice note, a
      text message leaves the conversation state, the chat's status and its week as
      they were. */
  lemma RepromptKeepsConversation(w: World, conv: map<int, StateId>, u: Update, cfg: Config)
    requires u.chatId in conv && u.chatId in w.sessions && u.content.Text?
    requires Table(conv[u.chatId]).0 in {TutStory1Handler, TutStory2Handler, AwaitingIntroHandler,
                                          PromptHandler, VtHandler, PsHandler, FeedbackHandler}
    ensures var (w', conv') := Dispatch(w, conv, u, cfg);
      && conv' == conv
      && w'.sessions[u.chatId].status == w.sessions[u.chatId].status
      && w'.sessions[u.chatId].week == w.sessions[u.chatId].week
      && w'.startDate == w.startDate && w'.scheduled == w.scheduled
  {
    TextOnlyReprompts(w, u, cfg);
  }

  // ---------------------------------------------------------------------------
  // The weekly barriers (handle_prompt, handle_vt, handle_ps)
  // ---------------------------------------------------------------------------

  /** A chat's session once its own voice note for `step` has arrived. */
  function Arrived(step: Step, s: Session): Session {
    var s1 := if step == Story then s.(subdir := "week" + WeekText(s.week)) else s;
    s1.WithStatus(Received(step, s.week))
  }

  /** A session moved through the barrier by the submitter of week `week`: the
      intermediate status is overwritten at once, so only the awaited one remains. */
  function Closed(step: Step, s: Session, week: nat): Session {
    s.WithStatus(Awaiting(step, week))
  }

  /** `Advance` on chat `k`: the second status assignment overwrites the first,
      and one batch is scheduled. */
  lemma AdvanceForm(w: World, k: int, midway: string, t: int, b: Batch, awaiting: string)
    requires k in w.sessions
    ensures Advance(w, k, midway, t, b, awaiting) ==
      w.(sessions := w.sessions[k := w.sessions[k].WithStatus(awaiting)],
         scheduled := w.scheduled + [Bundle(k, t, b)])
  {
    var w1 := SetStatusOf(w, k, midway);
    var w2 := Schedule(w1, k, t, b);
    assert w2.sessions == w.sessions[k := w.sessions[k].WithStatus(midway)];
    assert SetStatusOf(w2, k, awaiting).sessions == w.sessions[k := w.sessions[k].WithStatus(awaiting)];
  }

  /** The barrier loop on two different chats. */
  lemma MeetForm(step: Step, w: World, id: int, p: int, week: nat, cfg: Config)
    requires id in w.sessions && p in w.sessions && id != p
    ensures var t := SendTime(w.startDate, BatchOf(step), cfg.interval);
      Meet(step, w, id, p, week, cfg) ==
      w.(sessions := w.sessions[id := Closed(step, w.sessions[id], week)][p := Closed(step, w.sessions[p], week)],
         scheduled := w.scheduled + [Bundle(id, t, BatchOf(step))] + [Bundle(p, t, BatchOf(step))])
  {
    var t := SendTime(w.startDate, BatchOf(step), cfg.interval);
    AdvanceForm(w, id, Midway(step, week), t, BatchOf(step), Awaiting(step, week));
    var w1 := Advance(w, id, Midway(step, week), t, BatchOf(step), Awaiting(step, week));
    assert w1.sessions[p] == w.sessions[p];
    AdvanceForm(w1, p, Midway(step, week), t, BatchOf(step), Awaiting(step, week));
  }

  /** The world once the sender's voice note has been recorded. */
  lemma ArrivedForm(step: Step, w: World, u: Update, cfg: Config)
    requires u.content == Voice
    ensures var w0 := Touch(w, u, cfg); var s := w0.sessions[u.chatId];
      SetStatusOf(Prepared(step, w, u, cfg), u.chatId, Received(step, s.week)) ==
      w0.(sessions := w0.sessions[u.chatId := Arrived(step, s)])
  {
    var w0 := Touch(w, u, cfg);
    var id := u.chatId;
    var s := w0.sessions[id];
    var w1 := Prepared(step, w, u, cfg);
    if step == Story {
      assert w1.sessions == w0.sessions[id := s.(subdir := "week" + WeekText(s.week))];
    } else {
      assert w1 == w0;
    }
  }

  /** A partner who has not yet submitted is untouched: only the sender's session
      changes, nothing is scheduled, and the handler still moves on. */
  lemma SubmitWaits(step: Step, w: World, u: Update, cfg: Config)
    requires u.content == Voice
    requires var w0 := Touch(w, u, cfg); var s := w0.sessions[u.chatId];
      && s.pairedChatId.Some? && s.pairedChatId.value in w0.sessions && s.pairedChatId.value != u.chatId
      && w0.sessions[s.pairedChatId.value].status != Received(step, s.week)
      && s.chatType == "private" && (step == Listening ==> w0.sessions[s.pairedChatId.value].chatType == "private")
    ensures var w0 := Touch(w, u, cfg);
      Submit(step, w, u, cfg) == (w0.(sessions := w0.sessions[u.chatId := Arrived(step, w0.sessions[u.chatId])]),
                                  Enter(NextState(step)))
  {
    ArrivedForm(step, w, u, cfg);
  }

  /** A partner who has already submitted: both chats pass the barrier, each gets
      the step's batch at `START_DATE + k * INTERVAL`, and both end awaiting the
      next step; all other chats are untouched. */
  lemma SubmitMeets(step: Step, w: World, u: Update, cfg: Config)
    requires u.content == Voice
    requires var w0 := Touch(w, u, cfg); var s := w0.sessions[u.chatId];
      && s.pairedChatId.Some? && s.pairedChatId.value in w0.sessions && s.pairedChatId.value != u.chatId
      && w0.sessions[s.pairedChatId.value].status == Received(step, s.week)
      && s.chatType == "private" && (step == Listening ==> w0.sessions[s.pairedChatId.value].chatType == "private")
    ensures var w0 := Touch(w, u, cfg); var s := w0.sessions[u.chatId]; var p := s.pairedChatId.value;
      var t := SendTime(w0.startDate, BatchOf(step), cfg.interval);
      && Submit(step, w, u, cfg) ==
         (w0.(sessions := w0.sessions[u.chatId := Closed(step, Arrived(step, s), s.week)]
                                     [p := Closed(step, w0.sessions[p], s.week)],
              scheduled := w0.scheduled + [Bundle(u.chatId, t, BatchOf(step))] + [Bundle(p, t, BatchOf(step))]),
          Enter(NextState(step)))
      && Submit(step, w, u, cfg).0.sessions[u.chatId].status == Awaiting(step, s.week)
      && Submit(step, w, u, cfg).0.sessions[p].status == Awaiting(step, s.week)
  {
    var w0 := Touch(w, u, cfg);
    var id := u.chatId;
    var s := w0.sessions[id];
    var p := s.pairedChatId.value;
    ArrivedForm(step, w, u, cfg);
    var w2 := w0.(sessions := w0.sessions[id := Arrived(step, s)]);
    MeetForm(step, w2, id, p, s.week, cfg);
    assert w2.sessions[id := Closed(step, Arrived(step, s), s.week)] == w0.sessions[id := Closed(step, Arrived(step, s), s.week)];
  }

  // ---------------------------------------------------------------------------
  // Chats without a first name (every chat but a private one)
  // ---------------------------------------------------------------------------

  /** A voice note from a chat that is not private: every voice-note handler
      reads `chat.first_name`, which only a private chat has, so each one raises
      after the status changes it makes before that read and before any barrier
      test. */
  lemma VoiceWithoutFirstNameFails(w: World, u: Update, cfg: Config)
    requires u.content == Voice && Touch(w, u, cfg).sessions[u.chatId].chatType != "private"
    ensures var w0 := Touch(w, u, cfg); var id := u.chatId; var s := w0.sessions[id];
      && TutStory1Step(w, u, cfg) == (w0, Failed)
      && TutStory2Step(w, u, cfg) == (w0.(sessions := w0.sessions[id := s.WithStatus("tut_story2responded")]), Failed)
      && AwaitingIntroStep(w, u, cfg) == (w0.(sessions := w0.sessions[id := s.WithStatus("received_intro")]), Failed)
      && Feedback(w, u, cfg) == (w0.(sessions := w0.sessions[id := s.WithStatus(FeedbackReceived(s.week))]), Failed)
    ensures var w0 := Touch(w, u, cfg);
      forall step :: Submit(step, w, u, cfg) == (w0.(sessions := w0.sessions[u.chatId := Arrived(step, w0.sessions[u.chatId])]), Failed)
  {
    forall step: Step
      ensures var w0 := Touch(w, u, cfg);
        Submit(step, w, u, cfg) == (w0.(sessions := w0.sessions[u.chatId := Arrived(step, w0.sessions[u.chatId])]), Failed)
    {
      ArrivedForm(step, w, u, cfg);
    }
  }

  /** `handle_ps` also reads the partner's first name before its barrier test: a
      partner chat that is not private makes it raise. */
  lemma ListeningPartnerWithoutFirstNameFails(w: World, u: Update, cfg: Config)
    requires u.content == Voice
    requires var w0 := Touch(w, u, cfg); var s := w0.sessions[u.chatId];
      && s.chatType == "private" && s.pairedChatId.Some? && s.pairedChatId.value in w0.sessions
      && s.pairedChatId.value != u.chatId && w0.sessions[s.pairedChatId.value].chatType != "private"
    ensures var w0 := Touch(w, u, cfg);
      Submit(Listening, w, u, cfg) == (w0.(sessions := w0.sessions[u.chatId := Arrived(Listening, w0.sessions[u.chatId])]), Failed)
  {
    ArrivedForm(Listening, w, u, cfg);
  }

  /** So inside a conversation a chat that is not private never moves on by a
      voice note: whichever state it is in, its conversation state is kept and
      nothing is queued. */
  lemma VoiceWithoutFirstNameStays(w: World, conv: map<int, StateId>, u: Update, cfg: Config)
    requires u.content == Voice && u.chatId in conv
    requires Touch(w, u, cfg).sessions[u.chatId].chatType != "private"
    ensures var (w', conv') := Dispatch(w, conv, u, cfg);
      conv' == conv && w'.scheduled == w.scheduled && w'.startDate == w.startDate
  {
    VoiceWithoutFirstNameFails(w, u, cfg);
    var (h, f) := Table(conv[u.chatId]);
    if f != TextOnly {
      match h
      case PromptHandler => assert Run(h, w, u, cfg).1 == Failed;
      case VtHandler => assert Run(h, w, u, cfg).1 == Failed;
      case PsHandler => assert Run(h, w, u, cfg).1 == Failed;
      case _ =>
    }
  }

  /** Two private chats, partners of each other, in the same week. */
  predicate PairReady(w: World, a: int, b: int) {
    && a != b && a in w.sessions && b in w.sessions
    && w.sessions[a].pairedChatId == Some(b) && w.sessions[b].pairedChatId == Some(a)
    && w.sessions[a].week == w.sessions[b].week
    && w.sessions[a].chatType == "private" && w.sessions[b].chatType == "private"
  }

  /** Both partners submit, `ua` first: the pair in closed form. */
  lemma SubmitTwice(step: Step, w: World, ua: Update, ub: Update, cfg: Config)
    requires PairReady(w, ua.chatId, ub.chatId)
    requires ua.content == Voice && ub.content == Voice
    requires var week := w.sessions[ua.chatId].week;
      w.sessions[ua.chatId].status != Received(step, week) && w.sessions[ub.chatId].status != Received(step, week)
    ensures var a, b := ua.chatId, ub.chatId; var week := w.sessions[a].week;
      var t := SendTime(w.startDate, BatchOf(step), cfg.interval);
      Submit(step, Submit(step, w, ua, cfg).0, ub, cfg).0 ==
      w.(sessions := w.sessions[a := Closed(step, Arrived(step, w.sessions[a]), week)]
                               [b := Closed(step, Arrived(step, w.sessions[b]), week)],
         scheduled := w.scheduled + [Bundle(b, t, BatchOf(step))] + [Bundle(a, t, BatchOf(step))])
  {
    var a := ua.chatId;
    SubmitWaitsAt(step, w, ua, cfg);
    var wa := w.(sessions := w.sessions[a := Arrived(step, w.sessions[a])]);
    SubmitSecond(step, w, wa, ua, ub, cfg);
  }

  /** The second submission, from the world the first one leaves behind. */
  lemma SubmitSecond(step: Step, w: World, wa: World, ua: Update, ub: Update, cfg: Config)
    requires PairReady(w, ua.chatId, ub.chatId)
    requires ub.content == Voice
    requires w.sessions[ua.chatId].status != Received(step, w.sessions[ua.chatId].week)
    requires wa == w.(sessions := w.sessions[ua.chatId := Arrived(step, w.sessions[ua.chatId])])
    ensures var a, b := ua.chatId, ub.chatId; var week := w.sessions[a].week;
      var t := SendTime(w.startDate, BatchOf(step), cfg.interval);
      Submit(step, wa, ub, cfg).0 ==
      w.(sessions := w.sessions[a := Closed(step, Arrived(step, w.sessions[a]), week)]
                               [b := Closed(step, Arrived(step, w.sessions[b]), week)],
         scheduled := w.scheduled + [Bundle(b, t, BatchOf(step))] + [Bundle(a, t, BatchOf(step))])
  {
    var a, b := ua.chatId, ub.chatId;
    var week := w.sessions[a].week;
    var z := Arrived(step, w.sessions[a]);
    var x, y := Closed(step, z, week), Closed(step, Arrived(step, w.sessions[b]), week);
    var sb := wa.sessions[b];
    assert sb == w.sessions[b] && wa.sessions[a] == z && sb.week == week;
    SubmitMeetsAt(step, wa, ub, cfg, a);
    assert Closed(step, Arrived(step, sb), sb.week) == y && Closed(step, wa.sessions[a], sb.week) == x;
    PairOverwritten(w.sessions, a, z, b, y, x);
  }

  /** `SubmitWaits` for a chat that already has a session. */
  lemma SubmitWaitsAt(step: Step, w: World, u: Update, cfg: Config)
    requires u.content == Voice && u.chatId in w.sessions
    requires var s := w.sessions[u.chatId];
      && s.pairedChatId.Some? && s.pairedChatId.value in w.sessions && s.pairedChatId.value != u.chatId
      && w.sessions[s.pairedChatId.value].status != Received(step, s.week)
      && s.chatType == "private" && (step == Listening ==> w.sessions[s.pairedChatId.value].chatType == "private")
    ensures Submit(step, w, u, cfg) == (w.(sessions := w.sessions[u.chatId := Arrived(step, w.sessions[u.chatId])]),
                                        Enter(NextState(step)))
  {
    ArrivedForm(step, w, u, cfg);
  }

  /** `SubmitMeets` for a chat that already has a session. */
  lemma SubmitMeetsAt(step: Step, w: World, u: Update, cfg: Config, p: int)
    requires u.content == Voice && u.chatId in w.sessions && p in w.sessions && p != u.chatId
    requires w.sessions[u.chatId].pairedChatId == Some(p)
    requires w.sessions[p].status == Received(step, w.sessions[u.chatId].week)
    requires w.sessions[u.chatId].chatType == "private" && (step == Listening ==> w.sessions[p].chatType == "private")
    ensures var s := w.sessions[u.chatId];
      var t := SendTime(w.startDate, BatchOf(step), cfg.interval);
      Submit(step, w, u, cfg).0 ==
      w.(sessions := w.sessions[u.chatId := Closed(step, Arrived(step, s), s.week)][p := Closed(step, w.sessions[p], s.week)],
         scheduled := w.scheduled + [Bundle(u.chatId, t, BatchOf(step))] + [Bundle(p, t, BatchOf(step))])
  {
    var id := u.chatId;
    var s := w.sessions[id];
    ArrivedForm(step, w, u, cfg);
    var w2 := w.(sessions := w.sessions[id := Arrived(step, s)]);
    assert Submit(step, w, u, cfg).0 == Meet(step, w2, id, p, s.week, cfg);
    MeetForm(step, w2, id, p, s.week, cfg);
    UpdateTwice(w.sessions, id, Arrived(step, s), Closed(step, Arrived(step, s), s.week));
  }

  /** A second update of the same key replaces the first. */
  lemma UpdateTwice(m: map<int, Session>, a: int, z: Session, x: Session)
    ensures m[a := z][a := x] == m[a := x]
  {
  }

  /** An update of key `a`, overwritten after an update of key `b`, as the two
      final updates made in the other order. */
  lemma PairOverwritten(m: map<int, Session>, a: int, z: Session, b: int, y: Session, x: Session)
    requires a != b
    ensures m[a := z][b := y][a := x] == m[a := x][b := y]
  {
  }

  /** Two updates of different keys can be made in either order. */
  lemma UpdatesCommute(m: map<int, Session>, a: int, x: Session, b: int, y: Session)
    requires a != b
    ensures m[a := x][b := y] == m[b := y][a := x]
  {
  }

  /** Barrier commutativity: whichever partner submits second, the pair ends in
      the same sessions. */
  lemma SubmitCommutes(step: Step, w: World, ua: Update, ub: Update, cfg: Config)
    requires PairReady(w, ua.chatId, ub.chatId)
    requires ua.content == Voice && ub.content == Voice
    requires var week := w.sessions[ua.chatId].week;
      w.sessions[ua.chatId].status != Received(step, week) && w.sessions[ub.chatId].status != Received(step, week)
    ensures var ab := Submit(step, Submit(step, w, ua, cfg).0, ub, cfg).0;
      var ba := Submit(step, Submit(step, w, ub, cfg).0, ua, cfg).0;
      ab.sessions == ba.sessions && ab.names == ba.names && ab.startDate == ba.startDate
  {
    var a, b := ua.chatId, ub.chatId;
    var week := w.sessions[a].week;
    SubmitTwice(step, w, ua, ub, cfg);
    SubmitTwice(step, w, ub, ua, cfg);
    UpdatesCommute(w.sessions, a, Closed(step, Arrived(step, w.sessions[a]), week), b, Closed(step, Arrived(step, w.sessions[b]), week));
  }

  /** ... and the same batches are scheduled, in the other order. */
  lemma SubmitCommutesSchedule(step: Step, w: World, ua: Update, ub: Update, cfg: Config)
    requires PairReady(w, ua.chatId, ub.chatId)
    requires ua.content == Voice && ub.content == Voice
    requires var week := w.sessions[ua.chatId].week;
      w.sessions[ua.chatId].status != Received(step, week) && w.sessions[ub.chatId].status != Received(step, week)
    ensures var ab := Submit(step, Submit(step, w, ua, cfg).0, ub, cfg).0;
      var ba := Submit(step, Submit(step, w, ub, cfg).0, ua, cfg).0;
      multiset(ab.scheduled) == multiset(ba.scheduled)
  {
    var a, b := ua.chatId, ub.chatId;
    var t := SendTime(w.startDate, BatchOf(step), cfg.interval);
    SubmitTwice(step, w, ua, ub, cfg);
    SubmitTwice(step, w, ub, ua, cfg);
    SwappedPair(w.scheduled, Bundle(a, t, BatchOf(step)), Bundle(b, t, BatchOf(step)));
  }

  // ---------------------------------------------------------------------------
  // The introduction barrier (awaiting_intro)
  // ---------------------------------------------------------------------------

  /** A chat without a first name records the introduction and then raises.
      Otherwise, without a partner id the sender just records the introduction and
      moves on; with both introductions in, both chats await the week's prompt and
      get the day-one batch one interval after `START_DATE`. */
  lemma IntroOutcomes(w: World, u: Update, cfg: Config)
    requires u.content == Voice
    ensures var w0 := Touch(w, u, cfg); var s := w0.sessions[u.chatId];
      s.chatType != "private" ==>
        AwaitingIntroStep(w, u, cfg) == (w0.(sessions := w0.sessions[u.chatId := s.WithStatus("received_intro")]), Failed)
    ensures var w0 := Touch(w, u, cfg); var s := w0.sessions[u.chatId];
      s.chatType == "private" && s.pairedChatId.None? ==>
        AwaitingIntroStep(w, u, cfg) ==
        (w0.(sessions := w0.sessions[u.chatId := s.WithStatus("received_intro")]), Enter(Week1Prompt))
    ensures var w0 := Touch(w, u, cfg); var s := w0.sessions[u.chatId];
      var awaiting := "awaiting_week" + WeekText(s.week) + "_prompt";
      var t := w0.startDate + cfg.interval;
      s.chatType == "private" && s.pairedChatId.Some? && s.pairedChatId.value != 0 && s.pairedChatId.value != u.chatId &&
      s.pairedChatId.value in w0.sessions && w0.sessions[s.pairedChatId.value].status == "received_intro" ==>
        AwaitingIntroStep(w, u, cfg) ==
        (w0.(sessions := w0.sessions[u.chatId := s.WithStatus("received_intro").WithStatus("intros_complete").WithStatus(awaiting)]
                                    [s.pairedChatId.value := w0.sessions[s.pairedChatId.value].WithStatus("intros_complete").WithStatus(awaiting)],
             scheduled := w0.scheduled + [Bundle(u.chatId, t, IntroDone)] + [Bundle(s.pairedChatId.value, t, IntroDone)]),
         Enter(Week1Prompt))
  {
    var w0 := Touch(w, u, cfg);
    var id := u.chatId;
    var s := w0.sessions[id];
    if s.chatType == "private" && s.pairedChatId.Some? && s.pairedChatId.value != 0 && s.pairedChatId.value != id && s.pairedChatId.value in w0.sessions {
      var p := s.pairedChatId.value;
      var awaiting := "awaiting_week" + WeekText(s.week) + "_prompt";
      var t := w0.startDate + cfg.interval;
      var w1 := SetStatusOf(w0, id, "received_intro");
      assert w1.sessions[p] == w0.sessions[p];
      AdvanceForm(w1, id, "intros_complete", t, IntroDone, awaiting);
      var w2 := Advance(w1, id, "intros_complete", t, IntroDone, awaiting);
      assert w2.sessions == w0.sessions[id := s.WithStatus("received_intro").WithStatus("intros_complete").WithStatus(awaiting)];
      assert w2.sessions[p] == w0.sessions[p];
      AdvanceForm(w2, p, "intros_complete", t, IntroDone, awaiting);
    }
  }

  // ---------------------------------------------------------------------------
  // The feedback barrier and the week rollover (handle_feedback)
  // ---------------------------------------------------------------------------

  function FeedbackReceived(week: nat): string {
    "received_week" + WeekText(week) + "_feedback"
  }

  /** The first partner to send feedback only records it, and the handler returns
      `None`: the conversation stays in the feedback state. */
  lemma FeedbackWaits(w: World, u: Update, cfg: Config)
    requires u.content == Voice
    requires var w0 := Touch(w, u, cfg); var s := w0.sessions[u.chatId];
      && s.pairedChatId.Some? && s.pairedChatId.value in w0.sessions && s.pairedChatId.value != u.chatId
      && w0.sessions[s.pairedChatId.value].status != FeedbackReceived(s.week)
      && s.chatType == "private"
    ensures var w0 := Touch(w, u, cfg); var s := w0.sessions[u.chatId];
      Feedback(w, u, cfg) == (w0.(sessions := w0.sessions[u.chatId := s.WithStatus(FeedbackReceived(s.week))]), Stay)
  {
  }

  /** A session at the end of week one, and at the start of week two. */
  function WeekDone(s: Session): Session {
    s.WithStatus("week1_complete")
  }

  function Rolled(s: Session): Session {
    s.(week := 2).WithStatus("awaiting_week2_prompt")
  }

  /** The end of the week on two different chats. */
  lemma CompleteWeekForm(w: World, id: int, p: int, cfg: Config)
    requires id in w.sessions && p in w.sessions && id != p
    ensures var t := w.startDate + 6 * cfg.interval;
      var done := w.(sessions := w.sessions[id := WeekDone(w.sessions[id])][p := WeekDone(w.sessions[p])],
                     scheduled := w.scheduled + [Bundle(id, t, FeedbackDone)] + [Bundle(p, t, FeedbackDone)]);
      var d := ShiftedStart(w.startDate, cfg);
      CompleteWeek(w, id, p, cfg) ==
        if w.sessions[id].week == 2 then (done, End)
        else (done.(sessions := w.sessions[id := Rolled(WeekDone(w.sessions[id]))][p := Rolled(WeekDone(w.sessions[p]))],
                    startDate := d,
                    scheduled := done.scheduled + [Bundle(id, d, WeekTwo)] + [Bundle(p, d, WeekTwo)]),
              Enter(Week2Prompt))
  {
    var t := w.startDate + 6 * cfg.interval;
    var w1 := Schedule(SetStatusOf(w, id, "week1_complete"), id, t, FeedbackDone);
    assert w1.sessions[p] == w.sessions[p];
    var w2 := Schedule(SetStatusOf(w1, p, "week1_complete"), p, t, FeedbackDone);
    assert w2.sessions == w.sessions[id := WeekDone(w.sessions[id])][p := WeekDone(w.sessions[p])];
    assert w2.scheduled == w.scheduled + [Bundle(id, t, FeedbackDone)] + [Bundle(p, t, FeedbackDone)];
    if w.sessions[id].week != 2 {
      assert WeekText(2) == "2";
      assert "awaiting_week" + WeekText(2) + "_prompt" == "awaiting_week2_prompt";
      var d := ShiftedStart(w.startDate, cfg);
      var w3 := w2.(startDate := d);
      var r1 := Rollover(w3, id, id);
      assert r1.sessions == w2.sessions[id := Rolled(WeekDone(w.sessions[id]))];
      assert r1.scheduled == w2.scheduled + [Bundle(id, d, WeekTwo)];
      assert r1.sessions[id].week == 2 && r1.sessions[p] == WeekDone(w.sessions[p]);
      var r2 := Rollover(r1, p, id);
      assert r2.sessions == r1.sessions[p := Rolled(WeekDone(w.sessions[p]))];
      assert r2.sessions == w.sessions[id := Rolled(WeekDone(w.sessions[id]))][p := Rolled(WeekDone(w.sessions[p]))];
      assert r2.scheduled == w2.scheduled + [Bundle(id, d, WeekTwo)] + [Bundle(p, d, WeekTwo)];
    }
  }

  /** The second partner's feedback records it and completes the week for both. */
  lemma FeedbackMeets(w: World, u: Update, cfg: Config)
    requires u.content == Voice
    requires var w0 := Touch(w, u, cfg); var s := w0.sessions[u.chatId];
      && s.pairedChatId.Some? && s.pairedChatId.value in w0.sessions && s.pairedChatId.value != u.chatId
      && w0.sessions[s.pairedChatId.value].status == FeedbackReceived(s.week)
      && s.chatType == "private"
    ensures var w0 := Touch(w, u, cfg); var s := w0.sessions[u.chatId]; var p := s.pairedChatId.value;
      var arrived := w0.(sessions := w0.sessions[u.chatId := s.WithStatus(FeedbackReceived(s.week))]);
      Feedback(w, u, cfg) == CompleteWeek(arrived, u.chatId, p, cfg)
  {
  }

  /** What completing the week amounts to. In week 2 the conversation ends with
      both weeks as they were; otherwise both chats move to week 2 awaiting its
      prompt, `START_DATE` moves on only if it was still the original date, and
      the week-two batch goes out at the new `START_DATE`. No other chat is
      touched. */
  lemma FeedbackCompletes(w: World, u: Update, cfg: Config)
    requires u.content == Voice
    requires var w0 := Touch(w, u, cfg); var s := w0.sessions[u.chatId];
      && s.pairedChatId.Some? && s.pairedChatId.value in w0.sessions && s.pairedChatId.value != u.chatId
      && w0.sessions[s.pairedChatId.value].status == FeedbackReceived(s.week)
      && s.chatType == "private"
    ensures var w0 := Touch(w, u, cfg); var s := w0.sessions[u.chatId]; var p := s.pairedChatId.value;
      var (w', o) := Feedback(w, u, cfg);
      var t := w0.startDate + 6 * cfg.interval;
      s.week == 2 ==>
        && o == End
        && w'.sessions[u.chatId].week == 2 && w'.sessions[p].week == w0.sessions[p].week
        && w'.sessions[u.chatId].status == "week1_complete" && w'.sessions[p].status == "week1_complete"
        && w'.startDate == w0.startDate
        && w'.scheduled == w0.scheduled + [Bundle(u.chatId, t, FeedbackDone)] + [Bundle(p, t, FeedbackDone)]
    ensures var w0 := Touch(w, u, cfg); var s := w0.sessions[u.chatId]; var p := s.pairedChatId.value;
      var (w', o) := Feedback(w, u, cfg);
      var t := w0.startDate + 6 * cfg.interval;
      s.week != 2 ==>
        && o == Enter(Week2Prompt)
        && w'.sessions[u.chatId].week == 2 && w'.sessions[p].week == 2
        && w'.sessions[u.chatId].status == "awaiting_week2_prompt"
        && w'.sessions[p].status == "awaiting_week2_prompt"
        && w'.startDate == ShiftedStart(w0.startDate, cfg)
        && w'.scheduled == w0.scheduled + [Bundle(u.chatId, t, FeedbackDone)] + [Bundle(p, t, FeedbackDone)]
                           + [Bundle(u.chatId, w'.startDate, WeekTwo)] + [Bundle(p, w'.startDate, WeekTwo)]
    ensures var w0 := Touch(w, u, cfg); var s := w0.sessions[u.chatId]; var p := s.pairedChatId.value;
      var w' := Feedback(w, u, cfg).0;
      forall k :: k in w0.sessions && k != u.chatId && k != p ==> k in w'.sessions && w'.sessions[k] == w0.sessions[k]
  {
    var w0 := Touch(w, u, cfg);
    var id := u.chatId;
    var s := w0.sessions[id];
    var p := s.pairedChatId.value;
    var arrived := w0.(sessions := w0.sessions[id := s.WithStatus(FeedbackReceived(s.week))]);
    FeedbackMeets(w, u, cfg);
    CompleteWeekForm(arrived, id, p, cfg);
  }

  /** Both partners send feedback, `ua` first: the pair reaches the end of the
      week from the world where both feedbacks are recorded. */
  lemma FeedbackTwice(w: World, ua: Update, ub: Update, cfg: Config)
    requires PairReady(w, ua.chatId, ub.chatId)
    requires ua.content == Voice && ub.content == Voice
    requires var week := w.sessions[ua.chatId].week;
      w.sessions[ua.chatId].status != FeedbackReceived(week) && w.sessions[ub.chatId].status != FeedbackReceived(week)
    ensures var a, b := ua.chatId, ub.chatId; var week := w.sessions[a].week;
      var arrived := w.(sessions := w.sessions[a := w.sessions[a].WithStatus(FeedbackReceived(week))]
                                              [b := w.sessions[b].WithStatus(FeedbackReceived(week))]);
      && Feedback(w, ua, cfg).1 == Stay
      && Feedback(Feedback(w, ua, cfg).0, ub, cfg) == CompleteWeek(arrived, b, a, cfg)
  {
    var a, b := ua.chatId, ub.chatId;
    var week := w.sessions[a].week;
    var sa, sb := w.sessions[a].WithStatus(FeedbackReceived(week)), w.sessions[b].WithStatus(FeedbackReceived(week));
    FeedbackWaits(w, ua, cfg);
    var wa := w.(sessions := w.sessions[a := sa]);
    FeedbackMeets(wa, ub, cfg);
    assert wa.sessions[b := sb] == w.sessions[a := sa][b := sb];
  }

  /** The feedback barrier commutes on the pair's sessions and `START_DATE`. */
  lemma FeedbackCommutes(w: World, ua: Update, ub: Update, cfg: Config)
    requires PairReady(w, ua.chatId, ub.chatId)
    requires ua.content == Voice && ub.content == Voice
    requires var week := w.sessions[ua.chatId].week;
      w.sessions[ua.chatId].status != FeedbackReceived(week) && w.sessions[ub.chatId].status != FeedbackReceived(week)
    ensures var ab := Feedback(Feedback(w, ua, cfg).0, ub, cfg).0;
      var ba := Feedback(Feedback(w, ub, cfg).0, ua, cfg).0;
      ab.sessions == ba.sessions && ab.names == ba.names && ab.startDate == ba.startDate
  {
    var a, b := ua.chatId, ub.chatId;
    var week := w.sessions[a].week;
    var sa, sb := w.sessions[a].WithStatus(FeedbackReceived(week)), w.sessions[b].WithStatus(FeedbackReceived(week));
    var arrived := w.(sessions := w.sessions[a := sa][b := sb]);
    FeedbackTwice(w, ua, ub, cfg);
    FeedbackTwice(w, ub, ua, cfg);
    UpdatesCommute(w.sessions, b, sb, a, sa);
    CompleteWeekForm(arrived, b, a, cfg);
    CompleteWeekForm(arrived, a, b, cfg);
    UpdatesCommute(arrived.sessions, b, WeekDone(sb), a, WeekDone(sa));
    UpdatesCommute(arrived.sessions, b, Rolled(WeekDone(sb)), a, Rolled(WeekDone(sa)));
  }

  /** The batches queued once both partners have sent feedback, `ua` first. */
  lemma FeedbackTwiceSchedule(w: World, ua: Update, ub: Update, cfg: Config)
    requires PairReady(w, ua.chatId, ub.chatId)
    requires ua.content == Voice && ub.content == Voice
    requires var week := w.sessions[ua.chatId].week;
      w.sessions[ua.chatId].status != FeedbackReceived(week) && w.sessions[ub.chatId].status != FeedbackReceived(week)
    ensures var a, b := ua.chatId, ub.chatId;
      var t := w.startDate + 6 * cfg.interval;
      var d := ShiftedStart(w.startDate, cfg);
      var ab := Feedback(Feedback(w, ua, cfg).0, ub, cfg).0.scheduled;
      && (w.sessions[a].week != 2 ==>
            ab == w.scheduled + [Bundle(b, t, FeedbackDone)] + [Bundle(a, t, FeedbackDone)] + [Bundle(b, d, WeekTwo)] + [Bundle(a, d, WeekTwo)])
      && (w.sessions[a].week == 2 ==>
            ab == w.scheduled + [Bundle(b, t, FeedbackDone)] + [Bundle(a, t, FeedbackDone)])
  {
    var a, b := ua.chatId, ub.chatId;
    var week := w.sessions[a].week;
    var sa, sb := w.sessions[a].WithStatus(FeedbackReceived(week)), w.sessions[b].WithStatus(FeedbackReceived(week));
    var arrived := w.(sessions := w.sessions[a := sa][b := sb]);
    FeedbackTwice(w, ua, ub, cfg);
    CompleteWeekForm(arrived, b, a, cfg);
  }

  /** Appending two bundles in either order gives the same multiset. */
  lemma SwappedPair(s: seq<Bundle>, x: Bundle, y: Bundle)
    ensures multiset(s + [y] + [x]) == multiset(s + [x] + [y])
  {
  }

  /** ... and only the returned value depends on the order: the first sender gets
      `None`, the second the week-two state, or `END` in week two. */
  lemma FeedbackOrderOutcomes(w: World, ua: Update, ub: Update, cfg: Config)
    requires PairReady(w, ua.chatId, ub.chatId)
    requires ua.content == Voice && ub.content == Voice
    requires var week := w.sessions[ua.chatId].week;
      w.sessions[ua.chatId].status != FeedbackReceived(week) && w.sessions[ub.chatId].status != FeedbackReceived(week)
    ensures Feedback(w, ua, cfg).1 == Stay
    ensures Feedback(Feedback(w, ua, cfg).0, ub, cfg).1 == if w.sessions[ua.chatId].week == 2 then End else Enter(Week2Prompt)
  {
    var a, b := ua.chatId, ub.chatId;
    var week := w.sessions[a].week;
    var sa, sb := w.sessions[a].WithStatus(FeedbackReceived(week)), w.sessions[b].WithStatus(FeedbackReceived(week));
    var arrived := w.(sessions := w.sessions[a := sa][b := sb]);
    FeedbackTwice(w, ua, ub, cfg);
    CompleteWeekForm(arrived, b, a, cfg);
  }

  // ---------------------------------------------------------------------------
  // START_DATE
  // ---------------------------------------------------------------------------

  /** `START_DATE` is either the original date or one week after it. */
  predicate StartDateOk(d: int, cfg: Config) {
    d == cfg.originalStartDate || d == cfg.originalStartDate + 7 * cfg.interval
  }

  /** No handler but `handle_feedback` moves `START_DATE`, and that one moves it
      only while it is the original date: once moved it stays put, so it moves at
      most once however many pairs complete week one. */
  lemma StartDateShiftsAtMostOnce(w: World, conv: map<int, StateId>, u: Update, cfg: Config)
    ensures var w' := Dispatch(w, conv, u, cfg).0;
      && (w.startDate != cfg.originalStartDate ==> w'.startDate == w.startDate)
      && (StartDateOk(w.startDate, cfg) ==> StartDateOk(w'.startDate, cfg))
  {
    if u.chatId in conv {
      var (h, f) := Table(conv[u.chatId]);
      RunKeepsStartDate(h, w, u, cfg);
    }
  }

  lemma RunKeepsStartDate(h: HandlerName, w: World, u: Update, cfg: Config)
    ensures var d := Run(h, w, u, cfg).0.startDate;
      d == w.startDate || (h == FeedbackHandler && d == ShiftedStart(w.startDate, cfg))
  {
    match h
    case PromptHandler => SubmitKeepsStartDate(Story, w, u, cfg);
    case VtHandler => SubmitKeepsStartDate(Tension, w, u, cfg);
    case PsHandler => SubmitKeepsStartDate(Listening, w, u, cfg);
    case FeedbackHandler => FeedbackStartDate(w, u, cfg);
    case _ =>
  }

  lemma SubmitKeepsStartDate(step: Step, w: World, u: Update, cfg: Config)
    ensures Submit(step, w, u, cfg).0.startDate == w.startDate
  {
  }

  lemma FeedbackStartDate(w: World, u: Update, cfg: Config)
    ensures var d := Feedback(w, u, cfg).0.startDate;
      d == w.startDate || d == ShiftedStart(w.startDate, cfg)
  {
  }

  // ---------------------------------------------------------------------------
  // /start
  // ---------------------------------------------------------------------------

  /** The outcomes of /start: an unpaired chat ends the conversation with its
      status unchanged; otherwise the week becomes 1 and, unless a starting status is
      configured, a group is left (`left_group`, `END`) and a private chat is welcomed
      (`start_welcomed`, first state). */
  lemma StartOutcomes(w: World, u: Update, cfg: Config)
    ensures var w0 := Touch(w, u, cfg); var s := w0.sessions[u.chatId];
      var (w', o) := Start(w, u, cfg);
      var s' := w'.sessions[u.chatId];
      && (s'.pairedUser, s'.pairedChatId) == ResolvePairing(s.name, cfg.pairs, w0.names)
      && (!s'.Paired() ==> o == End && s'.status == s.status && s'.week == s.week)
      && (s'.Paired() ==> s'.week == 1)
      && (s'.Paired() && SkipsAhead(cfg) ==>
            s'.status == s.status &&
            (o == Failed <==> cfg.startingStatus.value !in StateNames) &&
            (o.Enter? ==> StateNames[o.state] == cfg.startingStatus.value))
      && (s'.Paired() && !SkipsAhead(cfg) && Contains(s.chatType, "group") ==> o == End && s'.status == "left_group")
      && (s'.Paired() && !SkipsAhead(cfg) && !Contains(s.chatType, "group") ==>
            o == Enter(StartWelcomed) && s'.status == "start_welcomed")
  {
  }

  // ---------------------------------------------------------------------------
  // The week is set before any state handler runs
  // ---------------------------------------------------------------------------

  /** Every chat inside the conversation has a session whose week was set by
      /start (it is at least 1). */
  predicate Started(w: World, conv: map<int, StateId>) {
    forall id :: id in conv ==> id in w.sessions && w.sessions[id].week >= 1
  }

  /** No session is dropped and no set week is unset. */
  predicate KeepsWeeks(w: World, w': World) {
    forall k :: k in w.sessions ==> k in w'.sessions && (w.sessions[k].week >= 1 ==> w'.sessions[k].week >= 1)
  }

  /** The same sessions with the same weeks. */
  predicate SameWeeks(w: World, w': World) {
    && w'.sessions.Keys == w.sessions.Keys
    && forall k :: k in w.sessions ==> w'.sessions[k].week == w.sessions[k].week
  }

  lemma AdvanceKeepsWeeks(w: World, k: int, midway: string, t: int, b: Batch, awaiting: string)
    requires k in w.sessions
    ensures SameWeeks(w, Advance(w, k, midway, t, b, awaiting))
  {
    AdvanceForm(w, k, midway, t, b, awaiting);
  }

  lemma KeepsThenSame(w: World, w': World, w'': World)
    requires KeepsWeeks(w, w') && SameWeeks(w', w'')
    ensures KeepsWeeks(w, w'')
  {
  }

  lemma MeetKeepsWeeks(step: Step, w: World, id: int, p: int, week: nat, cfg: Config)
    requires id in w.sessions && p in w.sessions
    ensures SameWeeks(w, Meet(step, w, id, p, week, cfg))
  {
    var t := SendTime(w.startDate, BatchOf(step), cfg.interval);
    AdvanceKeepsWeeks(w, id, Midway(step, week), t, BatchOf(step), Awaiting(step, week));
    var w1 := Advance(w, id, Midway(step, week), t, BatchOf(step), Awaiting(step, week));
    AdvanceKeepsWeeks(w1, p, Midway(step, week), t, BatchOf(step), Awaiting(step, week));
  }

  lemma BarrierKeepsWeeks(step: Step, w: World, id: int, week: nat, cfg: Config)
    requires id in w.sessions
    ensures KeepsWeeks(w, Barrier(step, w, id, week, cfg).0)
  {
    if PartnerKnown(w, id) {
      var p := PartnerOf(w, id);
      if !(step == Listening && !HasFirstName(w, p)) && w.sessions[p].status == Received(step, week) {
        MeetKeepsWeeks(step, w, id, p, week, cfg);
      }
    }
  }

  lemma SubmitKeepsWeeks(step: Step, w: World, u: Update, cfg: Config)
    ensures KeepsWeeks(w, Submit(step, w, u, cfg).0)
  {
    var id := u.chatId;
    var w1 := Prepared(step, w, u, cfg);
    var week := w1.sessions[id].week;
    assert KeepsWeeks(w, w1);
    if u.content.Voice? {
      var w2 := SetStatusOf(w1, id, Received(step, week));
      assert SameWeeks(w1, w2);
      KeepsThenSame(w, w1, w2);
      if HasFirstName(w2, id) {
        BarrierKeepsWeeks(step, w2, id, week, cfg);
        KeepsThenKeeps(w, w2, Barrier(step, w2, id, week, cfg).0);
      }
    }
  }

  lemma IntroKeepsWeeks(w: World, u: Update, cfg: Config)
    ensures KeepsWeeks(w, AwaitingIntroStep(w, u, cfg).0)
  {
    var id := u.chatId;
    var w0 := Touch(w, u, cfg);
    if u.content.Voice? {
      var w1 := SetStatusOf(w0, id, "received_intro");
      assert KeepsWeeks(w, w1);
      var p := w1.sessions[id].pairedChatId;
      if HasFirstName(w1, id) && p.Some? && p.value != 0 && p.value in w1.sessions {
        var t := SendTime(w1.startDate, IntroDone, cfg.interval);
        var awaiting := "awaiting_week" + WeekText(w1.sessions[id].week) + "_prompt";
        AdvanceKeepsWeeks(w1, id, "intros_complete", t, IntroDone, awaiting);
        var w2 := Advance(w1, id, "intros_complete", t, IntroDone, awaiting);
        AdvanceKeepsWeeks(w2, p.value, "intros_complete", t, IntroDone, awaiting);
      }
    }
  }

  lemma CompleteWeekKeepsWeeks(w: World, id: int, p: int, cfg: Config)
    requires id in w.sessions && p in w.sessions
    ensures KeepsWeeks(w, CompleteWeek(w, id, p, cfg).0)
  {
    var t := SendTime(w.startDate, FeedbackDone, cfg.interval);
    var w1 := Schedule(SetStatusOf(w, id, "week1_complete"), id, t, FeedbackDone);
    var w2 := Schedule(SetStatusOf(w1, p, "week1_complete"), p, t, FeedbackDone);
    assert SameWeeks(w, w2);
    if w2.sessions[id].week != 2 {
      var w3 := w2.(startDate := ShiftedStart(w2.startDate, cfg));
      var r1 := Rollover(w3, id, id);
      assert KeepsWeeks(w, r1);
      assert KeepsWeeks(w, Rollover(r1, p, id));
    }
  }

  lemma KeepsThenKeeps(w: World, w': World, w'': World)
    requires KeepsWeeks(w, w') && KeepsWeeks(w', w'')
    ensures KeepsWeeks(w, w'')
  {
  }

  lemma FeedbackKeepsWeeks(w: World, u: Update, cfg: Config)
    ensures KeepsWeeks(w, Feedback(w, u, cfg).0)
  {
    var id := u.chatId;
    var w0 := Touch(w, u, cfg);
    if u.content.Voice? {
      var received := FeedbackReceived(w0.sessions[id].week);
      var w1 := SetStatusOf(w0, id, received);
      assert KeepsWeeks(w, w1);
      if HasFirstName(w1, id) && PartnerKnown(w1, id) && w1.sessions[PartnerOf(w1, id)].status == received {
        var p := PartnerOf(w1, id);
        CompleteWeekKeepsWeeks(w1, id, p, cfg);
        KeepsThenKeeps(w, w1, CompleteWeek(w1, id, p, cfg).0);
        assert Feedback(w, u, cfg) == CompleteWeek(w1, id, p, cfg);
      } else {
        assert Feedback(w, u, cfg).0 == w1;
      }
    } else {
      assert Feedback(w, u, cfg).0 == w0;
    }
  }

  /** The tutorial handlers touch at most the chat's status, subdirectory and
      sent list; one lemma per handler keeps each proof small. */
  lemma StartTutorialKeepsWeeks(w: World, u: Update, cfg: Config)
    ensures KeepsWeeks(w, StartTutorial(w, u, cfg).0)
  {
  }

  lemma TutorialStoryKeepsWeeks(w: World, u: Update, cfg: Config)
    ensures KeepsWeeks(w, GetTutorialStory(w, u, cfg).0)
  {
  }

  lemma TutStory1KeepsWeeks(w: World, u: Update, cfg: Config)
    ensures KeepsWeeks(w, TutStory1Step(w, u, cfg).0)
  {
  }

  lemma TutStory2KeepsWeeks(w: World, u: Update, cfg: Config)
    ensures KeepsWeeks(w, TutStory2Step(w, u, cfg).0)
  {
  }

  lemma TutCompletedKeepsWeeks(w: World, u: Update, cfg: Config)
    ensures KeepsWeeks(w, TutCompletedStep(w, u, cfg).0)
  {
  }

  lemma RunKeepsWeeks(h: HandlerName, w: World, u: Update, cfg: Config)
    ensures KeepsWeeks(w, Run(h, w, u, cfg).0)
  {
    match h
    case PromptHandler => SubmitKeepsWeeks(Story, w, u, cfg);
    case VtHandler => SubmitKeepsWeeks(Tension, w, u, cfg);
    case PsHandler => SubmitKeepsWeeks(Listening, w, u, cfg);
    case AwaitingIntroHandler => IntroKeepsWeeks(w, u, cfg);
    case FeedbackHandler => FeedbackKeepsWeeks(w, u, cfg);
    case StartTutorialHandler => StartTutorialKeepsWeeks(w, u, cfg);
    case GetTutorialStoryHandler => TutorialStoryKeepsWeeks(w, u, cfg);
    case TutStory1Handler => TutStory1KeepsWeeks(w, u, cfg);
    case TutStory2Handler => TutStory2KeepsWeeks(w, u, cfg);
    case TutCompletedHandler => TutCompletedKeepsWeeks(w, u, cfg);
  }

  /** The conversation handler keeps every chat in a conversation started: a
      state number is only ever stored after /start set the week, and the week is
      only ever set to 1 or 2. So the handlers that spell the week into a status
      never see a chat without one. */
  lemma DispatchKeepsStarted(w: World, conv: map<int, StateId>, u: Update, cfg: Config)
    requires Started(w, conv)
    ensures var (w', conv') := Dispatch(w, conv, u, cfg); Started(w', conv')
  {
    var id := u.chatId;
    if id in conv {
      var (h, f) := Table(conv[id]);
      RunKeepsWeeks(h, w, u, cfg);
    } else if u.content.Text? && IsCommand(u.content.text, "start") {
      StartOutcomes(w, u, cfg);
    }
  }

  // ---------------------------------------------------------------------------
  // Schedule
  // ---------------------------------------------------------------------------

  /** With a positive interval, the batches of one week go out in the order of the
      steps: introduction, story, value tension, listening response, feedback. */
  lemma SendTimesIncrease(startDate: int, interval: int)
    requires interval > 0
    ensures SendTime(startDate, IntroDone, interval) < SendTime(startDate, StoryDone, interval)
    ensures SendTime(startDate, StoryDone, interval) < SendTime(startDate, TensionDone, interval)
    ensures SendTime(startDate, TensionDone, interval) < SendTime(startDate, ListeningDone, interval)
    ensures SendTime(startDate, ListeningDone, interval) < SendTime(startDate, FeedbackDone, interval)
  {
  }

  /** The /cancel fallback is never reached inside a conversation: every state's
      handler accepts text, commands included, so /cancel goes to that handler. */
  lemma CancelShadowed(w: World, conv: map<int, StateId>, u: Update, cfg: Config)
    requires u.chatId in conv && u.content == Text("/cancel")
    ensures Dispatch(w, conv, u, cfg) ==
      (Run(Table(conv[u.chatId]).0, w, u, cfg).0, NextConv(conv, u.chatId, Run(Table(conv[u.chatId]).0, w, u, cfg).1))
  {
  }
}
