/**
  Who knows whose chat id. `set_paired_user` (chat.py) looks the partner's chat
  id up in `name_to_chat_id`, and the echo bot runs it only when a session is
  created and on /start. /start is the conversation's entry point, so a chat
  inside a conversation never hears it again. Of two partners, the one who sends
  /start first finds no entry for the other and never learns the other's id;
  the partner barriers then depend on who submits first.

  `EchoEngine.StartMutual` is /start with the partner's session looking its own
  partner up again as well; with it both partners know each other, which is the
  situation `EchoProperties.PairReady` describes.
 */
module EchoPairing {
  import opened Wrappers
  import opened Strings
  import opened Chat
  import opened EchoStates
  import opened EchoEngine
  import opened EchoProperties

  // ---------------------------------------------------------------------------
  // The pairing as /start leaves it
  // ---------------------------------------------------------------------------

  /** Two private chats whose usernames the pairing table lists as each other's
      partners, neither of them known to the bot yet. */
  predicate NewPartners(w: World, ua: Update, ub: Update, cfg: Config) {
    && ua.chatId != ub.chatId && ua.chatId !in w.sessions && ub.chatId !in w.sessions
    && ua.chatType == "private" && ub.chatType == "private"
    && ua.username.Some? && ub.username.Some?
    && ua.username.value != ub.username.value
    && ua.username.value != "" && ub.username.value != ""
    && ua.username.value in cfg.pairs && cfg.pairs[ua.username.value] == ub.username.value
    && ub.username.value in cfg.pairs && cfg.pairs[ub.username.value] == ua.username.value
    && ua.username !in w.names && ub.username !in w.names
  }

  /** `a` sends /start, then `b` does: both are paired and in week 1, but only
      `b` holds its partner's chat id. */
  lemma StartsPairOneSided(w: World, ua: Update, ub: Update, cfg: Config)
    requires NewPartners(w, ua, ub, cfg)
    ensures var w2 := Start(Start(w, ua, cfg).0, ub, cfg).0;
      && ua.chatId in w2.sessions && ub.chatId in w2.sessions
      && w2.sessions[ua.chatId].Paired() && w2.sessions[ub.chatId].Paired()
      && w2.sessions[ua.chatId].week == 1 && w2.sessions[ub.chatId].week == 1
      && w2.sessions[ua.chatId].pairedChatId == None
      && w2.sessions[ub.chatId].pairedChatId == Some(ua.chatId)
  {
    var w1 := Start(w, ua, cfg).0;
    StartOutcomes(w, ua, cfg);
    StartOutcomes(w1, ub, cfg);
    assert Touch(w1, ub, cfg).names[ub.username] == ub.chatId;
  }

  /** Partner ids are left alone: every existing session keeps its
      `paired_chat_id`. */
  predicate SamePairing(w: World, w': World) {
    forall k :: k in w.sessions ==> k in w'.sessions && w'.sessions[k].pairedChatId == w.sessions[k].pairedChatId
  }

  lemma SamePairingTrans(w: World, w': World, w'': World)
    requires SamePairing(w, w') && SamePairing(w', w'')
    ensures SamePairing(w, w'')
  {
  }

  lemma MeetKeepsPairing(step: Step, w: World, id: int, p: int, week: nat, cfg: Config)
    requires id in w.sessions && p in w.sessions
    ensures SamePairing(w, Meet(step, w, id, p, week, cfg))
  {
    var t := SendTime(w.startDate, BatchOf(step), cfg.interval);
    AdvanceForm(w, id, Midway(step, week), t, BatchOf(step), Awaiting(step, week));
    var w1 := Advance(w, id, Midway(step, week), t, BatchOf(step), Awaiting(step, week));
    AdvanceForm(w1, p, Midway(step, week), t, BatchOf(step), Awaiting(step, week));
  }

  lemma BarrierKeepsPairing(step: Step, w: World, id: int, week: nat, cfg: Config)
    requires id in w.sessions
    ensures SamePairing(w, Barrier(step, w, id, week, cfg).0)
  {
    if PartnerKnown(w, id) {
      var p := PartnerOf(w, id);
      if !(step == Listening && !HasFirstName(w, p)) && w.sessions[p].status == Received(step, week) {
        MeetKeepsPairing(step, w, id, p, week, cfg);
      }
    }
  }

  lemma SubmitKeepsPairing(step: Step, w: World, u: Update, cfg: Config)
    ensures SamePairing(w, Submit(step, w, u, cfg).0)
  {
    var id := u.chatId;
    var w1 := Prepared(step, w, u, cfg);
    var week := w1.sessions[id].week;
    assert SamePairing(w, w1);
    if u.content.Voice? {
      var w2 := SetStatusOf(w1, id, Received(step, week));
      assert SamePairing(w1, w2);
      SamePairingTrans(w, w1, w2);
      if HasFirstName(w2, id) {
        BarrierKeepsPairing(step, w2, id, week, cfg);
        SamePairingTrans(w, w2, Barrier(step, w2, id, week, cfg).0);
      }
    }
  }

  lemma IntroKeepsPairing(w: World, u: Update, cfg: Config)
    ensures SamePairing(w, AwaitingIntroStep(w, u, cfg).0)
  {
    var id := u.chatId;
    var w0 := Touch(w, u, cfg);
    if u.content.Voice? {
      var w1 := SetStatusOf(w0, id, "received_intro");
      assert SamePairing(w, w1);
      var p := w1.sessions[id].pairedChatId;
      if HasFirstName(w1, id) && p.Some? && p.value != 0 && p.value in w1.sessions {
        var t := SendTime(w1.startDate, IntroDone, cfg.interval);
        var awaiting := "awaiting_week" + WeekText(w1.sessions[id].week) + "_prompt";
        AdvanceForm(w1, id, "intros_complete", t, IntroDone, awaiting);
        var w2 := Advance(w1, id, "intros_complete", t, IntroDone, awaiting);
        AdvanceForm(w2, p.value, "intros_complete", t, IntroDone, awaiting);
      }
    }
  }

  lemma CompleteWeekKeepsPairing(w: World, id: int, p: int, cfg: Config)
    requires id in w.sessions && p in w.sessions
    ensures SamePairing(w, CompleteWeek(w, id, p, cfg).0)
  {
    var t := SendTime(w.startDate, FeedbackDone, cfg.interval);
    var w1 := Schedule(SetStatusOf(w, id, "week1_complete"), id, t, FeedbackDone);
    var w2 := Schedule(SetStatusOf(w1, p, "week1_complete"), p, t, FeedbackDone);
    assert SamePairing(w, w2);
    if w2.sessions[id].week != 2 {
      var w3 := w2.(startDate := ShiftedStart(w2.startDate, cfg));
      var r1 := Rollover(w3, id, id);
      assert SamePairing(w, r1);
      assert SamePairing(w, Rollover(r1, p, id));
    }
  }

  lemma FeedbackKeepsPairing(w: World, u: Update, cfg: Config)
    ensures SamePairing(w, Feedback(w, u, cfg).0)
  {
    var id := u.chatId;
    var w0 := Touch(w, u, cfg);
    if u.content.Voice? {
      var received := FeedbackReceived(w0.sessions[id].week);
      var w1 := SetStatusOf(w0, id, received);
      assert SamePairing(w, w1);
      if HasFirstName(w1, id) && PartnerKnown(w1, id) && w1.sessions[PartnerOf(w1, id)].status == received {
        var p := PartnerOf(w1, id);
        CompleteWeekKeepsPairing(w1, id, p, cfg);
        SamePairingTrans(w, w1, CompleteWeek(w1, id, p, cfg).0);
        assert Feedback(w, u, cfg) == CompleteWeek(w1, id, p, cfg);
      } else {
        assert Feedback(w, u, cfg).0 == w1;
      }
    }
  }

  /** No state handler changes a partner id. */
  lemma RunKeepsPairing(h: HandlerName, w: World, u: Update, cfg: Config)
    ensures SamePairing(w, Run(h, w, u, cfg).0)
  {
    match h
    case PromptHandler => SubmitKeepsPairing(Story, w, u, cfg);
    case VtHandler => SubmitKeepsPairing(Tension, w, u, cfg);
    case PsHandler => SubmitKeepsPairing(Listening, w, u, cfg);
    case AwaitingIntroHandler => IntroKeepsPairing(w, u, cfg);
    case FeedbackHandler => FeedbackKeepsPairing(w, u, cfg);
    case _ =>
  }

  /** Once a chat is inside the conversation, no update, from it or from any
      other chat, changes its partner id: a missing id stays missing. */
  lemma ConversationPairingFixed(w: World, conv: map<int, StateId>, u: Update, cfg: Config, k: int)
    requires k in conv && k in w.sessions
    ensures var w' := Dispatch(w, conv, u, cfg).0;
      k in w'.sessions && w'.sessions[k].pairedChatId == w.sessions[k].pairedChatId
  {
    if u.chatId in conv {
      RunKeepsPairing(Table(conv[u.chatId]).0, w, u, cfg);
    }
  }

  // ---------------------------------------------------------------------------
  // The barriers with a one-sided pairing
  // ---------------------------------------------------------------------------

  /** Two private chats: `a` does not know its partner's chat id, `b` knows
      `a`'s; both are in the same week. */
  predicate OneSided(w: World, a: int, b: int) {
    && a != b && a in w.sessions && b in w.sessions
    && w.sessions[a].pairedChatId == None && w.sessions[b].pairedChatId == Some(a)
    && w.sessions[a].week == w.sessions[b].week
    && w.sessions[a].chatType == "private" && w.sessions[b].chatType == "private"
  }

  /** The weekly barriers with a one-sided pairing depend on the order. When `a`
      submits first, its handler raises (`chat_handlers[None]`), but `b`'s
      submission then finds `a` ready and moves both on. When `b` submits first,
      `b` waits for `a`, `a`'s handler raises, and neither chat moves on: both
      stay in the `received_*` status and nothing is queued. */
  lemma OneSidedSubmitOrder(step: Step, w: World, ua: Update, ub: Update, cfg: Config)
    requires OneSided(w, ua.chatId, ub.chatId)
    requires ua.content == Voice && ub.content == Voice
    requires var week := w.sessions[ua.chatId].week;
      w.sessions[ua.chatId].status != Received(step, week) && w.sessions[ub.chatId].status != Received(step, week)
    ensures var a, b := ua.chatId, ub.chatId; var week := w.sessions[a].week;
      var (wa, oa) := Submit(step, w, ua, cfg);
      var (wab, ob) := Submit(step, wa, ub, cfg);
      && oa == Failed && ob == Enter(NextState(step))
      && a in wab.sessions && b in wab.sessions
      && wab.sessions[a].status == Awaiting(step, week) && wab.sessions[b].status == Awaiting(step, week)
    ensures var a, b := ua.chatId, ub.chatId; var week := w.sessions[a].week;
      var (wb, ob) := Submit(step, w, ub, cfg);
      var (wba, oa) := Submit(step, wb, ua, cfg);
      && ob == Enter(NextState(step)) && oa == Failed
      && a in wba.sessions && b in wba.sessions
      && wba.sessions[a].status == Received(step, week) && wba.sessions[b].status == Received(step, week)
      && wba.scheduled == w.scheduled
  {
    SubmitOneSidedAFirst(step, w, ua, ub, cfg);
    SubmitOneSidedBFirst(step, w, ua, ub, cfg);
  }

  lemma SubmitOneSidedAFirst(step: Step, w: World, ua: Update, ub: Update, cfg: Config)
    requires OneSided(w, ua.chatId, ub.chatId)
    requires ua.content == Voice && ub.content == Voice
    requires w.sessions[ua.chatId].status != Received(step, w.sessions[ua.chatId].week)
    ensures var a, b := ua.chatId, ub.chatId; var week := w.sessions[a].week;
      var (wa, oa) := Submit(step, w, ua, cfg);
      var (wab, ob) := Submit(step, wa, ub, cfg);
      && oa == Failed && ob == Enter(NextState(step))
      && a in wab.sessions && b in wab.sessions
      && wab.sessions[a].status == Awaiting(step, week) && wab.sessions[b].status == Awaiting(step, week)
  {
    SubmitRaises(step, w, ua, cfg);
    var wa := Submit(step, w, ua, cfg).0;
    SubmitMeetsAt(step, wa, ub, cfg, ua.chatId);
  }

  lemma SubmitOneSidedBFirst(step: Step, w: World, ua: Update, ub: Update, cfg: Config)
    requires OneSided(w, ua.chatId, ub.chatId)
    requires ua.content == Voice && ub.content == Voice
    requires w.sessions[ua.chatId].status != Received(step, w.sessions[ua.chatId].week)
    ensures var a, b := ua.chatId, ub.chatId; var week := w.sessions[a].week;
      var (wb, ob) := Submit(step, w, ub, cfg);
      var (wba, oa) := Submit(step, wb, ua, cfg);
      && ob == Enter(NextState(step)) && oa == Failed
      && a in wba.sessions && b in wba.sessions
      && wba.sessions[a].status == Received(step, week) && wba.sessions[b].status == Received(step, week)
      && wba.scheduled == w.scheduled
  {
    SubmitWaitsAt(step, w, ub, cfg);
    var wb := Submit(step, w, ub, cfg).0;
    SubmitRaises(step, wb, ua, cfg);
  }

  /** A voice note from a chat without a partner id: the status is set, then
      `chat_handlers[chat.paired_chat_id]` raises. */
  lemma SubmitRaises(step: Step, w: World, u: Update, cfg: Config)
    requires u.content == Voice && u.chatId in w.sessions && w.sessions[u.chatId].pairedChatId == None
    ensures Submit(step, w, u, cfg) == (w.(sessions := w.sessions[u.chatId := Arrived(step, w.sessions[u.chatId])]), Failed)
  {
    ArrivedForm(step, w, u, cfg);
  }

  /** The feedback barrier with a one-sided pairing: `a` first raises and `b`
      then completes the week for both; `b` first waits and `a` then raises, so
      the week is never completed. */
  lemma OneSidedFeedbackOrder(w: World, ua: Update, ub: Update, cfg: Config)
    requires OneSided(w, ua.chatId, ub.chatId)
    requires ua.content == Voice && ub.content == Voice
    requires var received := FeedbackReceived(w.sessions[ua.chatId].week);
      w.sessions[ua.chatId].status != received && w.sessions[ub.chatId].status != received
    ensures var a, b := ua.chatId, ub.chatId;
      var (wa, oa) := Feedback(w, ua, cfg);
      var (wab, ob) := Feedback(wa, ub, cfg);
      && oa == Failed && (ob == End || ob == Enter(Week2Prompt))
      && a in wab.sessions && b in wab.sessions
      && wab.sessions[a].status != FeedbackReceived(w.sessions[a].week)
      && wab.sessions[b].status != FeedbackReceived(w.sessions[a].week)
    ensures var a, b := ua.chatId, ub.chatId; var received := FeedbackReceived(w.sessions[a].week);
      var (wb, ob) := Feedback(w, ub, cfg);
      var (wba, oa) := Feedback(wb, ua, cfg);
      && ob == Stay && oa == Failed
      && a in wba.sessions && b in wba.sessions
      && wba.sessions[a].status == received && wba.sessions[b].status == received
      && wba.scheduled == w.scheduled
  {
    var a, b := ua.chatId, ub.chatId;
    var received := FeedbackReceived(w.sessions[a].week);
    var wa := SetStatusOf(w, a, received);
    assert Feedback(w, ua, cfg) == (wa, Failed);
    FeedbackOneSidedSecond(w, wa, ua, ub, cfg);
    var wb := SetStatusOf(w, b, received);
    assert Feedback(w, ub, cfg) == (wb, Stay);
    assert Feedback(wb, ua, cfg) == (SetStatusOf(wb, a, received), Failed);
  }

  /** `b`'s feedback after `a`'s raised: the week completes for both. */
  lemma FeedbackOneSidedSecond(w: World, wa: World, ua: Update, ub: Update, cfg: Config)
    requires OneSided(w, ua.chatId, ub.chatId) && ub.content == Voice
    requires wa == SetStatusOf(w, ua.chatId, FeedbackReceived(w.sessions[ua.chatId].week))
    ensures var a, b := ua.chatId, ub.chatId;
      var (wab, ob) := Feedback(wa, ub, cfg);
      && (ob == End || ob == Enter(Week2Prompt))
      && a in wab.sessions && b in wab.sessions
      && wab.sessions[a].status != FeedbackReceived(w.sessions[a].week)
      && wab.sessions[b].status != FeedbackReceived(w.sessions[a].week)
  {
    FeedbackCompletes(wa, ub, cfg);
  }

  /** The introduction barrier with a one-sided pairing: `a` never waits for
      `b`. `a` first: `b`'s introduction then moves both on. `b` first: `b` waits,
      `a` goes on alone, and the day-one batch is never queued. */
  lemma OneSidedIntroOrder(w: World, ua: Update, ub: Update, cfg: Config)
    requires OneSided(w, ua.chatId, ub.chatId)
    requires ua.content == Voice && ub.content == Voice
    requires w.sessions[ua.chatId].status != "received_intro" && w.sessions[ub.chatId].status != "received_intro"
    requires ua.chatId != 0  // a zero id reads as "no partner" to `awaiting_intro`; Telegram never issues it
    ensures var a, b := ua.chatId, ub.chatId;
      var (wa, oa) := AwaitingIntroStep(w, ua, cfg);
      var (wab, ob) := AwaitingIntroStep(wa, ub, cfg);
      && oa == Enter(Week1Prompt) && ob == Enter(Week1Prompt)
      && wab.sessions[a].status == wab.sessions[b].status != "received_intro"
      && |wab.scheduled| == |w.scheduled| + 2
    ensures var a, b := ua.chatId, ub.chatId;
      var (wb, ob) := AwaitingIntroStep(w, ub, cfg);
      var (wba, oa) := AwaitingIntroStep(wb, ua, cfg);
      && ob == Enter(Week1Prompt) && oa == Enter(Week1Prompt)
      && wba.sessions[a].status == "received_intro" && wba.sessions[b].status == "received_intro"
      && wba.scheduled == w.scheduled
  {
    var a, b := ua.chatId, ub.chatId;
    var wa := SetStatusOf(w, a, "received_intro");
    assert AwaitingIntroStep(w, ua, cfg) == (wa, Enter(Week1Prompt));
    IntroOutcomes(wa, ub, cfg);
    var awaiting := "awaiting_week" + WeekText(w.sessions[b].week) + "_prompt";
    assert awaiting[0] == 'a' != "received_intro"[0];
    var wb := SetStatusOf(w, b, "received_intro");
    assert AwaitingIntroStep(w, ub, cfg) == (wb, Enter(Week1Prompt));
    assert AwaitingIntroStep(wb, ua, cfg) == (SetStatusOf(wb, a, "received_intro"), Enter(Week1Prompt));
  }

  // ---------------------------------------------------------------------------
  // The pairing with the mutual lookup
  // ---------------------------------------------------------------------------

  /** With the mutual lookup, two partners who each send /start end up knowing
      each other's chat id, in the same week: the barrier lemmas of
      `EchoProperties` (which ask for `PairReady`) then apply whoever submits
      first. */
  lemma MutualStartsPair(w: World, ua: Update, ub: Update, cfg: Config)
    requires NewPartners(w, ua, ub, cfg)
    ensures var w2 := StartMutual(StartMutual(w, ua, cfg).0, ub, cfg).0;
      PairReady(w2, ua.chatId, ub.chatId) && w2.sessions[ua.chatId].week == 1
  {
    var a, b := ua.chatId, ub.chatId;
    StartOutcomes(w, ua, cfg);
    var w1 := Start(w, ua, cfg).0;
    assert w1.sessions[a].pairedChatId == None;
    assert StartMutual(w, ua, cfg).0 == w1;
    StartOutcomes(w1, ub, cfg);
    var v := Start(w1, ub, cfg).0;
    assert Touch(w1, ub, cfg).names[ub.username] == b;
    assert v.sessions[b].pairedChatId == Some(a);
    assert v.names == Touch(w1, ub, cfg).names;
    assert v.sessions[a] == w1.sessions[a];
  }
}
