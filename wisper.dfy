/**
  wisperv2.py, the earlier command-driven bot: every command looks the chat's
  session object up (creating it on first contact) and acts on its status. Its
  `ChatHandler` differs from chat.py's in one respect that matters here: the
  `status` setter logs every assignment, even one that keeps the value.

  The tutorial-story decision is the same as chat.py's and is reused from
  `Chat`; what this module adds is the always-logging setter, the messages each
  step hands to `send_msg`, the text and voice-note status logic, the
  end-of-tutorial chain, the handler registry and the message chunker.
 */
module WisperV2 {
  import opened Wrappers
  import opened Strings
  import Chat

  // ---------------------------------------------------------------------------
  // Messages
  // ---------------------------------------------------------------------------

  /** The messages the bot hands to `send_msg` (or, for `UnknownUsername`, to the
      transport directly), by kind; the first names interpolated into some of
      them are not modelled. */
  datatype Reply =
    | CannotChat                        // opener: the bot cannot really chat
    | StartOrBeginTutorial              // start_welcomed: /start or /starttutorial
    | NewHere                           // none: use /start
    | RequestFirstStory                 // tut_started: /gettutorialstory
    | AnswerFirstStory                  // tut_story1received
    | AnswerLatestStory                 // tut_story2received, tut_story3received
    | AnswerLastStory                   // tut_story4received
    | FastTyper                         // tut_story{1..4}responded
    | TutorialOver                      // tut_completed
    | IntroduceYourself(partner: Option<string>)  // awaiting_intro
    | TutorialThanks                    // send_endtutorial
    | PairedWith(partner: Option<string>)         // start_pairing
    | GroupsUnsupported                 // a text message in a group
    | ThanksForRecording                // a voice note arrived
    | AnswerBeforeNext                  // send_tutstory: last story not answered
    | ReadInstructionsFirst             // send_tutstory: tutorial not started
    | StoryIntro(ordinal: nat)          // "Here's the first/second/third/fourth ... story"
    | StoryQuestions(first: bool)       // the reflection questions after a story
    | StoriesExhausted                  // send_tutstory: no story left
    | TutorialInstructions              // /starttutorial
    | Welcome                           // /start, first message
    | TutorialSpace                     // /start, second message
    | WatchVideoFirst                   // /start, after the explainer video
    | UnknownUsername                   // /start from a chat with no partner

  /** `send_msg` hands messages on only in a paired chat. */
  function Delivered(paired: bool, ms: seq<Reply>): seq<Reply> {
    if paired then ms else []
  }

  /** The line the setter writes: for a paired chat, on every assignment. */
  function Logged(paired: bool, from: string, to: string): seq<Chat.LogLine> {
    if paired then [Chat.StatusChanged(from, to)] else []
  }

  /** The idempotent setter of chat.py and the setter here part ways exactly on
      an assignment of the current value in a paired chat: chat.py writes
      nothing, this one writes a line from the status to itself. */
  lemma SettersDiffer(s: Chat.Session, value: string)
    ensures s.status != value ==> Chat.StatusLog(s, value) == Logged(s.Paired(), s.status, value)
    ensures s.status == value && s.Paired() ==>
      Chat.StatusLog(s, value) == [] && Logged(s.Paired(), s.status, value) == [Chat.StatusChanged(value, value)]
  {
  }

  // ---------------------------------------------------------------------------
  // The value of a session object
  // ---------------------------------------------------------------------------

  /** What a `ChatHandler` of wisperv2.py holds besides its identity, its log and
      the messages it has sent. */
  datatype Session = Session(status: string, subdir: string, sent: seq<string>, pairedUser: Option<string>)
  {
    /** `if self.paired_user:` */
    predicate Paired() {
      pairedUser.Some? && pairedUser.value != ""
    }
  }

  /** `ChatHandler.__init__`: status `none`, recordings under `tutorialresponses`,
      and the partner looked up under the session's name. */
  function NewSession(name: Option<string>, pairs: map<string, string>): (s: Session)
    ensures s.status == "none" && s.subdir == "tutorialresponses" && s.sent == []
    ensures s.pairedUser.Some? <==> name.Some? && name.value in pairs
    ensures s.pairedUser.Some? ==> s.pairedUser.value == pairs[name.value]
  {
    Session("none", "tutorialresponses", [], if name.Some? then Chat.Get(pairs, name.value) else None)
  }

  // ---------------------------------------------------------------------------
  // Text messages (textresponse_chooser)
  // ---------------------------------------------------------------------------

  /** The statuses a text message is answered in with the opener and a hint. */
  const Hinted: set<string> := {
    "start_welcomed", "none", "tut_started",
    "tut_story1received", "tut_story2received", "tut_story3received", "tut_story4received",
    "tut_story1responded", "tut_story2responded", "tut_story3responded", "tut_story4responded",
    "tut_completed"}

  /** The hint that follows the opener. */
  function Hint(status: string): Reply {
    if status == "start_welcomed" then StartOrBeginTutorial
    else if status == "none" then NewHere
    else if status == "tut_started" then RequestFirstStory
    else if status == "tut_story1received" then AnswerFirstStory
    else if status == "tut_story2received" || status == "tut_story3received" then AnswerLatestStory
    else if status == "tut_story4received" then AnswerLastStory
    else if status == "tut_completed" then TutorialOver
    else FastTyper
  }

  /** What `textresponse_chooser` sends: the opener and a hint in the statuses it
      knows, an invitation to introduce oneself in `awaiting_intro`, nothing in
      any other status. */
  function TextReplies(status: string, partner: Option<string>): (r: seq<Reply>)
    ensures |r| <= 2
    ensures r == [] <==> status !in Hinted && status != "awaiting_intro"
    ensures status in Hinted ==> r == [CannotChat, Hint(status)]
    ensures status == "awaiting_intro" ==> r == [IntroduceYourself(partner)]
  {
    if status in Hinted then [CannotChat, Hint(status)]
    else if status == "awaiting_intro" then [IntroduceYourself(partner)]
    else []
  }

  /** Statuses at the same point of the tutorial get the same hint: any of the
      four `responded` statuses is told it types fast, and the second and third
      unanswered stories share their reminder. */
  lemma HintsByStage(partner: Option<string>)
    ensures TextReplies("tut_story1responded", partner) == [CannotChat, FastTyper]
    ensures TextReplies("tut_story2responded", partner) == [CannotChat, FastTyper]
    ensures TextReplies("tut_story3responded", partner) == [CannotChat, FastTyper]
    ensures TextReplies("tut_story4responded", partner) == [CannotChat, FastTyper]
    ensures TextReplies("tut_story2received", partner) == TextReplies("tut_story3received", partner)
    ensures TextReplies("tut_story1received", partner) != TextReplies("tut_story2received", partner)
  {
  }

  /** The session after `textresponse_chooser`. */
  function AfterText(s: Session): (t: Session)
    ensures t.status != s.status ==> s.status == "awaiting_intro" && t.status == "intro_received"
    ensures s.status == "awaiting_intro" ==> t.status == "intro_received"
    ensures t.(status := s.status) == s
  {
    if s.status == "awaiting_intro" then s.(status := "intro_received") else s
  }

  // ---------------------------------------------------------------------------
  // Voice notes (get_voicenote) and tutorial stories (send_tutstory)
  // ---------------------------------------------------------------------------

  /** The status `get_voicenote` assigns, or None when it only logs that it does
      not know what to do with a voice note in this status. */
  function VoiceStatus(status: string): (r: Option<string>)
    ensures status == "awaiting_story_response" ==> r == Some("story_response_received")
    ensures status == "awaiting_intro" ==> r == Some("intro_received")
    ensures r.None? <==>
      !(StartsWith(status, "tut_story") && Contains(status, "received"))
      && status != "awaiting_story_response" && status != "awaiting_intro"
  {
    assert "awaiting_story_response"[..9][0] != "tut_story"[0];
    assert "awaiting_intro"[..9][0] != "tut_story"[0];
    if StartsWith(status, "tut_story") && Contains(status, "received") then
      Some(ReplaceAll(status, "received", "responded"))
    else if status == "awaiting_story_response" then Some("story_response_received")
    else if status == "awaiting_intro" then Some("intro_received")
    else None
  }

  /** A voice note answers the tutorial story the chat was waiting on:
      `tut_story{d}received` becomes `tut_story{d}responded`. */
  lemma VoiceAnswersStory(d: char)
    requires IsDigit(d)
    ensures VoiceStatus(Chat.ReceivedStatus(d)) == Some("tut_story" + [d] + "responded")
  {
    var p, q := "tut_story" + [d], "received";
    var st := Chat.ReceivedStatus(d);
    assert st == p + q;
    assert st[..9] == "tut_story";
    assert st[10..] == q;
    ContainsAt(st, q, 10);
    forall i | 0 <= i < |p| ensures !StartsWith((p + q)[i..], q) {
      assert (p + q)[i..][0] == (p + q)[i];
      assert (p + q)[i..][1] == (p + q)[i + 1];
    }
    ReplaceAllSkips(p, q, q, "responded");
    ReplaceAllWhole(q, "responded");
  }

  /** The session after a voice note's status change. */
  function Answered(s: Session): (t: Session)
    ensures t.(status := s.status) == s
    ensures VoiceStatus(s.status).Some? ==> t.status == VoiceStatus(s.status).value
    ensures VoiceStatus(s.status).None? ==> t == s
  {
    match VoiceStatus(s.status)
    case Some(v) => s.(status := v)
    case None => s
  }

  /** The ordinal of the story a delivering status asks for. */
  function Ordinal(status: string): nat {
    if status == "tut_started" then 1
    else if status == "tut_story1responded" then 2
    else if status == "tut_story2responded" then 3
    else 4
  }

  /** The messages of one `send_tutstory` call in `status`. */
  function TutorialMessages(status: string, step: Chat.TutorialStep): (r: seq<Reply>)
    ensures step.Deliver? || step.NoDigit? ==> r == [StoryIntro(Ordinal(status)), StoryQuestions(status == "tut_started")]
    ensures step.AlreadyLogged? || step.Popped? ==> r == []
  {
    match step
    case RefuseUnanswered => [AnswerBeforeNext]
    case RefuseNotStarted => [ReadInstructionsFirst]
    case Exhausted => [StoriesExhausted]
    case AlreadyLogged(_) => []
    case Popped(_) => []
    case Deliver(_, _) => [StoryIntro(Ordinal(status)), StoryQuestions(Ordinal(status) == 1)]
    case NoDigit(_) => [StoryIntro(Ordinal(status)), StoryQuestions(Ordinal(status) == 1)]
  }

  /** The session after a `send_tutstory` step: the same decision and the same
      files recorded as sent as in chat.py. */
  function AfterTutorial(s: Session, step: Chat.TutorialStep): (t: Session)
    ensures t.sent == s.sent + Chat.SentBy(step)
    ensures t.subdir == s.subdir && t.pairedUser == s.pairedUser
    ensures step.Exhausted? ==> t.status == "tut_completed"
    ensures step.Deliver? ==> t.status == step.next
    ensures !step.Exhausted? && !step.Deliver? ==> t.status == s.status
  {
    var s' := s.(sent := s.sent + Chat.SentBy(step));
    match step
    case Exhausted => s'.(status := "tut_completed")
    case Deliver(_, next) => s'.(status := next)
    case _ => s'
  }

  /** The log lines of a `send_tutstory` step: the setter runs for an exhausted
      queue and for a delivered story. */
  function TutorialLog(paired: bool, status: string, step: Chat.TutorialStep): seq<Chat.LogLine> {
    match step
    case Exhausted => Logged(paired, status, "tut_completed")
    case Deliver(_, next) => Logged(paired, status, next)
    case _ => []
  }

  /** `get_voicenote` followed by its `send_tutstory`: the status change, then
      the story step taken from the changed status. */
  function AfterVoice(s: Session, queue: seq<string>, logged: set<string>): Session {
    var a := Answered(s);
    AfterTutorial(a, Chat.TutorialDecision(a.status, queue, logged))
  }

  /** Answering one of the first three stories moves the chat straight on: the
      same voice note's `send_tutstory` delivers the next story in the queue. */
  lemma AnswerFetchesNext(s: Session, d: char, queue: seq<string>, logged: set<string>)
    requires d in "123" && s.status == Chat.ReceivedStatus(d)
    requires queue != [] && queue[0] !in logged && FirstDigit(queue[0]).Some?
    ensures var t := AfterVoice(s, queue, logged);
      t.status == Chat.ReceivedStatus(FirstDigit(queue[0]).value)
      && t.sent == s.sent + [queue[0], Chat.StoryPath(queue[0])]
  {
    VoiceAnswersStory(d);
    RespondedAdvances(d);
    AdvancingDelivers(Answered(s), queue, logged);
  }

  lemma RespondedAdvances(d: char)
    requires d in "123"
    ensures "tut_story" + [d] + "responded" in Chat.Advancing
    ensures "tut_story" + [d] + "responded" !in Chat.Unanswered + Chat.NotStarted
  {
    if d == '1' {
      assert "tut_story" + [d] + "responded" == "tut_story1responded";
    } else if d == '2' {
      assert "tut_story" + [d] + "responded" == "tut_story2responded";
    } else {
      assert "tut_story" + [d] + "responded" == "tut_story3responded";
    }
  }

  /** From an advancing status, a fresh story at the head of the queue is sent
      and its digit names the new status. */
  lemma AdvancingDelivers(a: Session, queue: seq<string>, logged: set<string>)
    requires a.status in Chat.Advancing && a.status !in Chat.Unanswered + Chat.NotStarted
    requires queue != [] && queue[0] !in logged && FirstDigit(queue[0]).Some?
    ensures var t := AfterTutorial(a, Chat.TutorialDecision(a.status, queue, logged));
      t.status == Chat.ReceivedStatus(FirstDigit(queue[0]).value)
      && t.sent == a.sent + [queue[0], Chat.StoryPath(queue[0])]
  {
  }

  /** Answering the fourth story leaves the chat in a status that does not
      advance: with the queue empty the tutorial is completed, otherwise the
      head of the queue is taken without being sent. */
  lemma FourthAnswerEnds(s: Session, queue: seq<string>, logged: set<string>)
    requires s.status == Chat.ReceivedStatus('4')
    ensures queue == [] ==> AfterVoice(s, queue, logged).status == "tut_completed"
    ensures queue != [] && queue[0] !in logged ==>
      AfterVoice(s, queue, logged) == s.(status := "tut_story4responded", sent := s.sent + [queue[0]])
  {
    VoiceAnswersStory('4');
    var a := Answered(s);
    assert a.status == "tut_story4responded";
    assert a.status !in Chat.Advancing;
    assert a.status !in Chat.Unanswered + Chat.NotStarted;
  }

  /** An introduction voice note also runs `send_tutstory`: the chat is not in a
      refusing status, so a story is taken off the shared queue (and recorded as
      sent to this chat) although none is sent. */
  lemma IntroTakesStory(s: Session, queue: seq<string>, logged: set<string>)
    requires s.status == "awaiting_intro" && queue != [] && queue[0] !in logged
    ensures Chat.TutorialDecision("intro_received", queue, logged) == Chat.Popped(queue[0])
    ensures AfterVoice(s, queue, logged) == s.(status := "intro_received", sent := s.sent + [queue[0]])
  {
    assert "intro_received" !in Chat.Unanswered + Chat.NotStarted + Chat.Advancing;
  }

  // ---------------------------------------------------------------------------
  // chunk_msg
  // ---------------------------------------------------------------------------

  /** The most characters one Telegram message may hold. */
  const MaxMessage := 4096

  /** The words each followed by one space, in order. */
  function Spaced(ws: seq<string>): string {
    if ws == [] then "" else Spaced(ws[..|ws| - 1]) + ws[|ws| - 1] + " "
  }

  /** The chunks glued back together. */
  function Flatten(cs: seq<string>): string {
    if cs == [] then "" else Flatten(cs[..|cs| - 1]) + cs[|cs| - 1]
  }

  /** One turn of the chunking loop on `word`: close the current chunk when the
      word would take it past the limit, then append the word and a space. The
      code as written closes the chunk even when it is empty; `fixed` adds the
      evidently intended `current_chunk != ""` to that test. */
  function ChunkTurn(cs: seq<string>, cur: string, word: string, fixed: bool): (seq<string>, string) {
    if |cur + word| > MaxMessage && (!fixed || cur != "") then (cs + [cur], "" + word + " ")
    else (cs, cur + word + " ")
  }

  /** The loop's `chunks` and `current_chunk` after the words `ws`. */
  function ChunkState(ws: seq<string>, fixed: bool): (seq<string>, string) {
    if ws == [] then ([], "")
    else
      var st := ChunkState(ws[..|ws| - 1], fixed);
      ChunkTurn(st.0, st.1, ws[|ws| - 1], fixed)
  }

  /** The chunks returned: the closed ones and a non-empty last one. */
  function Chunks(ws: seq<string>, fixed: bool): seq<string> {
    var st := ChunkState(ws, fixed);
    if st.1 != "" then st.0 + [st.1] else st.0
  }

  /** A chunk is within one character of the limit, or holds a single word. */
  predicate Bounded(c: string, ws: seq<string>) {
    |c| <= MaxMessage + 1 || exists j :: 0 <= j < |ws| && c == ws[j] + " "
  }

  /** Chunk `k` was closed because the word that opens chunk `k + 1` did not fit. */
  predicate Closed(c: string, next: string, ws: seq<string>) {
    exists j :: 0 <= j < |ws| && StartsWith(next, ws[j] + " ") && |c| + |ws[j]| > MaxMessage
  }

  /** What the loop keeps true: the text so far is every word followed by a
      space, every chunk is bounded, every closed chunk was closed for the next
      word, and the current chunk is empty only before the first word. */
  predicate ChunkInvariant(ws: seq<string>, cs: seq<string>, cur: string) {
    && Flatten(cs) + cur == Spaced(ws)
    && (forall k :: 0 <= k < |cs| ==> Bounded(cs[k], ws))
    && Bounded(cur, ws)
    && (forall k :: 0 <= k < |cs| ==> Closed(cs[k], (cs + [cur])[k + 1], ws))
    && (cur == "" <==> ws == [])
  }

  lemma BoundedGrows(c: string, ws: seq<string>, w: string)
    requires Bounded(c, ws)
    ensures Bounded(c, ws + [w])
  {
    if |c| > MaxMessage + 1 {
      var j :| 0 <= j < |ws| && c == ws[j] + " ";
      assert (ws + [w])[j] == ws[j];
    }
  }

  lemma ClosedGrows(c: string, next: string, ws: seq<string>, w: string, more: string)
    requires Closed(c, next, ws)
    ensures Closed(c, next + more, ws + [w])
  {
    var j :| 0 <= j < |ws| && StartsWith(next, ws[j] + " ") && |c| + |ws[j]| > MaxMessage;
    assert (ws + [w])[j] == ws[j];
    assert (next + more)[..|ws[j] + " "|] == next[..|ws[j] + " "|];
  }

  /** One turn of the loop keeps the invariant. */
  lemma {:induction false} ChunkTurnKeeps(ws: seq<string>, cs: seq<string>, cur: string, w: string, fixed: bool)
    requires ChunkInvariant(ws, cs, cur)
    ensures var st := ChunkTurn(cs, cur, w, fixed); ChunkInvariant(ws + [w], st.0, st.1)
  {
    if |cur + w| > MaxMessage && (!fixed || cur != "") {
      CloseKeeps(ws, cs, cur, w);
      assert "" + w + " " == w + " ";
    } else {
      ExtendKeeps(ws, cs, cur, w);
    }
  }

  lemma SpacedSnoc(ws: seq<string>, w: string)
    ensures Spaced(ws + [w]) == Spaced(ws) + w + " "
  {
    assert (ws + [w])[..|ws|] == ws;
  }

  lemma AllBoundedGrows(cs: seq<string>, cur: string, ws: seq<string>, w: string)
    requires forall k :: 0 <= k < |cs| ==> Bounded(cs[k], ws)
    requires Bounded(cur, ws)
    ensures forall k :: 0 <= k < |cs| ==> Bounded(cs[k], ws + [w])
    ensures Bounded(cur, ws + [w])
  {
    forall k | 0 <= k < |cs| ensures Bounded(cs[k], ws + [w]) {
      BoundedGrows(cs[k], ws, w);
    }
    BoundedGrows(cur, ws, w);
  }

  /** The turn that closes the current chunk and opens one with the word. */
  lemma CloseKeeps(ws: seq<string>, cs: seq<string>, cur: string, w: string)
    requires ChunkInvariant(ws, cs, cur) && |cur + w| > MaxMessage
    ensures ChunkInvariant(ws + [w], cs + [cur], w + " ")
  {
    var ws' := ws + [w];
    var cs' := cs + [cur];
    SpacedSnoc(ws, w);
    assert ws'[|ws|] == w;
    AllBoundedGrows(cs, cur, ws, w);
    assert cs'[..|cs'| - 1] == cs;
    assert Flatten(cs') == Flatten(cs) + cur;
    assert Bounded(w + " ", ws');
    forall k | 0 <= k < |cs'| ensures Closed(cs'[k], (cs' + [w + " "])[k + 1], ws') {
      if k < |cs| {
        assert (cs' + [w + " "])[k + 1] == (cs + [cur])[k + 1];
        ClosedGrows(cs[k], (cs + [cur])[k + 1], ws, w, "");
        assert (cs + [cur])[k + 1] + "" == (cs + [cur])[k + 1];
      } else {
        assert (cs' + [w + " "])[k + 1] == w + " ";
        assert StartsWith(w + " ", ws'[|ws|] + " ");
      }
    }
  }

  /** The turn that appends the word to the current chunk. */
  lemma ExtendKeeps(ws: seq<string>, cs: seq<string>, cur: string, w: string)
    requires ChunkInvariant(ws, cs, cur) && (|cur + w| > MaxMessage ==> cur == "")
    ensures ChunkInvariant(ws + [w], cs, cur + w + " ")
  {
    var ws' := ws + [w];
    SpacedSnoc(ws, w);
    assert ws'[|ws|] == w;
    AllBoundedGrows(cs, cur, ws, w);
    assert Flatten(cs) + (cur + w + " ") == Flatten(cs) + cur + w + " ";
    if |cur + w| > MaxMessage {
      assert cur + w + " " == ws'[|ws|] + " ";
    }
    assert Bounded(cur + w + " ", ws');
    forall k | 0 <= k < |cs| ensures Closed(cs[k], (cs + [cur + w + " "])[k + 1], ws') {
      if k + 1 < |cs| {
        assert (cs + [cur + w + " "])[k + 1] == (cs + [cur])[k + 1];
        ClosedGrows(cs[k], (cs + [cur])[k + 1], ws, w, "");
        assert (cs + [cur])[k + 1] + "" == (cs + [cur])[k + 1];
      } else {
        assert (cs + [cur])[k + 1] == cur;
        ClosedGrows(cs[k], cur, ws, w, w + " ");
        assert cur + (w + " ") == cur + w + " ";
      }
    }
  }

  /** The loop state after any list of words satisfies the invariant. */
  lemma {:induction false} ChunkStateInvariant(ws: seq<string>, fixed: bool)
    ensures var st := ChunkState(ws, fixed); ChunkInvariant(ws, st.0, st.1)
  {
    if ws != [] {
      var init := ws[..|ws| - 1];
      ChunkStateInvariant(init, fixed);
      var st := ChunkState(init, fixed);
      ChunkTurnKeeps(init, st.0, st.1, ws[|ws| - 1], fixed);
      assert init + [ws[|ws| - 1]] == ws;
    }
  }

  /** The chunks, glued back together, are every word followed by one space, in
      order; each is within one character of the limit unless it is a single
      over-long word; each was closed only because the next word did not fit;
      and the last one is never empty. */
  lemma ChunksCorrect(ws: seq<string>, fixed: bool)
    ensures var cs := Chunks(ws, fixed);
      && Flatten(cs) == Spaced(ws)
      && (forall k :: 0 <= k < |cs| ==> Bounded(cs[k], ws))
      && (forall k :: 0 <= k < |cs| - 1 ==> Closed(cs[k], cs[k + 1], ws))
      && (cs == [] <==> ws == [])
      && (cs != [] ==> cs[|cs| - 1] != "")
  {
    ChunkStateInvariant(ws, fixed);
    var st := ChunkState(ws, fixed);
    var cs := Chunks(ws, fixed);
    if st.1 != "" {
      assert cs == st.0 + [st.1];
      assert cs[..|cs| - 1] == st.0;
      assert Flatten(cs) == Flatten(st.0) + st.1;
    } else {
      assert ws == [] && st.0 == [];
    }
  }

  /** As written, a first word longer than the limit closes the empty current
      chunk: a one-word message of 4097 characters comes back as an empty chunk
      followed by the word. */
  lemma LongFirstWordEmptyChunk(w: string)
    requires |w| > MaxMessage
    ensures Chunks([w], false) == ["", w + " "]
  {
    assert [w][..0] == [];
    assert ChunkState([], false) == ([], "");
    assert |"" + w| > MaxMessage;
    assert ChunkTurn([], "", w, false) == ([] + [""], "" + w + " ");
    assert [] + [""] == [""];
    assert "" + w + " " == w + " ";
  }

  /** With the corrected test no chunk is ever empty. */
  lemma {:induction false} FixedChunksNonEmpty(ws: seq<string>)
    ensures forall k :: 0 <= k < |Chunks(ws, true)| ==> Chunks(ws, true)[k] != ""
  {
    FixedClosedNonEmpty(ws);
  }

  lemma {:induction false} FixedClosedNonEmpty(ws: seq<string>)
    ensures forall k :: 0 <= k < |ChunkState(ws, true).0| ==> ChunkState(ws, true).0[k] != ""
  {
    if ws != [] {
      FixedClosedNonEmpty(ws[..|ws| - 1]);
    }
  }

  /** `chunk_msg` as written: the words of `msg.split(" ")`, each followed by a
      space, packed into chunks. */
  method ChunkMsg(msg: string) returns (chunks: seq<string>)
    ensures chunks == Chunks(Split(msg), false)
    ensures Flatten(chunks) == Spaced(Split(msg))
  {
    var words := Split(msg);
    chunks := [];
    var current := "";
    var i := 0;
    while i < |words|
      invariant 0 <= i <= |words|
      invariant (chunks, current) == ChunkState(words[..i], false)
    {
      var word := words[i];
      assert words[..i + 1][..i] == words[..i];
      if |current + word| > MaxMessage {
        chunks := chunks + [current];
        current := "";
      }
      current := current + word + " ";
      i := i + 1;
    }
    assert words[..i] == words;
    if current != "" {
      chunks := chunks + [current];
    }
    ChunksCorrect(words, false);
  }

  /** `chunk_msg` with the corrected test: never sends an empty chunk. */
  method ChunkMsgFixed(msg: string) returns (chunks: seq<string>)
    ensures chunks == Chunks(Split(msg), true)
    ensures Flatten(chunks) == Spaced(Split(msg))
    ensures forall k :: 0 <= k < |chunks| ==> chunks[k] != ""
  {
    var words := Split(msg);
    chunks := [];
    var current := "";
    var i := 0;
    while i < |words|
      invariant 0 <= i <= |words|
      invariant (chunks, current) == ChunkState(words[..i], true)
    {
      var word := words[i];
      assert words[..i + 1][..i] == words[..i];
      if current != "" && |current + word| > MaxMessage {
        chunks := chunks + [current];
        current := "";
      }
      current := current + word + " ";
      i := i + 1;
    }
    assert words[..i] == words;
    if current != "" {
      chunks := chunks + [current];
    }
    ChunksCorrect(words, true);
    FixedChunksNonEmpty(words);
  }

  // ---------------------------------------------------------------------------
  // The session object
  // ---------------------------------------------------------------------------

  class ChatHandler {
    const chatId: int
    const chatType: string
    const name: Option<string>
    var status: string
    var subdir: string
    var sent: seq<string>
    var pairedUser: Option<string>
    /** The status lines written to the chat's log file. */
    var log: seq<Chat.LogLine>
    /** The messages handed to the transport, in order. */
    var outbox: seq<Reply>

    function State(): Session
      reads this
    {
      Session(status, subdir, sent, pairedUser)
    }

    predicate Paired()
      reads this
    {
      State().Paired()
    }

    /** `ChatHandler.__init__` for an update that carries a message. */
    constructor(chatId: int, chatType: string, username: Option<string>, title: Option<string>, pairs: map<string, string>)
      ensures this.chatId == chatId && this.chatType == chatType
      ensures name == Chat.SessionName(chatType, username, title)
      ensures State() == NewSession(name, pairs) && log == [] && outbox == []
    {
      this.chatId := chatId;
      this.chatType := chatType;
      name := Chat.SessionName(chatType, username, title);
      sent := [];
      status := "none";
      subdir := "tutorialresponses";
      pairedUser := None;
      log := [];
      outbox := [];
      new;
      SetPairedUser(pairs);
    }

    /** `set_paired_user`: the partner's name under this session's name. */
    method SetPairedUser(pairs: map<string, string>)
      modifies this
      ensures State() == old(State()).(pairedUser := NewSession(name, pairs).pairedUser)
      ensures log == old(log) && outbox == old(outbox)
    {
      pairedUser := if name.Some? then Chat.Get(pairs, name.value) else None;
    }

    /** `log`: writes a line only for a paired chat. */
    method Log(line: Chat.LogLine)
      modifies this
      ensures log == old(log) + (if Paired() then [line] else [])
      ensures State() == old(State()) && outbox == old(outbox)
    {
      if Paired() {
        log := log + [line];
      }
    }

    /** `send_msg`: hands the message on only for a paired chat. */
    method SendMsg(m: Reply)
      modifies this
      ensures outbox == old(outbox) + Delivered(Paired(), [m])
      ensures State() == old(State()) && log == old(log)
    {
      if Paired() {
        outbox := outbox + [m];
      }
    }

    /** The `status` setter: logs the assignment, whatever the old value, and
        stores the new one. */
    method SetStatus(value: string)
      modifies this
      ensures State() == old(State()).(status := value)
      ensures log == old(log) + Logged(Paired(), old(status), value)
      ensures outbox == old(outbox)
    {
      Log(Chat.StatusChanged(status, value));
      status := value;
    }

    /** `send_vn`: records the file as sent (the database row and the transport
        call are not modelled). */
    method SendVn(vn: string)
      modifies this
      ensures State() == old(State()).(sent := old(sent) + [vn])
      ensures log == old(log) && outbox == old(outbox)
    {
      sent := sent + [vn];
    }

    /** `start_pairing`: tells the chat its partner and awaits the introduction. */
    method StartPairing()
      modifies this
      ensures State() == old(State()).(status := "awaiting_intro")
      ensures log == old(log) + Logged(Paired(), old(status), "awaiting_intro")
      ensures outbox == old(outbox) + Delivered(Paired(), [PairedWith(pairedUser)])
    {
      SendMsg(PairedWith(pairedUser));
      SetStatus("awaiting_intro");
    }

    /** `send_endtutorial`: thanks the chat, marks the tutorial ended and starts
        the pairing. */
    method SendEndtutorial()
      modifies this
      ensures State() == old(State()).(status := "awaiting_intro")
      ensures log == old(log) + Logged(Paired(), old(status), "tut_ended") + Logged(Paired(), "tut_ended", "awaiting_intro")
      ensures outbox == old(outbox) + Delivered(Paired(), [TutorialThanks, PairedWith(pairedUser)])
    {
      SendMsg(TutorialThanks);
      SetStatus("tut_ended");
      StartPairing();
    }

    /** The `/endtutorial` command on this session: recordings go under `story`
        from now on, and the status passes through `tut_complete` and
        `tut_ended` to `awaiting_intro`, each step logged. */
    method Endtutorial()
      modifies this
      ensures State() == old(State()).(status := "awaiting_intro", subdir := "story")
      ensures log == old(log) + Logged(Paired(), old(status), "tut_complete")
                              + Logged(Paired(), "tut_complete", "tut_ended")
                              + Logged(Paired(), "tut_ended", "awaiting_intro")
      ensures outbox == old(outbox) + Delivered(Paired(), [TutorialThanks, PairedWith(pairedUser)])
    {
      SetStatus("tut_complete");
      subdir := "story";
      SendEndtutorial();
    }

    /** `textresponse_chooser`. */
    method TextResponseChooser()
      modifies this
      ensures State() == AfterText(old(State()))
      ensures log == old(log) + (if old(status) == "awaiting_intro" then Logged(Paired(), old(status), "intro_received") else [])
      ensures outbox == old(outbox) + Delivered(Paired(), TextReplies(old(status), pairedUser))
    {
      if status in Hinted {
        SendMsg(CannotChat);
        SendMsg(Hint(status));
      } else if status == "awaiting_intro" {
        SendMsg(IntroduceYourself(pairedUser));
        SetStatus("intro_received");
      }
    }

    /** The `echo` handler for a text message on this session: a group is told
        the bot is for individual chats (and left); a private chat gets
        `textresponse_chooser`. */
    method Echo()
      modifies this
      ensures Contains(chatType, "group") ==>
        State() == old(State()) && log == old(log) && outbox == old(outbox) + Delivered(Paired(), [GroupsUnsupported])
      ensures !Contains(chatType, "group") ==> State() == AfterText(old(State()))
      ensures !Contains(chatType, "group") ==> outbox == old(outbox) + Delivered(Paired(), TextReplies(old(status), pairedUser))
      ensures !Contains(chatType, "group") ==>
        log == old(log) + (if old(status) == "awaiting_intro" then Logged(Paired(), old(status), "intro_received") else [])
    {
      if Contains(chatType, "group") {
        SendMsg(GroupsUnsupported);
        return;
      }
      TextResponseChooser();
    }

    /** `send_tutstory`: the decision of chat.py, with every message the step
        sends and the always-logging setter. */
    method SendTutstory(queue: Chat.StoryQueue, logged: set<string>) returns (step: Chat.TutorialStep)
      modifies this, queue
      ensures step == Chat.TutorialDecision(old(status), old(queue.files), logged)
      ensures queue.files == if step.Pops() then old(queue.files)[1..] else old(queue.files)
      ensures State() == AfterTutorial(old(State()), step)
      ensures log == old(log) + TutorialLog(Paired(), old(status), step)
      ensures outbox == old(outbox) + Delivered(Paired(), TutorialMessages(old(status), step))
    {
      if status in Chat.Unanswered {
        SendMsg(AnswerBeforeNext);
        return Chat.RefuseUnanswered;
      } else if status in Chat.NotStarted {
        SendMsg(ReadInstructionsFirst);
        return Chat.RefuseNotStarted;
      }
      var popped := queue.Pop();
      if popped.None? {
        SendMsg(StoriesExhausted);
        SetStatus("tut_completed");
        return Chat.Exhausted;
      }
      step := SendStory(popped.value, logged);
    }

    /** The part of `send_tutstory` after a story has been popped. */
    method SendStory(story: string, logged: set<string>) returns (step: Chat.TutorialStep)
      requires status !in Chat.Unanswered + Chat.NotStarted
      modifies this
      ensures step == Chat.TutorialDecision(old(status), [story], logged)
      ensures State() == AfterTutorial(old(State()), step)
      ensures log == old(log) + TutorialLog(Paired(), old(status), step)
      ensures outbox == old(outbox) + Delivered(Paired(), TutorialMessages(old(status), step))
    {
      if story in logged {
        return Chat.AlreadyLogged(story);
      }
      sent := sent + [story];
      if status !in Chat.Advancing {
        return Chat.Popped(story);
      }
      var ordinal := Ordinal(status);
      SendMsg(StoryIntro(ordinal));
      SendVn(Chat.StoryPath(story));
      SendMsg(StoryQuestions(ordinal == 1));
      var d := FirstDigit(story);
      if d.None? {
        return Chat.NoDigit(story);
      }
      SetStatus(Chat.ReceivedStatus(d.value));
      step := Chat.Deliver(story, Chat.ReceivedStatus(d.value));
    }

    /** The `get_voicenote` handler on this session: the status change for the
        voice note, a thank-you, then `send_tutstory` (the download and the
        transcription are not modelled). The thank-you reads `first_name`, which
        only a private chat has: in any other chat the handler raises there, after
        the status change, and `step` is None. */
    method GetVoicenote(queue: Chat.StoryQueue, logged: set<string>) returns (step: Option<Chat.TutorialStep>)
      modifies this, queue
      ensures step.None? <==> chatType != "private"
      ensures log == old(log)
        + (if VoiceStatus(old(status)).Some? then Logged(Paired(), old(status), VoiceStatus(old(status)).value) else [])
        + (if step.Some? then TutorialLog(Paired(), Answered(old(State())).status, step.value) else [])
      ensures step.None? ==>
        State() == Answered(old(State())) && queue.files == old(queue.files) && outbox == old(outbox)
      ensures step.Some? ==>
        && step.value == Chat.TutorialDecision(Answered(old(State())).status, old(queue.files), logged)
        && queue.files == (if step.value.Pops() then old(queue.files)[1..] else old(queue.files))
        && State() == AfterVoice(old(State()), old(queue.files), logged)
        && outbox == old(outbox)
             + Delivered(Paired(), [ThanksForRecording] + TutorialMessages(Answered(old(State())).status, step.value))
    {
      var v := VoiceStatus(status);
      if v.Some? {
        SetStatus(v.value);
      }
      if chatType != "private" {
        return None;
      }
      SendMsg(ThanksForRecording);
      var s := SendTutstory(queue, logged);
      step := Some(s);
    }

    /** The `/starttutorial` command on this session. */
    method Starttutorial()
      modifies this
      ensures State() == old(State()).(status := "tut_started")
      ensures log == old(log) + Logged(Paired(), old(status), "tut_started")
      ensures outbox == old(outbox) + Delivered(Paired(), [TutorialInstructions])
    {
      SetStatus("tut_started");
      SendMsg(TutorialInstructions);
    }

    /** The `/start` command on this session: an unpaired chat is told its
        username is unknown (directly, past `send_msg`'s guard) and nothing
        changes; a paired group is left with status `left_group`; a paired private
        chat is welcomed and ends in `start_welcomed`. */
    method Start()
      modifies this
      ensures !old(Paired()) ==> State() == old(State()) && log == old(log) && outbox == old(outbox) + [UnknownUsername]
      ensures old(Paired()) && Contains(chatType, "group") ==>
        State() == old(State()).(status := "left_group") && outbox == old(outbox)
        && log == old(log) + Logged(true, old(status), "left_group")
      ensures old(Paired()) && !Contains(chatType, "group") ==>
        State() == old(State()).(status := "start_welcomed")
        && outbox == old(outbox) + [Welcome, TutorialSpace, WatchVideoFirst]
        && log == old(log) + Logged(true, old(status), "start_welcomed")
    {
      if !Paired() {
        outbox := outbox + [UnknownUsername];
        return;
      }
      if Contains(chatType, "group") {
        SetStatus("left_group");
        return;
      }
      SendMsg(Welcome);
      SendMsg(TutorialSpace);
      SendMsg(WatchVideoFirst);
      SetStatus("start_welcomed");
    }
  }

  // ---------------------------------------------------------------------------
  // The registry of sessions and the handlers that use it
  // ---------------------------------------------------------------------------

  /** The module globals `chat_handlers` and `user_pairs`, with the queue of
      tutorial stories that `send_tutstory` pops. */
  class Bot {
    var handlers: map<int, ChatHandler>
    const pairs: map<string, string>
    const queue: Chat.StoryQueue

    ghost predicate Valid()
      reads this, handlers.Values
    {
      forall k :: k in handlers ==> handlers[k].chatId == k
    }

    constructor(pairs: map<string, string>, files: seq<string>)
      ensures Valid() && handlers == map[] && this.pairs == pairs
      ensures fresh(queue) && queue.files == files
    {
      handlers := map[];
      this.pairs := pairs;
      queue := new Chat.StoryQueue(files);
    }

    /** Only the handler of `chatId` may have changed: the map has gained at most
        that key, and every other handler is the same object with the same fields
        (session, log and messages). */
    twostate predicate UnchangedBut(chatId: int)
      reads this, handlers.Values
    {
      && handlers.Keys == old(handlers).Keys + {chatId}
      && forall k :: k in old(handlers) && k != chatId ==> k in handlers && handlers[k] == old(handlers)[k] && unchanged(handlers[k])
    }

    /** The session an update from `chatId` is handled on, as a value: the
        registered one, or the one `initialize_chat_handler` would create. */
    ghost function Prior(chatId: int, chatType: string, username: Option<string>, title: Option<string>): Session
      reads this, handlers.Values
    {
      if chatId in handlers then handlers[chatId].State()
      else NewSession(Chat.SessionName(chatType, username, title), pairs)
    }

    /** `initialize_chat_handler`: one handler per chat id, created on the first
        update and returned unchanged on every later one. */
    method InitializeChatHandler(chatId: int, chatType: string, username: Option<string>, title: Option<string>)
      returns (c: ChatHandler)
      requires Valid()
      modifies this
      ensures Valid() && chatId in handlers && c == handlers[chatId]
      ensures chatId in old(handlers) ==> handlers == old(handlers) && c == old(handlers[chatId])
      ensures chatId !in old(handlers) ==> fresh(c) && handlers == old(handlers)[chatId := c]
      ensures c.State() == old(Prior(chatId, chatType, username, title))
      ensures chatId !in old(handlers) ==> c.log == [] && c.outbox == []
    {
      if chatId !in handlers {
        var created := new ChatHandler(chatId, chatType, username, title, pairs);
        handlers := handlers[chatId := created];
      }
      c := handlers[chatId];
    }

    /** `echo`. */
    method Echo(chatId: int, chatType: string, username: Option<string>, title: Option<string>) returns (c: ChatHandler)
      requires Valid()
      modifies this, handlers.Values
      ensures Valid() && chatId in handlers && c == handlers[chatId]
      ensures UnchangedBut(chatId)
      ensures Contains(c.chatType, "group") ==> c.State() == old(Prior(chatId, chatType, username, title))
      ensures !Contains(c.chatType, "group") ==> c.State() == AfterText(old(Prior(chatId, chatType, username, title)))
    {
      c := InitializeChatHandler(chatId, chatType, username, title);
      c.Echo();
    }

    /** `get_voicenote`. */
    method GetVoicenote(chatId: int, chatType: string, username: Option<string>, title: Option<string>, logged: set<string>)
      returns (c: ChatHandler, step: Option<Chat.TutorialStep>)
      requires Valid()
      modifies this, handlers.Values, queue
      ensures Valid() && chatId in handlers && c == handlers[chatId]
      ensures UnchangedBut(chatId)
      ensures step.None? <==> c.chatType != "private"
      ensures step.None? ==>
        c.State() == Answered(old(Prior(chatId, chatType, username, title))) && queue.files == old(queue.files)
      ensures step.Some? ==>
        && step.value == Chat.TutorialDecision(Answered(old(Prior(chatId, chatType, username, title))).status, old(queue.files), logged)
        && queue.files == (if step.value.Pops() then old(queue.files)[1..] else old(queue.files))
        && c.State() == AfterVoice(old(Prior(chatId, chatType, username, title)), old(queue.files), logged)
    {
      c := InitializeChatHandler(chatId, chatType, username, title);
      step := c.GetVoicenote(queue, logged);
    }

    /** `gettutorialstory`. */
    method Gettutorialstory(chatId: int, chatType: string, username: Option<string>, title: Option<string>, logged: set<string>)
      returns (c: ChatHandler, step: Chat.TutorialStep)
      requires Valid()
      modifies this, handlers.Values, queue
      ensures Valid() && chatId in handlers && c == handlers[chatId]
      ensures UnchangedBut(chatId)
      ensures step == Chat.TutorialDecision(old(Prior(chatId, chatType, username, title)).status, old(queue.files), logged)
      ensures queue.files == if step.Pops() then old(queue.files)[1..] else old(queue.files)
      ensures c.State() == AfterTutorial(old(Prior(chatId, chatType, username, title)), step)
    {
      c := InitializeChatHandler(chatId, chatType, username, title);
      step := c.SendTutstory(queue, logged);
    }

    /** `endtutorial`. */
    method Endtutorial(chatId: int, chatType: string, username: Option<string>, title: Option<string>) returns (c: ChatHandler)
      requires Valid()
      modifies this, handlers.Values
      ensures Valid() && chatId in handlers && c == handlers[chatId]
      ensures UnchangedBut(chatId)
      ensures c.State() == old(Prior(chatId, chatType, username, title)).(status := "awaiting_intro", subdir := "story")
    {
      c := InitializeChatHandler(chatId, chatType, username, title);
      c.Endtutorial();
    }

    /** `starttutorial`. */
    method Starttutorial(chatId: int, chatType: string, username: Option<string>, title: Option<string>) returns (c: ChatHandler)
      requires Valid()
      modifies this, handlers.Values
      ensures Valid() && chatId in handlers && c == handlers[chatId]
      ensures UnchangedBut(chatId)
      ensures c.State() == old(Prior(chatId, chatType, username, title)).(status := "tut_started")
    {
      c := InitializeChatHandler(chatId, chatType, username, title);
      c.Starttutorial();
    }

    /** `start`. */
    method Start(chatId: int, chatType: string, username: Option<string>, title: Option<string>) returns (c: ChatHandler)
      requires Valid()
      modifies this, handlers.Values
      ensures Valid() && chatId in handlers && c == handlers[chatId]
      ensures UnchangedBut(chatId)
      ensures !old(Prior(chatId, chatType, username, title)).Paired() ==> c.State() == old(Prior(chatId, chatType, username, title))
      ensures old(Prior(chatId, chatType, username, title)).Paired() ==>
        c.State() == old(Prior(chatId, chatType, username, title)).(status := if Contains(c.chatType, "group") then "left_group" else "start_welcomed")
    {
      c := InitializeChatHandler(chatId, chatType, username, title);
      c.Start();
    }
  }
}
