# Wisperbot in Dafny

Wisperbot is a Telegram bot that pairs people up to tell each other stories by
voice note and to answer them with "curious listening". This project models its
core and proves properties about it:

- **chat.py** (`chat.dfy`, module `Chat`). It holds the per-chat session object
  `ChatHandler` and the pairing table loaded from a two-column CSV file
  (`load_user_pairs`). It also holds the `name_to_chat_id` registry and the
  tutorial-story dispenser `send_tutstory`. Its `status` setter is idempotent.
  `ChatHandler` is a class whose methods update its fields in place. `State()`
  gives the session as a `Session` value, and pure functions over `Session` say
  what each method does.
- **echobot.py** (`echo_states.dfy`, `echo_engine.dfy`, `echo_bot.dfy`,
  `echo_properties.dfy`). This is the two-week conversation: fourteen numbered
  states, a handler per state, and partner barriers. At each barrier, the second
  partner to submit a voice note moves both chats on and queues their next batch
  of messages at `START_DATE + k·INTERVAL`.
  - `EchoEngine` states every handler as a transition function over a `World`.
    A `World` holds all sessions, the name registry, `START_DATE` and the queued
    batches.
  - `EchoBot.Bot` runs the same handlers on `Chat.ChatHandler` objects held in
    a map. Each of its methods is proved to reach exactly the world the
    transition function gives.
  - `EchoProperties` proves the properties: re-prompts, barrier waiting and
    meeting, the week rollover, the single shift of `START_DATE`, the /start
    outcomes and the state table. It also proves barrier commutativity for two
    partners who hold each other's chat id (`PairReady`).
  - `EchoPairing` (`echo_pairing.dfy`) shows that the code as written never
    reaches `PairReady`. Of two partners, only the one who sends /start second
    learns the other's chat id, so each barrier's outcome depends on who submits
    first. It also proves that `EchoEngine.StartMutual`, the mutual lookup,
    does reach `PairReady` (see Findings).
- **wisperv2.py** (`wisper.dfy`, module `WisperV2`). This is the earlier
  command-driven bot.
  - Its `ChatHandler` class logs on every `status` assignment.
  - The replies are modelled as a `Reply` datatype, by kind.
  - Also covered: the tutorial steps, the voice-note status changes,
    `/endtutorial`, `/starttutorial`, `/start`, the handler registry, and the
    message chunker `chunk_msg`.
- **wisperbotmain.py** (`wisper_main.dfy`, module `WisperMain`). This is the
  first prototype: the keyword classifier `create_response` and the rule that a
  group message is answered only when it mentions `@wisper_social_bot`.

`strings.dfy` models the few Python `str` operations the code uses. `wrappers.dfy`
holds `Option` and `Result`.

Decisions worth knowing:

- **What the model abstracts.**
  - Dates and `INTERVAL` are whole numbers.
  - The log database is a parameter `logged`: the stories already recorded for
    the chat.
  - The directory listings are parameters: the `.ogg` files, and the sorted
    tutorial files.
  - Messages are modelled by kind, and only status-change log lines are kept.
  - `send_msgs` is not defined in any of these files. A call to it is recorded
    as a `Bundle` (chat, send time, batch).
- **Exceptions.** An exception that escapes a handler is the outcome `Failed`.
  This covers a `KeyError` on a missing partner handler, an `IndexError` on the
  tutorial files and an unknown `STARTING_STATUS`. It also covers the
  `AttributeError` of reading `first_name` for a chat that is not private.
  chat.py:97-102 sets that attribute only for private chats, and every voice-note
  handler reads it (echobot.py:101, 250, 277, 310, 339). A group that
  `STARTING_STATUS` sends straight into the conversation therefore never moves
  on by voice note (`EchoProperties.VoiceWithoutFirstNameStays`). State changed
  before the raise is kept.
- **Where the code and its description disagree, the model follows the code.**
  - `handle_prompt`, `handle_vt` and `handle_ps` return the week-one states even
    in week two.
  - `handle_ps` always sets `awaiting_week1_feedback`.
  - `handle_feedback` sets `week1_complete` in either week.
  - The feedback barrier returns `None` to the first sender, so only the second
    sender's conversation moves to `WEEK2_PROMPT`.
- **Where the code raises as written, the model follows the evident intent.**
  - `chat.log_recv_text` (echobot.py:122, 147, 150, 161, 164) is not a
    `ChatHandler` method. As written, each call raises `AttributeError` after
    the status changes made before it. The model treats it as a log call with
    no effect on the session.
  - `chat.log_recv_vn` (echobot.py:103) is not a `ChatHandler` method either.
    As written it raises `AttributeError` in `get_voicenote`. That handler is
    not modelled (see Left out), but the seven handlers that await it for a
    voice note (echobot.py:173, 187, 209, 249, 276, 308, 338) raise with it.
    So as written no voice note ever moves a conversation on: each of those
    handlers stops at that call, keeping only the status changes made before
    it. The model continues past the call. It still raises at the `first_name`
    read two lines earlier (echobot.py:101) for a chat that is not private.
  - echobot.py:115 calls `set_paired_user(chat_handlers)`, but the method takes
    no argument, so as written the call raises `TypeError` and /start never
    gets past it. The model runs the lookup with no argument.
    `EchoEngine.StartMutual` is the variant in which the partner looks up as
    well, which passing the handler map suggests was intended.
- **wisperbotmain.py does not parse as written.** It has `return:`, `=` where
  `==` is meant, and the undefined `ContextType`, and `.strip` is never called.
  The model follows the evident intent: `chat_type == 'group'` and
  `.strip()` called.
- **chat.py uses names it never defines.** These are `unsent_tutorial_files`,
  `re`, `random`, and `filename`/`event`/`status` in `send_vn`. The model gives
  them their evident meaning: a shared queue of story files, the first-digit
  search, a choice among candidates, and a `send_vn` that records the file as
  sent.

## Model

| member | source | states |
|---|---|---|
| Chat.LoadUserPairs | chat.py:37-52 | the load succeeds exactly when every row holds two names, and then yields the table that reads each row both ways, later rows overwriting earlier ones; a malformed row fails the load |
| Chat.PairsOfKeys | chat.py:44-48 | a name is in the pairing table exactly when some row mentions it |
| Chat.LastRowHolds | chat.py:46-48 | the last row always holds in both directions |
| Chat.PairsOfSymmetric | chat.py:46-48 | with no name in two rows, every row is in the table both ways (the two-way relation the code assumes) |
| Chat.LaterRowOverrides | chat.py:46-48 | a name repeated in a later row breaks the two-way relation: after (a,b),(b,c) the partner of a's partner is not a |
| Chat.StatusLog | chat.py:121-125 | the setter writes a line exactly when the value changes and the chat is paired, and the line records the old and new status |
| Chat.Get | chat.py:113-115 | `dict.get`: a value exactly for a present key, and it is the stored one |
| Chat.ResolvePairing | chat.py:112-115 | the partner name is set exactly when the chat's name is in the table; the partner id exactly when the partner name is registered |
| Chat.NewSession | chat.py:83-110 | a new session has status `none`, nothing sent, subdirectory `tutorialresponses`, no week, and its pairing resolved |
| Chat.PairingResolvedOnLaterSide | chat.py:103-115 | of two partners, only the later-created session gets the other's chat id at construction; the earlier one would learn it only from a fresh lookup, which none of the conversation handlers it reaches performs (`EchoPairing.ConversationPairingFixed`) |
| Chat.Candidates | chat.py:154-157 | the candidates are exactly the `.ogg` files not already sent that do not contain the chat id |
| Chat.TutorialDecision | chat.py:237-294 | `send_tutstory`'s decision: refusal exactly in an unanswered or not-started status; tutorial complete exactly on an empty queue; otherwise the queue head is taken, skipped if logged, and sent with status `tut_story{d}received` exactly from an advancing status |
| Chat.AfterTutorial | chat.py:245-294 | the files recorded as sent and the new status for each decision |
| Chat.TutorialOutcomes | chat.py:239-294 | a refused request changes nothing; an empty queue completes the tutorial; a fresh story with a digit from an advancing status yields `tut_story{d}received` |
| Chat.Shared.constructor | chat.py:54-55 | the pairing table as loaded and an empty name registry |
| Chat.StoryQueue.Pop | chat.py:247 | `pop(0)`: the head and the rest of the queue, or nothing from an empty queue |
| Chat.ChatHandler.constructor | chat.py:83-110 | registers the name under the chat id, and the new session is `NewSession` for it |
| Chat.ChatHandler.SetPairedUser | chat.py:112-115 | partner name and id from the current tables; nothing else changes |
| Chat.ChatHandler.Log | chat.py:145-149 | a line is written only for a paired chat |
| Chat.ChatHandler.SendMsg | chat.py:170-173 | a message is handed on only for a paired chat |
| Chat.ChatHandler.SetStatus | chat.py:121-125 | stores the value and writes `StatusLog`: nothing for an unchanged value |
| Chat.ChatHandler.SendVn | chat.py:193-206 | the file is appended to the sent list |
| Chat.ChatHandler.ChooseRandomVn | chat.py:154-168 | returns some candidate and appends it to `sent`, or None exactly when no candidate is left; then a paired chat is sent the all-listened message and the session is unchanged; no log line |
| Chat.ChatHandler.SendTutstory | chat.py:237-294 | takes `TutorialDecision`, pops the queue exactly when the decision pops, and leaves `AfterTutorial` of the old session |
| EchoStates.StateNamesDistinct | echobot.py:37-51 | the fourteen state names are pairwise distinct |
| EchoStates.IndexMapPositions | echobot.py:58-59 | `dict(zip(names, range))` over distinct names sends each name to its position and has no other key |
| EchoStates.StateMappingIsIndex | echobot.py:37-59 | `state_mapping` sends each state to its list index, knows no other name, and is injective |
| EchoStates.StateIndex | echobot.py:127 | `state_mapping[STARTING_STATUS]` succeeds exactly for a state name, giving its position |
| EchoStates.TableShape | echobot.py:385-404 | week two uses week one's handlers state for state; only the three command states ignore voice notes |
| EchoEngine.Start | echobot.py:112-139 | /start leaves the sender with a session and every other session unchanged |
| EchoEngine.Touch | echobot.py:78-85 | the chat has a session afterwards; an existing session, and every other one, is unchanged |
| EchoBot.Bot.constructor | echobot.py:21-32 | no handlers, nothing queued, `START_DATE` equal to `ORIGINAL_START_DATE` |
| EchoBot.Bot.InitializeChatHandler | echobot.py:78-85 | get-or-create: the same object for a known chat id, a fresh one (registered by name) on first contact, no other handler changed |
| EchoBot.Bot.RefreshPairing | echobot.py:115 | the session's partner name and id looked up again, nothing else changed |
| EchoBot.Bot.ShiftStartDate | echobot.py:353-354 | `START_DATE` moves seven intervals on only while it equals the original date |
| EchoBot.Bot.Meet | echobot.py:256-267 | both partners get the step's batch and end awaiting the next step |
| EchoBot.Bot.Start | echobot.py:112-139 | the objects end in the world `EchoEngine.Start` gives, with its outcome |
| EchoBot.Bot.StartTutorial | echobot.py:141-151 | as `EchoEngine.StartTutorial`: only `/starttutorial` moves to `TUTORIAL_STARTED` |
| EchoBot.Bot.GetTutorialStory | echobot.py:153-165 | as `EchoEngine.GetTutorialStory`: the first tutorial file is sent, or the handler fails with none |
| EchoBot.Bot.TutStory1 | echobot.py:167-179 | as `EchoEngine.TutStory1Step`: a voice note from a chat that is not private raises before anything changes |
| EchoBot.Bot.TutStory2 | echobot.py:181-189 | as `EchoEngine.TutStory2Step`: a voice note sets `tut_story2responded`, then moves on only for a private chat |
| EchoBot.Bot.TutCompleted | echobot.py:191-200 | as `EchoEngine.TutCompletedStep`: `/endtutorial` files later recordings under `intros` and awaits the introduction |
| EchoBot.Bot.AwaitingIntro | echobot.py:202-236 | as `EchoEngine.AwaitingIntroStep`, the introduction barrier, which a chat that is not private never reaches |
| EchoBot.Bot.Submit | echobot.py:238-331 | as `EchoEngine.Submit`: `handle_prompt`, `handle_vt` and `handle_ps`; a sender that is not private raises once its status is set |
| EchoBot.Bot.Barrier | echobot.py:248-268 | as `EchoEngine.Barrier`: the partner test once the sender's status is set (for `handle_ps`, a partner that is not private raises first) |
| EchoBot.Bot.Feedback | echobot.py:333-371 | as `EchoEngine.Feedback`; a sender that is not private raises once its status is set |
| EchoBot.Bot.CompleteWeek | echobot.py:341-366 | as `EchoEngine.CompleteWeek`: the week-one batch for both, then `END` in week 2 or the move to week 2 |
| EchoBot.Bot.Cancel | echobot.py:373-375 | as `EchoEngine.Cancel`: status `cancel`, conversation state kept |
| EchoBot.Bot.Run | echobot.py:385-404 | runs the handler the state table names |
| EchoBot.Conversation.HandleUpdate | echobot.py:385-404 | the sessions and conversation states end as `EchoEngine.Dispatch` says: outside a conversation only /start is heard; inside, the state's handler gets every message its filter accepts |
| EchoProperties.TextOnlyReprompts | echobot.py:167-371 | text where a voice note is expected returns `None` and changes nothing but the chat's registration (and, in `handle_prompt`, the subdirectory) |
| EchoProperties.RepromptKeepsConversation | echobot.py:385-404 | through the conversation handler, such text keeps the conversation state, the status, the week, `START_DATE` and the queue |
| EchoProperties.SubmitWaits | echobot.py:248-268 | for a private sender: a partner who has not submitted is untouched: only the sender's session changes and nothing is queued |
| EchoProperties.SubmitMeets | echobot.py:254-267 | for a private sender: a partner who has submitted: both sessions end awaiting the next step, each gets the step's batch at the same time, all other sessions are untouched |
| EchoProperties.VoiceWithoutFirstNameFails | echobot.py:87-101 | a voice note from a chat that is not private makes every voice handler raise at the `first_name` read, keeping only the status (and subdirectory) changes made before it, with nothing queued |
| EchoProperties.ListeningPartnerWithoutFirstNameFails | echobot.py:304-310 | `handle_ps` raises when the partner chat is not private, after the sender's status is set and before the barrier test |
| EchoProperties.VoiceWithoutFirstNameStays | echobot.py:385-404 | inside a conversation, a voice note from a chat that is not private never changes its conversation state, `START_DATE` or the queue |
| EchoProperties.SubmitTwice | echobot.py:238-331 | for private partners who hold each other's chat id (as `EchoEngine.StartMutual` leaves them; see Findings): both partners submitting in turn gives the pair in closed form |
| EchoProperties.SubmitCommutes | echobot.py:254-326 | for private partners who hold each other's chat id (as `EchoEngine.StartMutual` leaves them; see Findings): barrier commutativity: whichever partner submits second, the sessions, names and `START_DATE` end the same |
| EchoProperties.SubmitCommutesSchedule | echobot.py:254-326 | for private partners who hold each other's chat id (as `EchoEngine.StartMutual` leaves them; see Findings): and the same batches are queued, in the other order (equal multisets) |
| EchoProperties.IntroOutcomes | echobot.py:202-236 | a sender that is not private records `received_intro` and raises; for a private one, without a partner id only the sender's status changes; with both introductions in, both await the week's prompt and get the day-one batch at `START_DATE + INTERVAL` |
| EchoProperties.FeedbackWaits | echobot.py:333-369 | for a private sender: the first feedback is only recorded and the handler returns `None` |
| EchoProperties.CompleteWeekForm | echobot.py:341-366 | closed form of the end of the week for two chats |
| EchoProperties.FeedbackMeets | echobot.py:333-366 | for a private sender: the second feedback records it and completes the week for both |
| EchoProperties.FeedbackCompletes | echobot.py:341-366 | for a private sender: in week 2: `END`, weeks unchanged; otherwise both chats in week 2 awaiting its prompt, `START_DATE` shifted only from the original date, the week-two batch at the new `START_DATE`; no other chat touched |
| EchoProperties.FeedbackTwice | echobot.py:333-366 | for private partners who hold each other's chat id (as `EchoEngine.StartMutual` leaves them; see Findings): both feedbacks in turn: the first gets `None`, the second completes the week from the world with both recorded |
| EchoProperties.FeedbackCommutes | echobot.py:333-366 | for private partners who hold each other's chat id (as `EchoEngine.StartMutual` leaves them; see Findings): the feedback barrier ends in the same sessions and `START_DATE` whoever sends second |
| EchoProperties.FeedbackTwiceSchedule | echobot.py:341-366 | for private partners who hold each other's chat id (as `EchoEngine.StartMutual` leaves them; see Findings): the exact batches queued once both feedbacks are in, in either week |
| EchoProperties.FeedbackOrderOutcomes | echobot.py:341-369 | for private partners who hold each other's chat id (as `EchoEngine.StartMutual` leaves them; see Findings): only the returned value depends on the order: `None` first, then `WEEK2_PROMPT`, or `END` in week 2 |
| EchoProperties.StartDateShiftsAtMostOnce | echobot.py:353-354 | no update moves a `START_DATE` that is no longer the original, and `START_DATE` is always the original or one week later: it moves at most once |
| EchoProperties.StartOutcomes | echobot.py:112-139 | unpaired: `END`, status kept; paired: week 1 and then the configured state, or `left_group`/`END` for a group, or `start_welcomed`/`START_WELCOMED` |
| EchoProperties.DispatchKeepsStarted | echobot.py:121-123 | every chat in a conversation keeps a session whose week /start has set |
| EchoProperties.SendTimesIncrease | echobot.py:223-342 | with a positive interval the batches of a week go out in step order (1, 2, 3, 5, 6 intervals) |
| EchoProperties.CancelShadowed | echobot.py:385-404 | inside a conversation `/cancel` goes to the state's handler, never to the fallback |
| EchoPairing.StartsPairOneSided | chat.py:112-115 | two new partners who each send /start are paired and in week 1, but only the second holds the first's chat id |
| EchoPairing.RunKeepsPairing | echobot.py:167-375 | no state handler changes any session's partner id |
| EchoPairing.ConversationPairingFixed | echobot.py:385-404 | once a chat is in a conversation, no update from any chat changes its partner id: a missing id stays missing |
| EchoPairing.OneSidedSubmitOrder | echobot.py:248-268 | with a one-sided pairing: if the chat without the id submits first, its handler fails and the partner's submission moves both on; if it submits second, its handler fails, both stay `received`, and nothing is queued |
| EchoPairing.OneSidedFeedbackOrder | echobot.py:333-369 | the feedback barrier with a one-sided pairing: the week completes when the chat without the id sends first; when it sends second, both stay recorded, its handler fails and nothing is queued |
| EchoPairing.OneSidedIntroOrder | echobot.py:202-236 | the introduction barrier with a one-sided pairing: the chat without the id never waits; when it goes second, both end `received_intro` and the day-one batch is never queued |
| EchoPairing.MutualStartsPair | echobot.py:112-127 | with the mutual lookup, two new partners who each send /start end knowing each other's chat id, in the same week (`PairReady`) |
| WisperV2.SettersDiffer | wisperv2.py:153-156 | this setter and chat.py's write the same line on a change; on an unchanged value in a paired chat only this one writes |
| WisperV2.NewSession | wisperv2.py:117-147 | a new session has status `none`, subdirectory `tutorialresponses`, nothing sent, and a partner exactly when its name is in the table |
| WisperV2.TextReplies | wisperv2.py:258-298 | the opener and a hint in the twelve tutorial statuses, an invitation to introduce oneself in `awaiting_intro`, nothing otherwise |
| WisperV2.HintsByStage | wisperv2.py:276-296 | the four `responded` statuses share the fast-typer hint; the second and third unanswered stories share their reminder |
| WisperV2.AfterText | wisperv2.py:258-298 | the status changes only from `awaiting_intro`, to `intro_received` |
| WisperV2.VoiceStatus | wisperv2.py:410-420 | `awaiting_story_response` and `awaiting_intro` get their received status; any status that is neither these nor a `tut_story…received` one is left |
| WisperV2.VoiceAnswersStory | wisperv2.py:410-412 | `tut_story{d}received` becomes `tut_story{d}responded` |
| WisperV2.Answered | wisperv2.py:407-420 | a voice note changes at most the status, as `VoiceStatus` says |
| WisperV2.TutorialMessages | wisperv2.py:300-357 | a delivered story comes with its ordinal intro and the questions; a skipped or undelivered one with nothing |
| WisperV2.AfterTutorial | wisperv2.py:300-357 | the same decision and sent files as chat.py's `send_tutstory` |
| WisperV2.AnswerFetchesNext | wisperv2.py:407-443 | answering story 1, 2 or 3 delivers the next queued story in the same update |
| WisperV2.FourthAnswerEnds | wisperv2.py:407-443 | answering story 4 completes the tutorial on an empty queue, or takes the head without sending it |
| WisperV2.IntroTakesStory | wisperv2.py:407-443 | an introduction voice note also takes a story off the shared queue without sending it |
| WisperV2.ChunksCorrect | wisperv2.py:380-391 | the chunks concatenate to every word followed by a space, in order; each is at most 4097 characters unless it is a single long word; each was closed only because the next word did not fit; no trailing empty chunk |
| WisperV2.LongFirstWordEmptyChunk | wisperv2.py:384-386 | as written, a first word over 4096 characters produces an empty first chunk |
| WisperV2.FixedChunksNonEmpty | wisperv2.py:384-386 | with the corrected test no chunk is empty |
| WisperV2.ChunkMsg | wisperv2.py:380-391 | the loop computes the chunks of `msg.split(" ")` as written |
| WisperV2.ChunkMsgFixed | wisperv2.py:380-391 | the corrected loop: same concatenation, and no empty chunk |
| WisperV2.ChatHandler.constructor | wisperv2.py:117-147 | a new object holds `NewSession` for its name, with no log and no messages |
| WisperV2.ChatHandler.SetPairedUser | wisperv2.py:145-147 | the partner name from the table; nothing else changes |
| WisperV2.ChatHandler.Log | wisperv2.py:176-180 | a line is written only for a paired chat |
| WisperV2.ChatHandler.SendMsg | wisperv2.py:201-205 | a message is handed on only for a paired chat |
| WisperV2.ChatHandler.SetStatus | wisperv2.py:153-156 | stores the value and, for a paired chat, always logs the assignment, even of the current value |
| WisperV2.ChatHandler.SendVn | wisperv2.py:220-230 | the file is appended to the sent list |
| WisperV2.ChatHandler.StartPairing | wisperv2.py:251-253 | the partner is named and the status becomes `awaiting_intro` |
| WisperV2.ChatHandler.SendEndtutorial | wisperv2.py:245-249 | thanks, then `tut_ended`, then pairing: two logged transitions |
| WisperV2.ChatHandler.Endtutorial | wisperv2.py:462-468 | subdirectory `story`; status through `tut_complete`, `tut_ended` to `awaiting_intro`, three logged transitions |
| WisperV2.ChatHandler.TextResponseChooser | wisperv2.py:258-298 | sends `TextReplies` and leaves `AfterText` |
| WisperV2.ChatHandler.Echo | wisperv2.py:393-405 | a group gets the groups-unsupported message and no status change; a private chat gets `textresponse_chooser`, and its log gains the `intro_received` line exactly when it was awaiting its introduction |
| WisperV2.ChatHandler.SendTutstory | wisperv2.py:300-357 | chat.py's decision and queue update, the messages of each step, and a log line on every assignment |
| WisperV2.ChatHandler.SendStory | wisperv2.py:308-349 | the part after the pop, for the popped story |
| WisperV2.ChatHandler.GetVoicenote | wisperv2.py:407-443 | the voice-note status change; a non-private chat then stops (the thank-you's `first_name` read raises), with the queue and messages unchanged; a private chat gets a thank-you and `send_tutstory`, and the session ends as `AfterVoice` |
| WisperV2.ChatHandler.Starttutorial | wisperv2.py:470-474 | status `tut_started` and the instructions |
| WisperV2.ChatHandler.Start | wisperv2.py:482-502 | unpaired: told the username is unknown, nothing changes; paired group: `left_group`; paired private chat: welcome messages and `start_welcomed` |
| WisperV2.Bot.constructor | wisperv2.py:82-89 | no handlers yet, the pairing table and the tutorial queue as given |
| WisperV2.Bot.InitializeChatHandler | wisperv2.py:445-451 | at most one handler per chat id: a known id returns the same object with the map unchanged; a new one adds exactly one fresh handler |
| WisperV2.Bot.Echo | wisperv2.py:393-405 | the chat's session ends as `AfterText` of its prior value, or unchanged in a group; every other handler is unchanged |
| WisperV2.Bot.GetVoicenote | wisperv2.py:407-443 | the chat's session ends as `AfterVoice` of its prior value, with the queue popped exactly when the decision pops; a non-private chat stops after the status change, queue unchanged; every other handler is unchanged |
| WisperV2.Bot.Gettutorialstory | wisperv2.py:455-460 | the chat's session ends as `AfterTutorial` of its prior value; every other handler is unchanged |
| WisperV2.Bot.Endtutorial | wisperv2.py:462-468 | the chat ends awaiting its introduction, recordings under `story`; every other handler is unchanged |
| WisperV2.Bot.Starttutorial | wisperv2.py:470-474 | the chat ends in `tut_started`; every other handler is unchanged |
| WisperV2.Bot.Start | wisperv2.py:482-502 | an unpaired chat is unchanged; a paired one ends in `left_group` or `start_welcomed`; every other handler is unchanged |
| WisperMain.CreateResponse | wisperbotmain.py:34-48 | the greeting exactly when the lower-cased text contains `hello` or `hi`; otherwise the well-being reply exactly when it contains `how are you?`; otherwise the fallback |
| WisperMain.CaseInsensitive | wisperbotmain.py:37 | a text and its lower-cased form get the same reply |
| WisperMain.KeywordGreets | wisperbotmain.py:40-41 | a greeting word in any letter case, anywhere in the text (inside a word too), yields the greeting, even with `how are you?` present |
| WisperMain.ThinkIsGreeted | wisperbotmain.py:40-41 | "what do you think?" is answered with the greeting |
| WisperMain.HandleMessage | wisperbotmain.py:51-80 | no reply exactly for a group message without the bot's username; a private chat is answered on its text as is; the reply is always one of the three |
| WisperMain.MentionFirst | wisperbotmain.py:62-68 | a group message that starts with the username gets the reply to the rest of the text, stripped |

## Left out

- Telegram transport is not modelled. This covers `send_message` retries on
  `TimedOut`, `send_voice`, `send_video`, `leave_chat`, file downloads and the
  application wiring. The state table is kept as data (`EchoStates.Table`).
- Transcription is not modelled: `transcribe`, OpenAI and ffmpeg are external
  services and processes.
- The SQLite log database is not modelled: `sqlquery`, the insert in `send_vn`,
  `dump_logs_to_csv`. The "already sent" check is the parameter `logged`.
- Filesystem access is not modelled: directory listings, the `directory`
  property, `makedirs`, the `chat_sessions` file. File lists are parameters.
- Logging configuration and environment loading are not modelled.
  `START_DATE`, `INTERVAL` and `STARTING_STATUS` are configuration values, and
  dates are integers.
- Log lines other than status changes are not modelled, for example "Received
  /start command" or "Left group".
- EchoBot.Bot.Meet: the status-change log lines that both partners' objects
  write (chat.py:121-125) are not stated. The objects do write them, through
  `Chat.ChatHandler.SetStatus`, whose own contract states each line. But the
  `EchoBot.Bot` methods are specified through `Model()`, which holds the
  sessions and not the logs. Stating the logs would need every `EchoEngine`
  transition function to return the sequence of status assignments it makes.
- EchoBot.Bot.Start: the sender's status-change log line is not stated, as for
  `EchoBot.Bot.Meet`.
- EchoBot.Bot.StartTutorial: the `tut_started` log line is not stated, as for
  `EchoBot.Bot.Meet`.
- EchoBot.Bot.GetTutorialStory: the `tut_story{week}received` log line is not
  stated, as for `EchoBot.Bot.Meet`.
- EchoBot.Bot.TutStory1: the status-change log lines are not stated, as for
  `EchoBot.Bot.Meet`.
- EchoBot.Bot.TutStory2: the status-change log line is not stated, as for
  `EchoBot.Bot.Meet`.
- EchoBot.Bot.TutCompleted: the `tut_completed` and `awaiting_intro` log lines
  are not stated, as for `EchoBot.Bot.Meet`.
- EchoBot.Bot.AwaitingIntro: the log lines of the sender and the partner are
  not stated, as for `EchoBot.Bot.Meet`.
- EchoBot.Bot.Submit: the log lines of the sender and the partner are not
  stated, as for `EchoBot.Bot.Meet`.
- EchoBot.Bot.Barrier: the log lines of the sender and the partner are not
  stated, as for `EchoBot.Bot.Meet`.
- EchoBot.Bot.Feedback: the log lines of the sender and the partner are not
  stated, as for `EchoBot.Bot.Meet`.
- EchoBot.Bot.CompleteWeek: the log lines of both partners are not stated, as
  for `EchoBot.Bot.Meet`.
- EchoBot.Bot.Cancel: the `cancel` log line is not stated, as for
  `EchoBot.Bot.Meet`.
- EchoBot.Bot.Run: the status-change log lines of the handler it runs are not
  stated, as for `EchoBot.Bot.Meet`.
- The text of messages is not modelled, including the first names
  interpolated into them. `WisperV2` keeps the kind of each message.
- `Chat.ChatHandler.SendTutstory`: the texts it sends are not modelled. Its
  contract says nothing about `outbox`. `WisperV2.ChatHandler.SendTutstory`
  models the same step with its messages.
- `EchoBot`: the messages the handlers send at once (thanks, re-prompts) are
  not modelled. Only the queued batches are.
- `send_msgs`, `get_audio` and `exchange_vns` are called in echobot.py but not
  defined in these files. Only a queued batch and its send time are recorded.
- echobot.py's `get_voicenote` is not modelled. It only downloads,
  acknowledges and transcribes, and calls `log_recv_vn`, which is not defined
  in these files.
- `choose_random_vn` is modelled without randomness. `Chat.ChatHandler.ChooseRandomVn`
  returns some candidate, not a uniformly random one.
- `get_state_name` (echobot.py:65-66) is not modelled. It is never called, and
  it indexes the name-keyed mapping by number.
- A handler created for an update without a message is not modelled
  (chat.py:84-87, wisperv2.py:118-121). That object is left half-initialised.
  The model always receives a message.
- A channel chat is not modelled either. Such a session gets no name, and the
  lookup that follows would fail; the model uses `None` for the name.
- `help_msg` (wisperv2.py:476-480), `start_command` and `help_command`
  (wisperbotmain.py:15-24), and `error` (wisperbotmain.py:83-84) are not
  modelled. They reply with a fixed text or print.
- wisperv2.py's `load_user_pairs` and `choose_random_vn` are not modelled
  separately. They are the same as chat.py's, which `Chat` models.
- `WisperV2.Bot.Echo`, `WisperV2.Bot.GetVoicenote`, `WisperV2.Bot.Gettutorialstory`,
  `WisperV2.Bot.Endtutorial`, `WisperV2.Bot.Starttutorial` and `WisperV2.Bot.Start`
  state the chat's session and leave every other handler unchanged. They do not
  restate that chat's log and messages, which the `WisperV2.ChatHandler`
  method each one calls states.
- WisperMain.CreateResponse: lower-casing and stripping are ASCII and Latin-1
  only. `Strings.Lower` maps A-Z, and `Strings.Strip` drops the ASCII and
  Latin-1 whitespace. Python's `str.lower` and `str.strip` are Unicode-aware, so
  for example "Hİ" greets in Python but not in the model.
- Strings.FirstDigit: the digit search in `send_tutstory` (chat.py:261-285,
  wisperv2.py:324-348) finds 0-9 only, where Python's `\d` also matches other
  Unicode digits.
- EchoBot.Conversation.HandleUpdate: the status-change log lines are not
  stated, as for `EchoBot.Bot.Meet`. The entry command is matched exactly and
  case-sensitively. `EchoEngine.IsCommand` compares the first space-separated
  word with `/start`. python-telegram-bot also accepts `/start@botname` and
  `/start` followed by a newline. Conversations are keyed by chat id, where the
  library keys them by chat and user.
- `EchoProperties.SubmitCommutesSchedule` gives barrier commutativity for the
  queued batches as multisets. For the feedback barrier,
  `EchoProperties.FeedbackTwiceSchedule` gives the exact queue for a given
  order instead of a multiset equality.
- The week of an echo-bot session is 0 until /start sets it. In the code the
  attribute does not exist until then.

## Findings

| source | as written | input that shows it | evidently intended | confidence | as-written member | corrected member |
|---|---|---|---|---|---|---|
| chat.py:112-115, with echobot.py:115, 252, 280, 309, 340 | the partner id is looked up only when a session is created and on /start, and /start is never heard inside a conversation, so of two partners only the second to send /start ever holds the other's chat id | `a` sends /start, then `b` does; `b` submits its story, then `a` does: `a`'s `handle_prompt` raises `KeyError` on `chat_handlers[None]` and neither moves on. This reads echobot.py:115 as the one-argument lookup and `get_voicenote` as returning; as written, /start already raises `TypeError` at echobot.py:115 and `get_voicenote` raises at echobot.py:103 | both partners hold each other's chat id, so each barrier moves both on whoever submits first | high (not executed) | EchoPairing.OneSidedSubmitOrder | EchoPairing.MutualStartsPair |
| wisperv2.py:384-386 | the current chunk is closed whenever the next word would take it past 4096 characters, even when it is empty | a message that is one word of 4097 characters: the chunks are `""` and the word followed by a space | close the chunk only when it is not empty, so that no empty message is sent | high (not executed) | WisperV2.LongFirstWordEmptyChunk | WisperV2.ChunkMsgFixed |
