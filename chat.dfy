/**
  The per-chat session object of chat.py (`ChatHandler`), the module-level tables
  it shares with every other session (`user_pairs`, `name_to_chat_id`), the pairing
  table loader and the tutorial-story dispenser.

  A `ChatHandler` is an object whose fields the bot updates in place; `State()`
  gives its value as a `Session`, and the pure functions over `Session` below say
  what each update does to it.
 */
module Chat {
  import opened Wrappers
  import opened Strings

  // ---------------------------------------------------------------------------
  // The pairing table (chat.py `load_user_pairs`)
  // ---------------------------------------------------------------------------

  /** Every CSV row unpacks into exactly two names (`user1, user2 = row`). */
  predicate WellFormed(rows: seq<seq<string>>) {
    forall i :: 0 <= i < |rows| ==> |rows[i]| == 2
  }

  /** The dictionary after reading `rows` in order: each row maps its first name
      to its second and its second to its first, later rows overwriting earlier ones. */
  function PairsOf(rows: seq<seq<string>>): map<string, string>
    requires WellFormed(rows)
  {
    if rows == [] then map[]
    else
      var last := rows[|rows| - 1];
      PairsOf(rows[..|rows| - 1])[last[0] := last[1]][last[1] := last[0]]
  }

  /** Reads the rows of the pairing file; a row that does not hold exactly two
      names makes the load fail (the source prints the error and exits). */
  method LoadUserPairs(rows: seq<seq<string>>) returns (r: Result<map<string, string>, string>)
    ensures r.Success? <==> WellFormed(rows)
    ensures r.Success? ==> r.value == PairsOf(rows)
  {
    var pairs: map<string, string> := map[];
    var i := 0;
    while i < |rows|
      invariant 0 <= i <= |rows|
      invariant WellFormed(rows[..i])
      invariant pairs == PairsOf(rows[..i])
    {
      if |rows[i]| != 2 {
        return Failure("a row of the pairing file does not hold exactly two names");
      }
      var user1, user2 := rows[i][0], rows[i][1];
      assert rows[..i + 1][..i] == rows[..i];
      pairs := pairs[user1 := user2];
      pairs := pairs[user2 := user1];
      i := i + 1;
    }
    assert rows[..|rows|] == rows;
    return Success(pairs);
  }

  /** A name is a key of the table exactly when some row mentions it. */
  lemma {:induction false} PairsOfKeys(rows: seq<seq<string>>, x: string)
    requires WellFormed(rows)
    ensures x in PairsOf(rows) <==> exists i :: 0 <= i < |rows| && x in rows[i]
  {
    if rows != [] {
      var init := rows[..|rows| - 1];
      PairsOfKeys(init, x);
      var last := rows[|rows| - 1];
      assert last == [last[0], last[1]];
      if x in PairsOf(init) {
        var i :| 0 <= i < |init| && x in init[i];
        assert rows[i] == init[i];
      }
      if i :| 0 <= i < |rows| && x in rows[i] {
        if i < |rows| - 1 {
          assert init[i] == rows[i];
        }
      }
    }
  }

  /** The last row always holds: its first name maps to its second and back. */
  lemma LastRowHolds(rows: seq<seq<string>>)
    requires WellFormed(rows) && rows != []
    ensures var last := rows[|rows| - 1];
      PairsOf(rows)[last[0]] == last[1] && PairsOf(rows)[last[1]] == last[0]
  {
  }

  /** No name appears in two different rows. */
  predicate DistinctNames(rows: seq<seq<string>>)
    requires WellFormed(rows)
  {
    forall i, j, p, q :: 0 <= i < j < |rows| && 0 <= p < 2 && 0 <= q < 2 ==> rows[i][p] != rows[j][q]
  }

  /** With no name repeated across rows, the table is the two-way relation the
      source assumes: every row is read both ways. */
  lemma {:induction false} PairsOfSymmetric(rows: seq<seq<string>>, i: nat)
    requires WellFormed(rows) && DistinctNames(rows) && i < |rows|
    ensures rows[i][0] in PairsOf(rows) && PairsOf(rows)[rows[i][0]] == rows[i][1]
    ensures rows[i][1] in PairsOf(rows) && PairsOf(rows)[rows[i][1]] == rows[i][0]
  {
    var init := rows[..|rows| - 1];
    if i < |rows| - 1 {
      assert forall k :: 0 <= k < |init| ==> init[k] == rows[k];
      PairsOfSymmetric(init, i);
      var last := rows[|rows| - 1];
      assert rows[i][0] != last[0] && rows[i][0] != last[1];
      assert rows[i][1] != last[0] && rows[i][1] != last[1];
    }
  }

  /** A name repeated in a later row loses its earlier partner: after the rows
      (a, b) and (b, c), `a` still points at `b` but `b` points at `c`, so the table
      is no longer two-way. */
  lemma LaterRowOverrides(a: string, b: string, c: string)
    requires a != b && b != c && a != c
    ensures var pairs := PairsOf([[a, b], [b, c]]);
      a in pairs && b in pairs && c in pairs &&
      pairs[a] == b && pairs[b] == c && pairs[c] == b && pairs[pairs[a]] != a
  {
    var rows := [[a, b], [b, c]];
    assert rows[..1] == [[a, b]];
    assert [[a, b]][..0] == [];
    assert PairsOf([[a, b]]) == map[][a := b][b := a];
    assert PairsOf(rows) == map[][a := b][b := a][b := c][c := b];
  }

  // ---------------------------------------------------------------------------
  // Sessions
  // ---------------------------------------------------------------------------

  /** One line of a chat's log file; only status transitions are modelled. */
  datatype LogLine = StatusChanged(from: string, to: string)

  /** The value of a `ChatHandler`: identity, conversation progress and pairing.
      `week` is 0 until the echo bot's /start sets it (the attribute does not exist
      before then). The chat's log file is kept by the object itself, outside this
      value. */
  datatype Session = Session(
    chatId: int,
    chatType: string,
    name: Option<string>,
    status: string,
    week: nat,
    subdir: string,
    sent: seq<string>,
    pairedUser: Option<string>,
    pairedChatId: Option<int>)
  {
    /** `if self.paired_user:` -- a partner name that is present and non-empty. */
    predicate Paired() {
      pairedUser.Some? && pairedUser.value != ""
    }

    /** The value the `status` property setter leaves behind. */
    function WithStatus(value: string): Session {
      this.(status := value)
    }
  }

  /** The lines the `status` setter appends to a chat's log: none when the value
      does not change or the chat is unpaired, otherwise the transition. */
  function StatusLog(s: Session, value: string): (r: seq<LogLine>)
    ensures |r| <= 1
    ensures r != [] <==> s.status != value && s.Paired()
    ensures r != [] ==> r[0].from == s.status && r[0].to == value
  {
    if s.status != value && s.Paired() then [StatusChanged(s.status, value)] else []
  }

  /** `dict.get(key, None)`. */
  function Get<K, V>(m: map<K, V>, key: K): (r: Option<V>)
    ensures r.Some? <==> key in m
    ensures r.Some? ==> r.value == m[key]
  {
    if key in m then Some(m[key]) else None
  }

  /** The name a session is registered under: the username of a private chat, the
      title of a group or supergroup. */
  function SessionName(chatType: string, username: Option<string>, title: Option<string>): Option<string> {
    if chatType == "private" then username
    else if Contains(chatType, "group") then title
    else None
  }

  /** `set_paired_user`: the partner's name from the pairing table, and the
      partner's chat id if a session has already registered under that name. */
  function ResolvePairing(name: Option<string>, pairs: map<string, string>, names: map<Option<string>, int>)
    : (r: (Option<string>, Option<int>))
    ensures r.0.Some? <==> name.Some? && name.value in pairs
    ensures r.0.Some? ==> r.0.value == pairs[name.value]
    ensures r.1.Some? <==> r.0 in names
    ensures r.1.Some? ==> r.1.value == names[r.0]
  {
    var partner := if name.Some? then Get(pairs, name.value) else None;
    (partner, Get(names, partner))
  }

  /** The session a new `ChatHandler` starts with; `names` already holds the
      entry the constructor records for it. */
  function NewSession(chatId: int, chatType: string, username: Option<string>, title: Option<string>,
                      pairs: map<string, string>, names: map<Option<string>, int>): (s: Session)
    ensures s.chatId == chatId && s.status == "none" && s.sent == []
    ensures s.subdir == "tutorialresponses" && s.week == 0
    ensures (s.pairedUser, s.pairedChatId) == ResolvePairing(s.name, pairs, names)
  {
    var name := SessionName(chatType, username, title);
    var (partner, partnerId) := ResolvePairing(name, pairs, names);
    Session(chatId, chatType, name, "none", 0, "tutorialresponses", [], partner, partnerId)
  }

  /** Two users listed as partners: the one whose session is created first cannot
      see the other yet and gets no partner id; the one created second does. The
      first would learn the id only from a fresh lookup, which no conversation
      handler performs. */
  lemma PairingResolvedOnLaterSide(a: string, b: string, idA: int, idB: int,
                                   pairs: map<string, string>, names: map<Option<string>, int>)
    requires a in pairs && pairs[a] == b && b in pairs && pairs[b] == a && a != b
    requires Some(b) !in names
    ensures var namesA := names[Some(a) := idA];
      var namesB := namesA[Some(b) := idB];
      && NewSession(idA, "private", Some(a), None, pairs, namesA).pairedChatId == None
      && NewSession(idB, "private", Some(b), None, pairs, namesB).pairedChatId == Some(idA)
      && ResolvePairing(Some(a), pairs, namesB).1 == Some(idB)
  {
  }

  // ---------------------------------------------------------------------------
  // Choosing a voice note (`choose_random_vn`)
  // ---------------------------------------------------------------------------

  /** A file that may be sent: a voice note, not yet sent to this chat, whose name
      does not contain the chat's own id (so nobody gets their own recording). */
  predicate IsCandidate(f: string, sent: seq<string>, chatId: int) {
    EndsWith(f, ".ogg") && f !in sent && !Contains(f, IntToString(chatId))
  }

  /** The list comprehension in `choose_random_vn`, over the directory listing. */
  function Candidates(files: seq<string>, sent: seq<string>, chatId: int): (r: seq<string>)
    ensures forall f :: f in r <==> f in files && IsCandidate(f, sent, chatId)
    ensures |r| <= |files|
  {
    if files == [] then []
    else (if IsCandidate(files[0], sent, chatId) then [files[0]] else []) + Candidates(files[1..], sent, chatId)
  }

  // ---------------------------------------------------------------------------
  // The tutorial-story dispenser (`send_tutstory`)
  // ---------------------------------------------------------------------------

  /** Statuses in which a story has been sent and not yet answered. */
  const Unanswered: set<string> := {"tut_story1received", "tut_story2received", "tut_story3received", "tut_story4received"}

  /** Statuses before the tutorial instructions were read. */
  const NotStarted: set<string> := {"start_welcomed", "none"}

  /** Statuses in which a delivered story moves the chat on to `tut_story{d}received`. */
  const Advancing: set<string> := {"tut_started", "tut_story1responded", "tut_story2responded", "tut_story3responded"}

  /** What one call of `send_tutstory` does. */
  datatype TutorialStep =
    | RefuseUnanswered            // last story not answered yet: nothing changes
    | RefuseNotStarted            // tutorial not started: nothing changes
    | Exhausted                   // the queue is empty: tutorial completed
    | AlreadyLogged(story: string)  // popped, but the log database already has it for this chat
    | Popped(story: string)       // popped and recorded as sent, in a status that does not advance
    | Deliver(story: string, next: string)  // popped, sent, and the status advances to `next`
    | NoDigit(story: string)      // popped and sent, but its name has no digit: the digit search raises
  {
    predicate Pops() {
      !(RefuseUnanswered? || RefuseNotStarted? || Exhausted?)
    }
  }

  /** The path a story is sent from. */
  function StoryPath(story: string): string {
    "tutorialstories/" + story
  }

  /** The status a delivered story leads to: `tut_story{d}received`, `d` being the
      first digit of the story's file name. */
  function ReceivedStatus(d: char): string {
    "tut_story" + [d] + "received"
  }

  /** The decision `send_tutstory` takes, given the chat's status, the queue of
      unsent stories and the stories the log database records for this chat. */
  function TutorialDecision(status: string, queue: seq<string>, logged: set<string>): (r: TutorialStep)
    ensures (r.RefuseUnanswered? || r.RefuseNotStarted?) <==> status in Unanswered + NotStarted
    ensures r.Exhausted? <==> status !in Unanswered + NotStarted && queue == []
    ensures r.Pops() ==> queue != [] && r.story == queue[0]
    ensures r.AlreadyLogged? <==> r.Pops() && queue[0] in logged
    ensures r.Deliver? <==> r.Pops() && queue[0] !in logged && status in Advancing && FirstDigit(queue[0]).Some?
    ensures r.Deliver? ==> r.next == ReceivedStatus(FirstDigit(r.story).value)
    ensures r.NoDigit? <==> r.Pops() && queue[0] !in logged && status in Advancing && FirstDigit(queue[0]).None?
  {
    if status in Unanswered then RefuseUnanswered
    else if status in NotStarted then RefuseNotStarted
    else if queue == [] then Exhausted
    else
      var story := queue[0];
      if story in logged then AlreadyLogged(story)
      else if status !in Advancing then Popped(story)
      else match FirstDigit(story)
        case Some(d) => Deliver(story, ReceivedStatus(d))
        case None => NoDigit(story)
  }

  /** The list of sent files after a step: the story itself, then (when it is
      actually sent) its path, recorded by `send_vn`. */
  function SentBy(step: TutorialStep): seq<string> {
    match step
    case Popped(story) => [story]
    case Deliver(story, _) => [story, StoryPath(story)]
    case NoDigit(story) => [story, StoryPath(story)]
    case _ => []
  }

  /** The session after a step of chat.py's `send_tutstory`. */
  function AfterTutorial(s: Session, step: TutorialStep): (t: Session)
    ensures t.sent == s.sent + SentBy(step)
    ensures t.status == match step
      case Exhausted => "tut_completed"
      case Deliver(_, next) => next
      case _ => s.status
  {
    var s' := s.(sent := s.sent + SentBy(step));
    match step
    case Exhausted => s'.WithStatus("tut_completed")
    case Deliver(_, next) => s'.WithStatus(next)
    case _ => s'
  }

  /** A refused request changes neither the session nor the queue; any other
      request from an advancing status that finds a story with a digit ends in the
      matching `tut_story{d}received` status. */
  lemma {:induction false} TutorialOutcomes(s: Session, queue: seq<string>, logged: set<string>)
    ensures s.status in Unanswered + NotStarted ==>
      !TutorialDecision(s.status, queue, logged).Pops() &&
      AfterTutorial(s, TutorialDecision(s.status, queue, logged)) == s
    ensures s.status !in Unanswered + NotStarted && queue == [] ==>
      AfterTutorial(s, TutorialDecision(s.status, queue, logged)).status == "tut_completed"
    ensures s.status in Advancing && queue != [] && queue[0] !in logged && FirstDigit(queue[0]).Some? ==>
      AfterTutorial(s, TutorialDecision(s.status, queue, logged)).status == ReceivedStatus(FirstDigit(queue[0]).value)
  {
    var step := TutorialDecision(s.status, queue, logged);
    if s.status in Unanswered + NotStarted {
      assert step.RefuseUnanswered? || step.RefuseNotStarted?;
      assert s.(sent := s.sent + []) == s;
    }
  }

  // ---------------------------------------------------------------------------
  // Module-level state of chat.py
  // ---------------------------------------------------------------------------

  /** The tables every session reads: `user_pairs` (loaded once) and
      `name_to_chat_id` (filled in as sessions are created). */
  class Shared {
    var userPairs: map<string, string>
    var nameToChatId: map<Option<string>, int>

    constructor(pairs: map<string, string>)
      ensures userPairs == pairs && nameToChatId == map[]
    {
      userPairs := pairs;
      nameToChatId := map[];
    }
  }

  /** The list of tutorial stories not yet handed out, shared by all chats and
      popped from the front. */
  class StoryQueue {
    var files: seq<string>

    constructor(files: seq<string>)
      ensures this.files == files
    {
      this.files := files;
    }

    method Pop() returns (r: Option<string>)
      modifies this
      ensures r.None? <==> old(files) == []
      ensures r.Some? ==> r.value == old(files)[0] && files == old(files)[1..]
      ensures r.None? ==> files == old(files)
    {
      if files == [] {
        r := None;
      } else {
        r := Some(files[0]);
        files := files[1..];
      }
    }
  }

  // ---------------------------------------------------------------------------
  // The session object
  // ---------------------------------------------------------------------------

  /** What `choose_random_vn` tells a chat that has heard every voice note. */
  const AllListened := "Exciting! You've listened to all the reflections I've got for you so far. Please run /??? to enter the main experience!"

  class ChatHandler {
    const chatId: int
    const chatType: string
    const name: Option<string>
    var status: string
    var week: nat
    var subdir: string
    var sent: seq<string>
    var pairedUser: Option<string>
    var pairedChatId: Option<int>
    var log: seq<LogLine>
    /** Messages handed to the transport by `send_msg`. */
    var outbox: seq<string>

    function State(): Session
      reads this
    {
      Session(chatId, chatType, name, status, week, subdir, sent, pairedUser, pairedChatId)
    }

    /** `ChatHandler.__init__`: records the session's name in `name_to_chat_id`,
        then looks its partner up. */
    constructor(chatId: int, chatType: string, username: Option<string>, title: Option<string>, shared: Shared)
      modifies shared
      ensures shared.userPairs == old(shared.userPairs)
      ensures shared.nameToChatId == old(shared.nameToChatId)[SessionName(chatType, username, title) := chatId]
      ensures State() == NewSession(chatId, chatType, username, title, shared.userPairs, shared.nameToChatId)
      ensures log == [] && outbox == []
    {
      this.chatId := chatId;
      this.chatType := chatType;
      this.name := SessionName(chatType, username, title);
      status := "none";
      week := 0;
      subdir := "tutorialresponses";
      sent := [];
      pairedUser := None;
      pairedChatId := None;
      log := [];
      outbox := [];
      new;
      shared.nameToChatId := shared.nameToChatId[name := chatId];
      SetPairedUser(shared);
    }

    /** `set_paired_user`: looks the partner's name and chat id up again. */
    method SetPairedUser(shared: Shared)
      modifies this
      ensures (pairedUser, pairedChatId) == ResolvePairing(name, shared.userPairs, shared.nameToChatId)
      ensures State() == old(State()).(pairedUser := pairedUser, pairedChatId := pairedChatId)
      ensures log == old(log) && outbox == old(outbox)
    {
      var r := ResolvePairing(name, shared.userPairs, shared.nameToChatId);
      pairedUser := r.0;
      pairedChatId := r.1;
    }

    predicate Paired()
      reads this
    {
      State().Paired()
    }

    /** `log`: writes a line only for a paired chat. */
    method Log(line: LogLine)
      modifies this
      ensures log == if Paired() then old(log) + [line] else old(log)
      ensures State() == old(State()) && outbox == old(outbox)
    {
      if Paired() {
        log := log + [line];
      }
    }

    /** `send_msg`: hands a message to the transport only for a paired chat. */
    method SendMsg(text: string)
      modifies this
      ensures outbox == if Paired() then old(outbox) + [text] else old(outbox)
      ensures State() == old(State()) && log == old(log)
    {
      if Paired() {
        outbox := outbox + [text];
      }
    }

    /** The `status` setter: no-op when the value is unchanged, otherwise logs the
        transition and stores the new value. */
    method SetStatus(value: string)
      modifies this
      ensures State() == old(State()).WithStatus(value)
      ensures log == old(log) + StatusLog(old(State()), value)
      ensures outbox == old(outbox)
    {
      if status != value {
        Log(StatusChanged(status, value));
        status := value;
      }
    }

    /** `send_vn`: records the file as sent (the database row and the transport
        call are not modelled). */
    method SendVn(vn: string)
      modifies this
      ensures State() == old(State()).(sent := old(sent) + [vn])
      ensures log == old(log) && outbox == old(outbox)
    {
      sent := sent + [vn];
    }

    /** `choose_random_vn`: some candidate voice note, recorded as sent; or, when
        no candidate is left, the message that every reflection has been heard,
        and None. */
    method ChooseRandomVn(files: seq<string>) returns (r: Option<string>)
      modifies this
      ensures var c := Candidates(files, old(sent), chatId);
        && (r.None? <==> c == [])
        && (r.Some? ==> r.value in c && IsCandidate(r.value, old(sent), chatId))
      ensures State() == old(State()).(sent := if r.Some? then old(sent) + [r.value] else old(sent))
      ensures outbox == old(outbox) + (if r.None? && old(Paired()) then [AllListened] else [])
      ensures log == old(log)
    {
      var c := Candidates(files, sent, chatId);
      if c == [] {
        SendMsg(AllListened);
        r := None;
      } else {
        assert c[0] in c;
        var f :| f in c;
        sent := sent + [f];
        r := Some(f);
      }
    }

    /** `send_tutstory`: refuses in the statuses that may not request a story;
        otherwise pops the shared queue and acts on the popped story, or completes
        the tutorial when the queue is empty. `logged` is the set of stories the log
        database already holds for this chat. */
    method SendTutstory(queue: StoryQueue, logged: set<string>) returns (step: TutorialStep)
      modifies this, queue
      ensures step == TutorialDecision(old(status), old(queue.files), logged)
      ensures queue.files == if step.Pops() then old(queue.files)[1..] else old(queue.files)
      ensures State() == AfterTutorial(old(State()), step)
      ensures log == old(log) + StatusLog(old(State()), State().status)
    {
      if status in Unanswered {
        return RefuseUnanswered;
      } else if status in NotStarted {
        return RefuseNotStarted;
      }
      var popped := queue.Pop();
      if popped.None? {
        SetStatus("tut_completed");
        return Exhausted;
      }
      var story := popped.value;
      if story in logged {
        return AlreadyLogged(story);
      }
      sent := sent + [story];
      if status !in Advancing {
        return Popped(story);
      }
      SendVn(StoryPath(story));
      var d := FirstDigit(story);
      if d.None? {
        return NoDigit(story);
      }
      SetStatus(ReceivedStatus(d.value));
      step := Deliver(story, ReceivedStatus(d.value));
    }
  }
}
