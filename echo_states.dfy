/**
  The conversation states of the echo bot (echobot.py): the list of state names,
  the name-to-number mapping built from it, and the table saying which step
  handler serves each state and which kinds of message it accepts.
 */
module EchoStates {
  import opened Wrappers

  /** A conversation state number: a position in `StateNames`. */
  type StateId = k: int | 0 <= k < 14

  /** The state names, in the order that gives them their numbers. */
  const StateNames: seq<string> := [
    "START_WELCOMED", "TUTORIAL_STARTED", "TUT_STORY1", "TUT_STORY2", "TUT_COMPLETED",
    "AWAITING_INTRO", "WEEK1_PROMPT", "WEEK1_VT", "WEEK1_PS", "WEEK1_FEEDBACK",
    "WEEK2_PROMPT", "WEEK2_VT", "WEEK2_PS", "WEEK2_FEEDBACK"]

  const StartWelcomed: StateId := 0
  const TutorialStarted: StateId := 1
  const TutStory1: StateId := 2
  const TutStory2: StateId := 3
  const TutCompleted: StateId := 4
  const AwaitingIntro: StateId := 5
  const Week1Prompt: StateId := 6
  const Week1Vt: StateId := 7
  const Week1Ps: StateId := 8
  const Week1Feedback: StateId := 9
  const Week2Prompt: StateId := 10
  const Week2Vt: StateId := 11
  const Week2Ps: StateId := 12
  const Week2Feedback: StateId := 13

  predicate Distinct(names: seq<string>) {
    forall i, j :: 0 <= i < j < |names| ==> names[i] != names[j]
  }

  /** `dict(zip(names, range(len(names))))`: each name mapped to its position, a
      later occurrence of a name overwriting an earlier one. */
  function IndexMap(names: seq<string>): map<string, int> {
    if names == [] then map[]
    else IndexMap(names[..|names| - 1])[names[|names| - 1] := |names| - 1]
  }

  /** Over distinct names, the map sends every name to its own position and has
      no other keys. */
  lemma {:induction false} IndexMapPositions(names: seq<string>)
    requires Distinct(names)
    ensures forall i :: 0 <= i < |names| ==> names[i] in IndexMap(names) && IndexMap(names)[names[i]] == i
    ensures forall x :: x in IndexMap(names) ==> x in names
  {
    if names != [] {
      var init := names[..|names| - 1];
      assert Distinct(init);
      IndexMapPositions(init);
      forall i | 0 <= i < |names| - 1
        ensures names[i] in IndexMap(names) && IndexMap(names)[names[i]] == i
      {
        assert init[i] == names[i];
        assert names[i] != names[|names| - 1];
      }
      forall x | x in IndexMap(names) ensures x in names {
        if x != names[|names| - 1] {
          assert x in init;
        }
      }
    }
  }

  /** `state_mapping`. */
  function StateMapping(): map<string, int> {
    IndexMap(StateNames)
  }

  lemma StateNamesDistinct()
    ensures Distinct(StateNames)
  {
    forall i, j | 0 <= i < j < |StateNames| ensures StateNames[i] != StateNames[j] {
      assert StateNames[i][..4] != StateNames[j][..4] || |StateNames[i]| != |StateNames[j]|
        || StateNames[i][4] != StateNames[j][4] || StateNames[i][6] != StateNames[j][6]
        || StateNames[i][|StateNames[i]| - 1] != StateNames[j][|StateNames[j]| - 1];
    }
  }

  /** Each state name maps to its position in the list, the mapping knows no
      other names, and no two names share a number. */
  lemma StateMappingIsIndex()
    ensures forall i :: 0 <= i < |StateNames| ==> StateNames[i] in StateMapping() && StateMapping()[StateNames[i]] == i
    ensures forall x :: x in StateMapping() ==> x in StateNames
    ensures forall x, y :: x in StateMapping() && y in StateMapping() && StateMapping()[x] == StateMapping()[y] ==> x == y
  {
    StateNamesDistinct();
    IndexMapPositions(StateNames);
    forall x, y | x in StateMapping() && y in StateMapping() && StateMapping()[x] == StateMapping()[y]
      ensures x == y
    {
      var i :| 0 <= i < |StateNames| && StateNames[i] == x;
      var j :| 0 <= j < |StateNames| && StateNames[j] == y;
    }
  }

  /** `state_mapping[name]`, failing (a `KeyError`) for a name that is not a state. */
  function StateIndex(name: string): (r: Option<StateId>)
    ensures r.Some? <==> name in StateNames
    ensures r.Some? ==> StateNames[r.value] == name
  {
    StateMappingIsIndex();
    if name in StateMapping() then
      var i :| 0 <= i < |StateNames| && StateNames[i] == name;
      Some(i)
    else None
  }

  /** The step handlers of echobot.py. */
  datatype HandlerName =
    | StartTutorialHandler | GetTutorialStoryHandler | TutStory1Handler | TutStory2Handler
    | TutCompletedHandler | AwaitingIntroHandler | PromptHandler | VtHandler | PsHandler | FeedbackHandler

  /** Which messages a state's handler accepts: `filters.TEXT` alone, or
      `filters.TEXT | filters.VOICE`. */
  datatype Filter = TextOnly | TextOrVoice

  /** The `states` table of the conversation handler. */
  function Table(k: StateId): (HandlerName, Filter) {
    if k == StartWelcomed then (StartTutorialHandler, TextOnly)
    else if k == TutorialStarted then (GetTutorialStoryHandler, TextOnly)
    else if k == TutStory1 then (TutStory1Handler, TextOrVoice)
    else if k == TutStory2 then (TutStory2Handler, TextOrVoice)
    else if k == TutCompleted then (TutCompletedHandler, TextOnly)
    else if k == AwaitingIntro then (AwaitingIntroHandler, TextOrVoice)
    else if k == Week1Prompt || k == Week2Prompt then (PromptHandler, TextOrVoice)
    else if k == Week1Vt || k == Week2Vt then (VtHandler, TextOrVoice)
    else if k == Week1Ps || k == Week2Ps then (PsHandler, TextOrVoice)
    else (FeedbackHandler, TextOrVoice)
  }

  /** Week two reuses the week-one handlers state for state, and only the three
      command-driven tutorial states ignore voice notes. */
  lemma TableShape()
    ensures forall k: StateId :: 6 <= k < 10 ==> Table(k) == Table(k + 4)
    ensures forall k: StateId :: Table(k).1 == TextOnly <==> k in {StartWelcomed, TutorialStarted, TutCompleted}
  {
  }
}
