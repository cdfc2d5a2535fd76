/**
  The first prototype of the bot: a keyword classifier that picks one of three
  fixed replies, and the rule that decides whether a message in a group chat is
  addressed to the bot at all.
 */
module WisperMain {
  import opened Wrappers
  import opened Strings

  const BotUsername := "@wisper_social_bot"

  const Greeting := "Hi there!"
  const DoingGood := "I'm doing good, to the extent that that's possible for a bot! Hope you're having a lovely day too!"
  const NotUnderstood := "Sadly I'm unable to understand what you're telling me. Maybe in a next upgrade!"

  /** The greeting test: the lower-cased text contains `hello` or `hi` anywhere,
      inside a longer word as well. */
  predicate Greets(text: string) {
    Contains(Lower(text), "hello") || Contains(Lower(text), "hi")
  }

  predicate AsksHowAreYou(text: string) {
    Contains(Lower(text), "how are you?")
  }

  /** `create_response`: the greeting test comes first, then the well-being
      question; anything else gets the fallback. */
  function CreateResponse(text: string): (r: string)
    ensures r == Greeting <==> Greets(text)
    ensures r == DoingGood <==> !Greets(text) && AsksHowAreYou(text)
    ensures r == NotUnderstood <==> !Greets(text) && !AsksHowAreYou(text)
  {
    var processed := Lower(text);
    if Contains(processed, "hello") || Contains(processed, "hi") then Greeting
    else if Contains(processed, "how are you?") then DoingGood
    else NotUnderstood
  }

  /** Lower-casing twice is lower-casing once. */
  lemma LowerIdempotent(s: string)
    ensures Lower(Lower(s)) == Lower(s)
  {
  }

  /** Lower-casing distributes over concatenation. */
  lemma LowerAppend(p: string, q: string)
    ensures Lower(p + q) == Lower(p) + Lower(q)
  {
  }

  /** The classification ignores case: a text and its lower-cased form get the
      same reply. */
  lemma {:induction false} CaseInsensitive(text: string)
    ensures CreateResponse(Lower(text)) == CreateResponse(text)
  {
    LowerIdempotent(text);
  }

  /** Any text with a greeting word inside it, in any letter case and embedded
      anywhere (the `hi` of "this" or "think" included), gets the greeting, even
      when it also asks how the bot is. */
  lemma {:induction false} KeywordGreets(p: string, w: string, q: string)
    requires Lower(w) == "hi" || Lower(w) == "hello"
    ensures CreateResponse(p + w + q) == Greeting
  {
    var t := p + w + q;
    LowerAppend(p + w, q);
    LowerAppend(p, w);
    assert Lower(t) == Lower(p) + Lower(w) + Lower(q);
    assert |Lower(p)| == |p|;
    assert Lower(t)[|p|..] == Lower(w) + Lower(q);
    ContainsAt(Lower(t), Lower(w), |p|);
  }

  /** "what do you think?" is greeted: the `hi` inside "think" counts. */
  lemma ThinkIsGreeted()
    ensures CreateResponse("what do you think?") == Greeting
  {
    var hi := "hi";
    assert Lower(hi) == hi by {
      assert |Lower(hi)| == 2 && Lower(hi)[0] == 'h' && Lower(hi)[1] == 'i';
    }
    KeywordGreets("what do you t", hi, "nk?");
    assert "what do you t" + hi + "nk?" == "what do you think?";
  }

  /** `handle_message`: in a group, only a message that mentions the bot is
      answered, on its text with every mention removed and the surrounding
      whitespace stripped; a message in any other chat is answered on its text
      as it is. */
  function HandleMessage(chatType: string, text: string): (r: Option<string>)
    ensures r.None? <==> chatType == "group" && !Contains(text, BotUsername)
    ensures chatType != "group" ==> r == Some(CreateResponse(text))
    ensures r.Some? ==> r.value in {Greeting, DoingGood, NotUnderstood}
  {
    if chatType == "group" then
      if Contains(text, BotUsername) then
        Some(CreateResponse(Strip(ReplaceAll(text, BotUsername, ""))))
      else None
    else Some(CreateResponse(text))
  }

  /** Text in which the pattern never occurs is left alone by `replace`. */
  lemma {:induction false} ReplaceAbsent(s: string, pat: string, rep: string)
    requires |pat| > 0 && !Contains(s, pat)
    ensures ReplaceAll(s, pat, rep) == s
  {
    forall i | 0 <= i < |s| ensures !StartsWith((s + [])[i..], pat) {
      assert (s + [])[i..] == s[i..];
      if StartsWith(s[i..], pat) { ContainsAt(s, pat, i); }
    }
    ReplaceAllSkips(s, [], pat, rep);
    assert s + [] == s;
  }

  /** Addressing the bot at the head of a group message gets the same reply as
      the rest of the message would get, stripped, in a private chat. */
  lemma {:induction false} MentionFirst(t: string)
    requires !Contains(t, BotUsername)
    ensures HandleMessage("group", BotUsername + t) == Some(CreateResponse(Strip(t)))
  {
    var s := BotUsername + t;
    assert s[..|BotUsername|] == BotUsername;
    assert s[|BotUsername|..] == t;
    ContainsAt(s, BotUsername, 0) by { assert s[0..] == s; }
    ReplaceAbsent(t, BotUsername, "");
    assert ReplaceAll(s, BotUsername, "") == "" + ReplaceAll(t, BotUsername, "");
    assert "" + t == t;
  }
}
