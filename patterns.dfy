/** The fixed category table (`_initialize_patterns`, myChatBot.py:19-90),
    the first-match category search (`_find_pattern_match`,
    myChatBot.py:96-106) and the fallback replies
    (`_generate_fallback_response`, myChatBot.py:108-118). */
module Patterns {
  import opened Choice
  import opened Text
  import opened Normalize

  const BOT_NAME: string := "PyBot"

  datatype CategoryId =
    | Greeting | Goodbye | HowAreYou | NameQuestion | AgeQuestion | Help | Thanks | Weather

  /** The category identifiers in the order the table declares them. */
  const DECLARED_ORDER: seq<CategoryId> :=
    [Greeting, Goodbye, HowAreYou, NameQuestion, AgeQuestion, Help, Thanks, Weather]

  /** A category: its literal match patterns and its candidate replies. */
  datatype Category = Category(id: CategoryId, patterns: seq<string>, responses: seq<string>)

  /** `_initialize_patterns`: the table in declared order (the earliest
      matching category wins). */
  function InitializePatterns(): (cats: seq<Category>)
    ensures |cats| == |DECLARED_ORDER| && TableWellFormed(cats)
    ensures forall k :: 0 <= k < |cats| ==> cats[k].id == DECLARED_ORDER[k]
  {
    CategoriesWellFormed();
    [Category(Greeting, GREETING_PATTERNS, GREETING_RESPONSES),
     Category(Goodbye, GOODBYE_PATTERNS, GOODBYE_RESPONSES),
     Category(HowAreYou, HOW_ARE_YOU_PATTERNS, HOW_ARE_YOU_RESPONSES),
     Category(NameQuestion, NAME_QUESTION_PATTERNS, NAME_QUESTION_RESPONSES),
     Category(AgeQuestion, AGE_QUESTION_PATTERNS, AGE_QUESTION_RESPONSES),
     Category(Help, HELP_PATTERNS, HELP_RESPONSES),
     Category(Thanks, THANKS_PATTERNS, THANKS_RESPONSES),
     Category(Weather, WEATHER_PATTERNS, WEATHER_RESPONSES)]
  }

  const GREETING_PATTERNS: seq<string> := ["hello", "hi", "hey", "good morning", "good afternoon"]
  const GREETING_RESPONSES: seq<string> :=
    ["Hello! How can I help you today?",
     "Hi there! What's on your mind?",
     "Hey! Nice to meet you!",
     "Hello! I'm " + BOT_NAME + ", ready to chat!"]

  const GOODBYE_PATTERNS: seq<string> := ["bye", "goodbye", "see you", "farewell"]
  const GOODBYE_RESPONSES: seq<string> :=
    ["Goodbye! Have a great day!",
     "See you later! Take care!",
     "Bye! It was nice talking with you!",
     "Farewell! Come back anytime!"]

  const HOW_ARE_YOU_PATTERNS: seq<string> := ["how are you", "how do you feel", "are you okay"]
  const HOW_ARE_YOU_RESPONSES: seq<string> :=
    ["I'm doing well, thank you for asking!",
     "I'm great! How about you?",
     "I'm functioning perfectly! How are you?",
     "All systems running smoothly! What about you?"]

  const NAME_QUESTION_PATTERNS: seq<string> := ["what is your name", "who are you", "your name"]
  const NAME_QUESTION_RESPONSES: seq<string> :=
    ["I'm " + BOT_NAME + ", your AI assistant!",
     "My name is " + BOT_NAME + ". What's yours?",
     "I go by " + BOT_NAME + ". Nice to meet you!"]

  const AGE_QUESTION_PATTERNS: seq<string> := ["how old are you", "your age", "age"]
  const AGE_QUESTION_RESPONSES: seq<string> :=
    ["I was just created, so I'm brand new!",
     "Age is just a number for an AI like me!",
     "I exist in the eternal now of computing!"]

  const HELP_PATTERNS: seq<string> := ["help", "what can you do", "commands"]
  const HELP_RESPONSES: seq<string> :=
    ["I can chat with you, remember our conversation, learn from you, and answer questions!",
     "Try asking me about myself, tell me about you, or just have a normal conversation!",
     "I'm here to chat! Ask me anything or tell me about your day!"]

  const THANKS_PATTERNS: seq<string> := ["thank you", "thanks", "thx"]
  const THANKS_RESPONSES: seq<string> :=
    ["You're welcome! Happy to help!",
     "No problem at all!",
     "Glad I could help!",
     "Anytime! That's what I'm here for!"]

  const WEATHER_PATTERNS: seq<string> := ["weather", "temperature", "sunny", "rain"]
  const WEATHER_RESPONSES: seq<string> :=
    ["I wish I could check the weather for you! Try looking outside or checking a weather app.",
     "I don't have access to current weather data, but I hope it's nice where you are!",
     "Weather is always interesting to talk about! What's it like outside?"]

  /** Each category of the table has patterns and non-empty replies. */
  lemma CategoriesWellFormed()
    ensures WellFormedCategory(GREETING_PATTERNS, GREETING_RESPONSES)
    ensures WellFormedCategory(GOODBYE_PATTERNS, GOODBYE_RESPONSES)
    ensures WellFormedCategory(HOW_ARE_YOU_PATTERNS, HOW_ARE_YOU_RESPONSES)
    ensures WellFormedCategory(NAME_QUESTION_PATTERNS, NAME_QUESTION_RESPONSES)
    ensures WellFormedCategory(AGE_QUESTION_PATTERNS, AGE_QUESTION_RESPONSES)
    ensures WellFormedCategory(HELP_PATTERNS, HELP_RESPONSES)
    ensures WellFormedCategory(THANKS_PATTERNS, THANKS_RESPONSES)
    ensures WellFormedCategory(WEATHER_PATTERNS, WEATHER_RESPONSES)
  {
  }

  /** A category has patterns and replies, and no reply is empty. */
  predicate WellFormedCategory(patterns: seq<string>, responses: seq<string>) {
    && |patterns| > 0 && |responses| > 0
    && forall j :: 0 <= j < |responses| ==> responses[j] != []
  }

  /** Every category has patterns and non-empty replies, and no two share
      an identifier. */
  predicate TableWellFormed(cats: seq<Category>) {
    && (forall k :: 0 <= k < |cats| ==> WellFormedCategory(cats[k].patterns, cats[k].responses))
    && (forall k, j :: 0 <= k < j < |cats| ==> cats[k].id != cats[j].id)
  }

  /** Some pattern of `c` is found in `text`. */
  predicate Matches(c: Category, text: string) {
    exists j :: 0 <= j < |c.patterns| && Contains(text, c.patterns[j])
  }

  /** Index of the first category of `cats`, from `k` on, that matches `text`. */
  function FirstMatchFrom(cats: seq<Category>, text: string, k: nat): (r: Option<nat>)
    requires k <= |cats|
    ensures r.Some? ==> k <= r.value < |cats| && Matches(cats[r.value], text)
    ensures r.Some? ==> forall j :: k <= j < r.value ==> !Matches(cats[j], text)
    ensures r.None? <==> forall j :: k <= j < |cats| ==> !Matches(cats[j], text)
    decreases |cats| - k
  {
    if k == |cats| then None
    else if Matches(cats[k], text) then Some(k)
    else FirstMatchFrom(cats, text, k + 1)
  }

  /** Index of the earliest category of `cats`, in order, that matches `text`. */
  function FirstMatch(cats: seq<Category>, text: string): (r: Option<nat>)
    ensures r.Some? ==> r.value < |cats| && Matches(cats[r.value], text)
    ensures r.Some? ==> forall j :: 0 <= j < r.value ==> !Matches(cats[j], text)
    ensures r.None? <==> forall j :: 0 <= j < |cats| ==> !Matches(cats[j], text)
  {
    FirstMatchFrom(cats, text, 0)
  }

  /** A matching category with no matching category before it is the first
      match. */
  lemma FirstMatchUnique(cats: seq<Category>, text: string, k: nat)
    requires k < |cats| && Matches(cats[k], text)
    requires forall j :: 0 <= j < k ==> !Matches(cats[j], text)
    ensures FirstMatch(cats, text) == Some(k)
  {
  }

  /** `_find_pattern_match` over the table `cats`: the categories in order
      and, inside each, its patterns in order. The first pattern found in the
      normalised input selects its category and one of that category's
      replies. */
  method FindPatternMatch(cats: seq<Category>, userInput: string, pick: nat)
    returns (category: Option<CategoryId>, response: Option<string>)
    requires TableWellFormed(cats)
    ensures match FirstMatch(cats, PreprocessInput(userInput))
      case None => category == None && response == None
      case Some(k) =>
        category == Some(cats[k].id) && response == Some(Choose(cats[k].responses, pick))
  {
    var processedInput := PreprocessInput(userInput);
    for k := 0 to |cats|
      invariant forall j :: 0 <= j < k ==> !Matches(cats[j], processedInput)
    {
      var data := cats[k];
      for m := 0 to |data.patterns|
        invariant forall j :: 0 <= j < m ==> !Contains(processedInput, data.patterns[j])
      {
        if Contains(processedInput, data.patterns[m]) {
          assert Matches(cats[k], processedInput);
          FirstMatchUnique(cats, processedInput, k);
          return Some(data.id), Some(Choose(data.responses, pick));
        }
      }
      assert !Matches(cats[k], processedInput);
    }
    return None, None;
  }

  /** The five fallback replies that do not depend on the input. */
  const FALLBACK_FIXED: seq<string> :=
    ["That's interesting! Tell me more about that.",
     "I'm not sure I understand completely. Can you elaborate?",
     "Hmm, that's something new for me. What do you think about it?",
     "I'd love to learn more about what you just said!",
     "That's a unique perspective! Can you explain further?"]

  /** The six fallback replies; the last quotes the raw input. */
  function FallbackResponses(userInput: string): seq<string> {
    FALLBACK_FIXED + ["You mentioned '" + userInput + "' - that sounds intriguing!"]
  }

  /** `_generate_fallback_response`: one of the fallback replies, never empty. */
  function GenerateFallbackResponse(userInput: string, pick: nat): (r: string)
    ensures r in FallbackResponses(userInput)
    ensures r != []
  {
    Choose(FallbackResponses(userInput), pick)
  }
}
