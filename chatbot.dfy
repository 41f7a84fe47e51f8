/** The `SimpleChatbot` object (myChatBot.py:7-229): its three mutable
    fields (the conversation log, the session memory and the learned-reply
    table), the fixed category table, and the methods that update them in
    place. What a turn answers is specified by `Responder.Reply`; the
    methods here are proved to compute it and to change exactly the fields
    the source changes. */
module Bot {
  import opened Choice
  import opened Text
  import opened Normalize
  import opened Patterns
  import opened Names
  import opened Responder

  /** One record of the conversation log; `botResponse` is `None` until the
      reply of the turn has been computed. */
  datatype Exchange = Exchange(timestamp: string, user: string, botResponse: Option<string>)

  /** The dictionary returned by `get_conversation_summary`. */
  datatype Summary = Summary(totalExchanges: nat, userName: Option<string>, learnedResponses: nat,
                             conversationStart: Option<string>)

  /** The contents of a saved conversation file, each field present or not. */
  datatype SavedData = SavedData(conversationHistory: Option<seq<Exchange>>, userData: Option<map<string, string>>,
                                 learningResponses: Option<LearnedTable>)

  /** `d.get(key, default)`. */
  function GetOr<T>(o: Option<T>, default: T): T {
    match o
    case Some(v) => v
    case None => default
  }

  /** The summary of a state: how many exchanges were logged, the stored
      name, how many distinct inputs were taught and when the log started. */
  function Summarize(history: seq<Exchange>, userData: map<string, string>, learned: LearnedTable): (s: Summary)
    ensures s.totalExchanges == |history| && s.learnedResponses == |learned|
    ensures s.userName.Some? <==> "name" in userData
    ensures s.userName.Some? ==> s.userName.value == userData["name"]
    ensures s.conversationStart.Some? <==> history != []
    ensures s.conversationStart.Some? ==> s.conversationStart.value == history[0].timestamp
  {
    Summary(|history|,
            if "name" in userData then Some(userData["name"]) else None,
            |learned|,
            if history != [] then Some(history[0].timestamp) else None)
  }

  /** A logged turn adds one exchange to the summary and keeps the start of
      the conversation, which is the new timestamp when the log was empty. */
  lemma SummaryAfterLoggedTurn(history: seq<Exchange>, userData: map<string, string>, learned: LearnedTable,
                               entry: Exchange)
    ensures var before := Summarize(history, userData, learned);
      var after := Summarize(history + [entry], userData, learned);
      && after.totalExchanges == before.totalExchanges + 1
      && after.conversationStart == (if history == [] then Some(entry.timestamp) else before.conversationStart)
      && after.learnedResponses == before.learnedResponses
  {
    if history != [] {
      assert (history + [entry])[0] == history[0];
    }
  }

  /** Teaching counts a new distinct input exactly when its normalised form
      was not taught before. */
  lemma SummaryAfterLearn(history: seq<Exchange>, userData: map<string, string>, learned: LearnedTable,
                          userInput: string, expectedResponse: string)
    ensures var before := Summarize(history, userData, learned);
      var after := Summarize(history, userData, Learn(learned, userInput, expectedResponse));
      && after.learnedResponses
         == before.learnedResponses + (if PreprocessInput(userInput) in learned then 0 else 1)
      && after.totalExchanges == before.totalExchanges
  {
    var key := PreprocessInput(userInput);
    var t := Learn(learned, userInput, expectedResponse);
    if key in learned {
      assert t.Keys == learned.Keys;
    } else {
      assert t.Keys == learned.Keys + {key};
      assert |t.Keys| == |learned.Keys| + 1;
    }
  }

  class SimpleChatbot {
    const name: string
    const responsePatterns: seq<Category>
    var conversationHistory: seq<Exchange>
    var userData: map<string, string>
    var learningResponses: LearnedTable

    /** The category table is well formed and every learned input has at
        least one reply, so every random draw is over a non-empty list. */
    predicate Valid()
      reads this
    {
      TableWellFormed(responsePatterns) && AllNonEmpty(learningResponses)
    }

    /** `__init__`: empty log, memory and learned table; the fixed table. */
    constructor ()
      ensures Valid()
      ensures name == BOT_NAME && responsePatterns == InitializePatterns()
      ensures conversationHistory == [] && userData == map[] && learningResponses == map[]
    {
      name := BOT_NAME;
      responsePatterns := InitializePatterns();
      conversationHistory := [];
      userData := map[];
      learningResponses := map[];
    }

    /** `learn_from_user`: create the list under the normalised input if it
        is absent, then append the reply; nothing else changes. */
    method LearnFromUser(userInput: string, expectedResponse: string)
      requires Valid()
      modifies this
      ensures Valid()
      ensures learningResponses == Learn(old(learningResponses), userInput, expectedResponse)
      ensures conversationHistory == old(conversationHistory) && userData == old(userData)
    {
      var key := PreprocessInput(userInput);
      ghost var before := learningResponses;
      if key !in learningResponses {
        learningResponses := learningResponses[key := []];
      }
      learningResponses := learningResponses[key := learningResponses[key] + [expectedResponse]];
      assert learningResponses == before[key := (if key in before then before[key] else []) + [expectedResponse]];
    }

    /** `remember_user_info`: store one value; it is recalled under its key
        and every other key recalls what it did before. */
    method RememberUserInfo(key: string, value: string)
      requires Valid()
      modifies this
      ensures Valid()
      ensures userData == old(userData)[key := value]
      ensures RecallUserInfo(key) == Some(value)
      ensures forall other :: other != key ==> RecallUserInfo(other) == old(RecallUserInfo(other))
      ensures conversationHistory == old(conversationHistory) && learningResponses == old(learningResponses)
    {
      userData := userData[key := value];
    }

    /** `recall_user_info`: `user_data.get(key, None)`. */
    function RecallUserInfo(key: string): (r: Option<string>)
      reads this
      ensures r.Some? <==> key in userData
      ensures r.Some? ==> r.value == userData[key]
    {
      if key in userData then Some(userData[key]) else None
    }

    /** `_extract_user_name`: try the name patterns in order on the
        lower-cased input; the first that matches stores the capitalised
        captured word as the name and yields the acknowledgement. */
    method ExtractUserName(userInput: string) returns (nameResponse: Option<string>)
      requires Valid()
      modifies this
      ensures Valid()
      ensures match ExtractedName(userInput)
        case None => nameResponse == None && userData == old(userData)
        case Some(n) => nameResponse == Some(NameAck(n)) && userData == old(userData)["name" := n]
      ensures conversationHistory == old(conversationHistory) && learningResponses == old(learningResponses)
    {
      var lowered := Lower(userInput);
      for k := 0 to |NAME_PATTERNS|
        invariant NameFromPatterns(lowered, k) == ExtractedName(userInput)
        invariant userData == old(userData)
        invariant conversationHistory == old(conversationHistory) && learningResponses == old(learningResponses)
      {
        var found := SearchName(lowered, NAME_PATTERNS[k], 0);
        if found.Some? {
          var userName := Capitalize(Captured(lowered, NAME_PATTERNS[k], found.value));
          RememberUserInfo("name", userName);
          return Some(NameAck(userName));
        }
      }
      return None;
    }

    /** `conversation_history[-1]['bot_response'] = response`. */
    method RecordReply(response: string)
      requires Valid() && conversationHistory != []
      modifies this
      ensures Valid()
      ensures conversationHistory
        == old(conversationHistory)[..|old(conversationHistory)| - 1]
           + [old(conversationHistory)[|old(conversationHistory)| - 1].(botResponse := Some(response))]
      ensures userData == old(userData) && learningResponses == old(learningResponses)
    {
      var last := |conversationHistory| - 1;
      conversationHistory := conversationHistory[last := conversationHistory[last].(botResponse := Some(response))];
    }

    /** `get_response`: the reply is the one `Reply` specifies for the state
        before the turn; a blank input changes nothing, any other input
        appends exactly one exchange recording the raw input and the reply,
        and only a name found in it changes the session memory. */
    method GetResponse(userInput: string, timestamp: string, learnedPick: nat, replyPick: nat)
      returns (response: string)
      requires Valid()
      modifies this
      ensures Valid()
      ensures response == Reply(responsePatterns, old(userData), old(learningResponses), userInput, learnedPick, replyPick)
      ensures conversationHistory
        == if IsBlank(userInput) then old(conversationHistory)
           else old(conversationHistory) + [Exchange(timestamp, userInput, Some(response))]
      ensures userData == TurnUserData(old(userData), userInput)
      ensures learningResponses == old(learningResponses)
    {
      if Strip(userInput) == [] {
        BlankInput(responsePatterns, userData, learningResponses, userInput, learnedPick, replyPick);
        return EMPTY_INPUT_REPLY;
      }
      conversationHistory := conversationHistory + [Exchange(timestamp, userInput, None)];

      var nameResponse := ExtractUserName(userInput);
      if nameResponse.Some? {
        NameExtractedReply(responsePatterns, old(userData), learningResponses, userInput, learnedPick, replyPick,
                           ExtractedName(userInput).value);
        RecordReply(nameResponse.value);
        return nameResponse.value;
      }

      var learnedResponse := CheckLearnedResponses(learningResponses, userInput, learnedPick);
      if learnedResponse.Some? && learnedResponse.value != [] {
        LearnedHit(responsePatterns, userData, learningResponses, userInput, learnedPick, replyPick);
        UserDataKeptWithoutName(userData, userInput);
        RecordReply(learnedResponse.value);
        return learnedResponse.value;
      }

      LearnedMissGoesToCategories(responsePatterns, userData, learningResponses, userInput, learnedPick, replyPick);
      response := RespondFromPatterns(userInput, replyPick);
      RecordReply(response);
    }

    /** The category stage of `get_response`: the reply of the first
        matching category, personalised when a non-empty name is stored and
        the category is a greeting or "how are you"; a fallback reply when
        no category matches. */
    method RespondFromPatterns(userInput: string, replyPick: nat) returns (response: string)
      requires Valid()
      ensures response == CategoryReply(responsePatterns, userData, userInput, replyPick)
    {
      var category, matched := FindPatternMatch(responsePatterns, userInput, replyPick);
      if matched.Some? && matched.value != [] {
        response := matched.value;
        var userName := RecallUserInfo("name");
        if userName.Some? && userName.value != [] && category.Some? && Personalised(category.value) {
          response := Personalize(response, userName.value);
        }
      } else {
        response := GenerateFallbackResponse(userInput, replyPick);
      }
    }

    /** `get_conversation_summary`: the stored name is the one
        `recall_user_info('name')` gives. */
    function GetConversationSummary(): (s: Summary)
      reads this
      ensures s.totalExchanges == |conversationHistory| && s.learnedResponses == |learningResponses|
      ensures s.userName == RecallUserInfo("name")
    {
      Summarize(conversationHistory, userData, learningResponses)
    }

    /** The data `save_conversation` writes: all three mutable fields. */
    function SaveConversation(): (data: SavedData)
      reads this
      ensures data.conversationHistory == Some(conversationHistory)
      ensures data.userData == Some(userData)
      ensures data.learningResponses == Some(learningResponses)
    {
      SavedData(Some(conversationHistory), Some(userData), Some(learningResponses))
    }

    /** `load_conversation`: `None` is a missing file and changes nothing;
        otherwise each field is replaced wholesale, by an empty value when
        the file lacks it. Every loaded learned input must have a reply. */
    method LoadConversation(file: Option<SavedData>)
      requires Valid()
      requires file.Some? && file.value.learningResponses.Some? ==> AllNonEmpty(file.value.learningResponses.value)
      modifies this
      ensures Valid()
      ensures file.None? ==> conversationHistory == old(conversationHistory) && userData == old(userData)
                             && learningResponses == old(learningResponses)
      ensures file.Some? ==> conversationHistory == GetOr(file.value.conversationHistory, [])
                             && userData == GetOr(file.value.userData, map[])
                             && learningResponses == GetOr(file.value.learningResponses, map[])
    {
      if file.Some? {
        var data := file.value;
        conversationHistory := GetOr(data.conversationHistory, []);
        userData := GetOr(data.userData, map[]);
        learningResponses := GetOr(data.learningResponses, map[]);
      }
    }
  }

  /** A new bot that loads what `bot` saved has the same log, memory and
      learned table as `bot`. */
  method SaveLoadRoundTrip(bot: SimpleChatbot) returns (restored: SimpleChatbot)
    requires bot.Valid()
    ensures restored.Valid()
    ensures restored.conversationHistory == bot.conversationHistory
    ensures restored.userData == bot.userData
    ensures restored.learningResponses == bot.learningResponses
  {
    var data := bot.SaveConversation();
    restored := new SimpleChatbot();
    restored.LoadConversation(Some(data));
  }
}
