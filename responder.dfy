/** What one turn of `get_response` (myChatBot.py:159-197) answers, as a
    function of the state before the turn, together with the learned-reply
    table (`learn_from_user`, myChatBot.py:120-125, and
    `_check_learned_responses`, myChatBot.py:127-132). The lemmas state the
    priority order of the pipeline: empty-input guard, name extraction,
    learned reply, first matching category (personalised for greetings and
    "how are you"), fallback. */
module Responder {
  import opened Choice
  import opened Text
  import opened Normalize
  import opened Patterns
  import opened Names

  /** Normalised trigger text to the replies learned for it, oldest first. */
  type LearnedTable = map<string, seq<string>>

  /** Every learned key holds at least one reply, so drawing one of them
      cannot fail. */
  predicate AllNonEmpty(table: LearnedTable) {
    forall key :: key in table ==> |table[key]| > 0
  }

  /** The table after `learn_from_user(userInput, expectedResponse)`: the
      reply is appended to the list under the normalised input, which is
      created if absent; nothing else changes. */
  function Learn(table: LearnedTable, userInput: string, expectedResponse: string): (t: LearnedTable)
    ensures var key := PreprocessInput(userInput);
      && t.Keys == table.Keys + {key}
      && (forall other :: other in table && other != key ==> t[other] == table[other])
      && |t[key]| == (if key in table then |table[key]| else 0) + 1
      && (key in table ==> t[key][..|table[key]|] == table[key])
      && t[key][|t[key]| - 1] == expectedResponse
    ensures AllNonEmpty(table) ==> AllNonEmpty(t)
  {
    var key := PreprocessInput(userInput);
    var replies := if key in table then table[key] else [];
    table[key := replies + [expectedResponse]]
  }

  /** `_check_learned_responses`: a reply is drawn exactly when the
      normalised input is a learned key, and it is one learned for that key. */
  function CheckLearnedResponses(table: LearnedTable, userInput: string, pick: nat): (r: Option<string>)
    requires AllNonEmpty(table)
    ensures r.Some? <==> PreprocessInput(userInput) in table
    ensures r.Some? ==> r.value in table[PreprocessInput(userInput)]
  {
    var key := PreprocessInput(userInput);
    if key in table then Some(Choose(table[key], pick)) else None
  }

  const EMPTY_INPUT_REPLY: string := "I didn't catch that. Could you say something?"

  /** `f"{response.split('!')[0]}, {name}!"`: the reply up to its first `!`,
      then the name. */
  function Personalize(response: string, name: string): (r: string)
    ensures |r| == |BeforeFirst(response, '!')| + |name| + 3
    ensures r[|r| - |name| - 3..] == ", " + name + "!"
    ensures var head := r[..|r| - |name| - 3];
      && head == response[..|head|]
      && '!' !in head
      && (|head| == |response| || response[|head|] == '!')
  {
    var head := BeforeFirst(response, '!');
    var r := head + ", " + name + "!";
    assert r[..|head|] == head;
    r
  }

  /** The greeting and "how are you" replies are the ones personalised. */
  predicate Personalised(id: CategoryId) {
    id == Greeting || id == HowAreYou
  }

  /** The stored name when it is truthy: present and non-empty. */
  function KnownName(userData: map<string, string>): (r: Option<string>)
    ensures r.Some? <==> "name" in userData && userData["name"] != []
    ensures r.Some? ==> r.value == userData["name"]
  {
    if "name" in userData && userData["name"] != [] then Some(userData["name"]) else None
  }

  /** The category stage of the pipeline and its fallback. */
  function CategoryReply(cats: seq<Category>, userData: map<string, string>, userInput: string, pick: nat): (r: string)
    requires TableWellFormed(cats)
    ensures r != []
  {
    match FirstMatch(cats, PreprocessInput(userInput))
    case Some(k) =>
      var response := Choose(cats[k].responses, pick);
      if response != [] then
        if KnownName(userData).Some? && Personalised(cats[k].id) then
          Personalize(response, KnownName(userData).value)
        else response
      else GenerateFallbackResponse(userInput, pick)
    case None => GenerateFallbackResponse(userInput, pick)
  }

  /** The reply of one turn, given the session memory and the learned table
      before the turn. `learnedPick` drives the draw among learned replies,
      `replyPick` the draw among category or fallback replies. Every reply
      is non-empty. */
  function Reply(cats: seq<Category>, userData: map<string, string>, learned: LearnedTable,
                 userInput: string, learnedPick: nat, replyPick: nat): (r: string)
    requires TableWellFormed(cats) && AllNonEmpty(learned)
    ensures r != []
  {
    if IsBlank(userInput) then EMPTY_INPUT_REPLY
    else match ExtractedName(userInput)
      case Some(name) => NameAck(name)
      case None =>
        var learnedResponse := CheckLearnedResponses(learned, userInput, learnedPick);
        if learnedResponse.Some? && learnedResponse.value != [] then learnedResponse.value
        else CategoryReply(cats, userData, userInput, replyPick)
  }

  /** The session memory after one turn: only a name found in a non-blank
      input is stored. */
  function TurnUserData(userData: map<string, string>, userInput: string): (r: map<string, string>)
    ensures r.Keys == userData.Keys + (if !IsBlank(userInput) && ExtractedName(userInput).Some? then {"name"} else {})
    ensures forall key :: key in userData && key != "name" ==> r[key] == userData[key]
    ensures "name" in r ==> ExtractedName(userInput) == Some(r["name"]) || ("name" in userData && r["name"] == userData["name"])
  {
    if !IsBlank(userInput) && ExtractedName(userInput).Some? then
      userData["name" := ExtractedName(userInput).value]
    else userData
  }

  /** A turn from which no name is extracted leaves the session memory as
      it was. */
  lemma UserDataKeptWithoutName(userData: map<string, string>, userInput: string)
    requires ExtractedName(userInput) == None
    ensures TurnUserData(userData, userInput) == userData
  {
  }

  /** A non-blank turn from which `name` is extracted stores it. */
  lemma UserDataStoresName(userData: map<string, string>, userInput: string, name: string)
    requires !IsBlank(userInput) && ExtractedName(userInput) == Some(name)
    ensures TurnUserData(userData, userInput) == userData["name" := name]
  {
  }

  /** Blank input gets the prompt-again reply and stores nothing. */
  lemma BlankInput(cats: seq<Category>, userData: map<string, string>, learned: LearnedTable, userInput: string,
                   learnedPick: nat, replyPick: nat)
    requires TableWellFormed(cats) && AllNonEmpty(learned) && IsBlank(userInput)
    ensures Reply(cats, userData, learned, userInput, learnedPick, replyPick) == EMPTY_INPUT_REPLY
    ensures TurnUserData(userData, userInput) == userData
  {
  }

  /** A non-blank input from which `name` is extracted is acknowledged and
      the name is stored. */
  lemma NameExtractedReply(cats: seq<Category>, userData: map<string, string>, learned: LearnedTable, userInput: string,
                           learnedPick: nat, replyPick: nat, name: string)
    requires TableWellFormed(cats) && AllNonEmpty(learned) && !IsBlank(userInput)
    requires ExtractedName(userInput) == Some(name)
    ensures Reply(cats, userData, learned, userInput, learnedPick, replyPick) == NameAck(name)
    ensures TurnUserData(userData, userInput) == userData["name" := name]
  {
    UserDataStoresName(userData, userInput, name);
  }

  /** Name extraction short-circuits: the first name pattern that matches
      anywhere, at its leftmost match, decides the reply and the stored
      name; no learned or category reply is considered. */
  lemma NameShortCircuits(cats: seq<Category>, userData: map<string, string>, learned: LearnedTable, userInput: string,
                          learnedPick: nat, replyPick: nat, p: nat, i: nat)
    requires TableWellFormed(cats) && AllNonEmpty(learned) && !IsBlank(userInput)
    requires p < |NAME_PATTERNS| && NameMatchAt(Lower(userInput), NAME_PATTERNS[p], i)
    requires forall q, j :: 0 <= q < p ==> !NameMatchAt(Lower(userInput), NAME_PATTERNS[q], j)
    requires forall j :: 0 <= j < i ==> !NameMatchAt(Lower(userInput), NAME_PATTERNS[p], j)
    ensures var name := Capitalize(Captured(Lower(userInput), NAME_PATTERNS[p], i));
      && Reply(cats, userData, learned, userInput, learnedPick, replyPick) == NameAck(name)
      && TurnUserData(userData, userInput) == userData["name" := name]
  {
    var lowered := Lower(userInput);
    FirstPatternLeftmostMatch(lowered, 0, p, i);
    var name := Capitalize(Captured(lowered, NAME_PATTERNS[p], i));
    NameExtractedReply(cats, userData, learned, userInput, learnedPick, replyPick, name);
  }

  /** A learned key whose drawn reply is non-empty answers the turn with
      that reply. */
  lemma LearnedHit(cats: seq<Category>, userData: map<string, string>, learned: LearnedTable, userInput: string,
                   learnedPick: nat, replyPick: nat)
    requires TableWellFormed(cats) && AllNonEmpty(learned) && !IsBlank(userInput) && ExtractedName(userInput) == None
    requires PreprocessInput(userInput) in learned
    requires Choose(learned[PreprocessInput(userInput)], learnedPick) != []
    ensures Reply(cats, userData, learned, userInput, learnedPick, replyPick)
      == Choose(learned[PreprocessInput(userInput)], learnedPick)
  {
    assert CheckLearnedResponses(learned, userInput, learnedPick)
      == Some(Choose(learned[PreprocessInput(userInput)], learnedPick));
  }

  /** Learned replies take precedence over categories: without a name, a
      learned key whose replies are non-empty answers with one of them, and
      the session memory is left alone. */
  lemma LearnedTakesPrecedence(cats: seq<Category>, userData: map<string, string>, learned: LearnedTable, userInput: string,
                               learnedPick: nat, replyPick: nat)
    requires TableWellFormed(cats) && AllNonEmpty(learned) && !IsBlank(userInput) && ExtractedName(userInput) == None
    requires PreprocessInput(userInput) in learned
    requires forall j :: 0 <= j < |learned[PreprocessInput(userInput)]| ==> learned[PreprocessInput(userInput)][j] != []
    ensures Reply(cats, userData, learned, userInput, learnedPick, replyPick) in learned[PreprocessInput(userInput)]
    ensures TurnUserData(userData, userInput) == userData
  {
    UserDataKeptWithoutName(userData, userInput);
    LearnedHit(cats, userData, learned, userInput, learnedPick, replyPick);
  }

  /** A learned reply equal to "" is falsy: the turn falls through to the
      category stage. */
  lemma EmptyLearnedReplyFallsThrough(cats: seq<Category>, userData: map<string, string>, learned: LearnedTable,
                                      userInput: string, learnedPick: nat, replyPick: nat)
    requires TableWellFormed(cats) && AllNonEmpty(learned) && !IsBlank(userInput) && ExtractedName(userInput) == None
    requires PreprocessInput(userInput) in learned
    requires Choose(learned[PreprocessInput(userInput)], learnedPick) == []
    ensures Reply(cats, userData, learned, userInput, learnedPick, replyPick)
      == CategoryReply(cats, userData, userInput, replyPick)
  {
  }

  /** Without a name, and without a learned key or with an empty learned
      reply drawn, the turn is answered by the category stage and the
      session memory is left alone. */
  lemma LearnedMissGoesToCategories(cats: seq<Category>, userData: map<string, string>, learned: LearnedTable,
                                    userInput: string, learnedPick: nat, replyPick: nat)
    requires TableWellFormed(cats) && AllNonEmpty(learned) && !IsBlank(userInput) && ExtractedName(userInput) == None
    requires var key := PreprocessInput(userInput);
      key !in learned || Choose(learned[key], learnedPick) == []
    ensures Reply(cats, userData, learned, userInput, learnedPick, replyPick)
      == CategoryReply(cats, userData, userInput, replyPick)
    ensures TurnUserData(userData, userInput) == userData
  {
    UserDataKeptWithoutName(userData, userInput);
    var key := PreprocessInput(userInput);
    if key in learned {
      assert CheckLearnedResponses(learned, userInput, learnedPick) == Some(Choose(learned[key], learnedPick));
    } else {
      assert CheckLearnedResponses(learned, userInput, learnedPick) == None;
    }
  }

  /** The category stage answers from the first matching category,
      personalised when it is a greeting or "how are you" and a name is
      known. */
  lemma CategoryReplyOfMatch(cats: seq<Category>, userData: map<string, string>, userInput: string, pick: nat, k: nat)
    requires TableWellFormed(cats) && FirstMatch(cats, PreprocessInput(userInput)) == Some(k)
    ensures var r := CategoryReply(cats, userData, userInput, pick);
      if KnownName(userData).Some? && Personalised(cats[k].id) then
        r == Personalize(Choose(cats[k].responses, pick), KnownName(userData).value)
      else r in cats[k].responses
  {
    assert Choose(cats[k].responses, pick) != [];
  }

  /** Category search is first-match-wins: when neither a name nor a learned
      reply answers, the earliest matching category in declared order
      supplies the reply, personalised when it is a greeting or "how are
      you" and a name is known. */
  lemma CategoryFirstMatchWins(cats: seq<Category>, userData: map<string, string>, learned: LearnedTable, userInput: string,
                               learnedPick: nat, replyPick: nat, k: nat)
    requires TableWellFormed(cats) && AllNonEmpty(learned) && !IsBlank(userInput) && ExtractedName(userInput) == None
    requires PreprocessInput(userInput) !in learned
    requires k < |cats| && Matches(cats[k], PreprocessInput(userInput))
    requires forall j :: 0 <= j < k ==> !Matches(cats[j], PreprocessInput(userInput))
    ensures var r := Reply(cats, userData, learned, userInput, learnedPick, replyPick);
      if KnownName(userData).Some? && Personalised(cats[k].id) then
        r == Personalize(Choose(cats[k].responses, replyPick), KnownName(userData).value)
      else r in cats[k].responses
    ensures TurnUserData(userData, userInput) == userData
  {
    LearnedMissGoesToCategories(cats, userData, learned, userInput, learnedPick, replyPick);
    FirstMatchUnique(cats, PreprocessInput(userInput), k);
    CategoryReplyOfMatch(cats, userData, userInput, replyPick, k);
  }

  /** With no name, no learned key and no matching category the reply is
      one of the fallback replies. */
  lemma FallbackWhenNothingMatches(cats: seq<Category>, userData: map<string, string>, learned: LearnedTable, userInput: string,
                                   learnedPick: nat, replyPick: nat)
    requires TableWellFormed(cats) && AllNonEmpty(learned) && !IsBlank(userInput) && ExtractedName(userInput) == None
    requires PreprocessInput(userInput) !in learned
    requires forall k :: 0 <= k < |cats| ==> !Matches(cats[k], PreprocessInput(userInput))
    ensures Reply(cats, userData, learned, userInput, learnedPick, replyPick) in FallbackResponses(userInput)
  {
    LearnedMissGoesToCategories(cats, userData, learned, userInput, learnedPick, replyPick);
  }

  /** A key whose replies end with a newly appended `reply` answers with
      `reply` or with one of the replies learned before it. */
  lemma ServedFromAppended(cats: seq<Category>, userData: map<string, string>, table: LearnedTable, userInput: string,
                            prior: seq<string>, reply: string, learnedPick: nat, replyPick: nat)
    requires TableWellFormed(cats) && AllNonEmpty(table) && !IsBlank(userInput) && ExtractedName(userInput) == None
    requires PreprocessInput(userInput) in table && table[PreprocessInput(userInput)] == prior + [reply]
    requires reply != [] && forall j :: 0 <= j < |prior| ==> prior[j] != []
    ensures var r := Reply(cats, userData, table, userInput, learnedPick, replyPick);
      r == reply || r in prior
  {
    var drawn := Choose(table[PreprocessInput(userInput)], learnedPick);
    assert drawn == reply || drawn in prior;
    assert drawn != [];
    LearnedHit(cats, userData, table, userInput, learnedPick, replyPick);
  }

  /** Every non-empty reply learned for a key is drawn by some pick. */
  lemma LearnedReplyReachable(cats: seq<Category>, userData: map<string, string>, table: LearnedTable, userInput: string,
                               reply: string, replyPick: nat)
    requires TableWellFormed(cats) && AllNonEmpty(table) && !IsBlank(userInput) && ExtractedName(userInput) == None
    requires PreprocessInput(userInput) in table && reply in table[PreprocessInput(userInput)] && reply != []
    ensures exists pick: nat :: Reply(cats, userData, table, userInput, pick, replyPick) == reply
  {
    var replies := table[PreprocessInput(userInput)];
    ChooseCovers(replies, reply);
    var pick: nat :| Choose(replies, pick) == reply;
    LearnedHit(cats, userData, table, userInput, pick, replyPick);
  }

  /** After teaching `reply` for `trigger`, any input with the same
      normalised form from which no name is extracted is answered with
      `reply` or with a reply learned earlier for that key (provided the
      learned replies are non-empty), and some draw gives `reply` itself. */
  lemma LearnedReplyIsServed(cats: seq<Category>, userData: map<string, string>, learned: LearnedTable,
                             trigger: string, reply: string, userInput: string,
                             learnedPick: nat, replyPick: nat)
    requires TableWellFormed(cats) && AllNonEmpty(learned) && !IsBlank(userInput) && ExtractedName(userInput) == None
    requires PreprocessInput(userInput) == PreprocessInput(trigger)
    requires reply != []
    requires var key := PreprocessInput(trigger);
      key in learned ==> forall j :: 0 <= j < |learned[key]| ==> learned[key][j] != []
    ensures var key := PreprocessInput(trigger);
      var r := Reply(cats, userData, Learn(learned, trigger, reply), userInput, learnedPick, replyPick);
      r == reply || (key in learned && r in learned[key])
    ensures exists pick: nat :: Reply(cats, userData, Learn(learned, trigger, reply), userInput, pick, replyPick) == reply
  {
    var key := PreprocessInput(trigger);
    var prior := if key in learned then learned[key] else [];
    var table := Learn(learned, trigger, reply);
    ServedFromAppended(cats, userData, table, userInput, prior, reply, learnedPick, replyPick);
    LearnedReplyReachable(cats, userData, table, userInput, reply, replyPick);
  }
}
