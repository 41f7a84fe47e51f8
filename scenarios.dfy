/** Concrete turns against the real category table that show the quirks
    of the source: substring matching of category patterns, the loose name
    patterns and the personalised greeting. */
module Scenarios {
  import opened Choice
  import opened Text
  import opened Normalize
  import opened Patterns
  import opened Names
  import opened Responder

  /** The greeting pattern `hi` is found inside "this", so "this" is
      answered as a greeting. */
  lemma HiMatchesThis()
    ensures FirstMatch(InitializePatterns(), "this") == Some(0)
    ensures InitializePatterns()[0].id == Greeting
  {
    var cats := InitializePatterns();
    assert OccursAt("this", "hi", 1);
    assert Contains("this", cats[0].patterns[1]);
    FirstMatchUnique(cats, "this", 0);
  }

  /** A pattern whose first character does not occur where it could start
      is not found in `s`. */
  lemma AbsentFirstChar(s: string, p: string)
    requires p != []
    requires forall i :: 0 <= i <= |s| - |p| ==> s[i] != p[0]
    ensures !Contains(s, p)
  {
    forall i | 0 <= i <= |s| - |p|
      ensures !OccursAt(s, p, i)
    {
      assert s[i..i + |p|][0] == s[i];
    }
  }

  /** No pattern of the first four categories occurs in "message". */
  lemma MessageMissesFirstFour()
    ensures forall m :: 0 <= m < |GREETING_PATTERNS| ==> !Contains("message", GREETING_PATTERNS[m])
    ensures forall m :: 0 <= m < |GOODBYE_PATTERNS| ==> !Contains("message", GOODBYE_PATTERNS[m])
    ensures forall m :: 0 <= m < |HOW_ARE_YOU_PATTERNS| ==> !Contains("message", HOW_ARE_YOU_PATTERNS[m])
    ensures forall m :: 0 <= m < |NAME_QUESTION_PATTERNS| ==> !Contains("message", NAME_QUESTION_PATTERNS[m])
  {
    var s := "message";
    forall m | 0 <= m < |GREETING_PATTERNS| ensures !Contains(s, GREETING_PATTERNS[m]) {
      AbsentFirstChar(s, GREETING_PATTERNS[m]);
    }
    forall m | 0 <= m < |GOODBYE_PATTERNS| ensures !Contains(s, GOODBYE_PATTERNS[m]) {
      AbsentFirstChar(s, GOODBYE_PATTERNS[m]);
    }
    forall m | 0 <= m < |HOW_ARE_YOU_PATTERNS| ensures !Contains(s, HOW_ARE_YOU_PATTERNS[m]) {
      AbsentFirstChar(s, HOW_ARE_YOU_PATTERNS[m]);
    }
    forall m | 0 <= m < |NAME_QUESTION_PATTERNS| ensures !Contains(s, NAME_QUESTION_PATTERNS[m]) {
      AbsentFirstChar(s, NAME_QUESTION_PATTERNS[m]);
    }
  }

  /** "message" is answered by the age category, through the pattern
      `age` found inside it, since no earlier category matches. */
  lemma AgeMatchesMessage()
    ensures FirstMatch(InitializePatterns(), "message") == Some(4)
    ensures InitializePatterns()[4].id == AgeQuestion
  {
    var cats := InitializePatterns();
    assert OccursAt("message", "age", 4);
    assert Contains("message", cats[4].patterns[2]);
    MessageMissesFirstFour();
    FirstMatchUnique(cats, "message", 4);
  }

  /** A question that is all whitespace is taught under the empty key, but
      that key is never served: every input that normalises to it is blank
      and gets the prompt-again reply. */
  lemma BlankKeyNeverServed(cats: seq<Category>, userData: map<string, string>, learned: LearnedTable,
                            question: string, reply: string, userInput: string, learnedPick: nat, replyPick: nat)
    requires TableWellFormed(cats) && AllNonEmpty(learned)
    requires PreprocessInput(question) == [] && PreprocessInput(userInput) == []
    ensures "" in Learn(learned, question, reply)
    ensures Reply(cats, userData, Learn(learned, question, reply), userInput, learnedPick, replyPick) == EMPTY_INPUT_REPLY
  {
    BlankIffEmptyKey(userInput);
  }

  /** "i'm fine" is read as an introduction: the stored name is "Fine". */
  lemma ImFineIsAName()
    ensures ExtractedName("i'm fine") == Some("Fine")
  {
    var s := "i'm fine";
    assert Lower(s) == s;
    assert SearchName(s, NAME_PATTERNS[0], 0) == None;
    assert NameMatchAt(s, NAME_PATTERNS[1], 0);
    assert SearchName(s, NAME_PATTERNS[1], 0) == Some(0);
    assert WordRunEnd(s, 8) == 8;
    assert WordRunEnd(s, 4) == 8;
    assert Captured(s, NAME_PATTERNS[1], 0) == "fine";
    assert Capitalize("fine") == "Fine";
  }

  /** In "my name is alice" the first name pattern matches at the start
      and captures "alice". */
  lemma AliceIsCaptured()
    ensures SearchName("my name is alice", NAME_PATTERNS[0], 0) == Some(0)
    ensures Captured("my name is alice", NAME_PATTERNS[0], 0) == "alice"
  {
    var intro := "my name is alice";
    assert NameMatchAt(intro, NAME_PATTERNS[0], 0);
    assert WordRunEnd(intro, 16) == 16;
    assert WordRunEnd(intro, 11) == 16;
  }

  /** "My name is alice" is an introduction of "Alice". */
  lemma IntroductionOfAlice()
    ensures ExtractedName("My name is alice") == Some("Alice")
  {
    assert Lower("My name is alice") == "my name is alice";
    AliceIsCaptured();
    assert Capitalize("alice") == "Alice";
  }

  /** The turn "My name is alice" stores the name "Alice". */
  lemma IntroductionStoresAlice()
    ensures TurnUserData(map[], "My name is alice") == map["name" := "Alice"]
  {
    IntroductionOfAlice();
    assert !IsSpace('M');
    assert !IsBlank("My name is alice");
  }

  /** "Hello" normalises to "hello". */
  lemma HelloNormalised()
    ensures Lower("Hello") == "hello"
    ensures PreprocessInput("Hello") == "hello"
  {
    assert Lower("Hello") == "hello";
    StripFixedPoint("hello");
  }

  /** No name pattern matches in "hello". */
  lemma NoPatternInHello()
    ensures NameFromPatterns("hello", 0) == None
  {
    var hello := "hello";
    assert NameFromPatterns(hello, 4) == None;
    assert NameFromPatterns(hello, 3) == None by {
      assert SearchName(hello, NAME_PATTERNS[3], 0) == None;
    }
    assert NameFromPatterns(hello, 2) == None by {
      assert SearchName(hello, NAME_PATTERNS[2], 0) == None;
    }
    assert NameFromPatterns(hello, 1) == None by {
      assert hello[0..4][0] != NAME_PATTERNS[1][0];
      assert SearchName(hello, NAME_PATTERNS[1], 0) == None;
    }
    assert SearchName(hello, NAME_PATTERNS[0], 0) == None;
  }

  /** "Hello" introduces no name. */
  lemma HelloIsNoIntroduction()
    ensures ExtractedName("Hello") == None
  {
    HelloNormalised();
    NoPatternInHello();
  }

  /** "hello" is answered by the greeting category. */
  lemma HelloIsGreeting()
    ensures FirstMatch(InitializePatterns(), "hello") == Some(0)
  {
    var cats := InitializePatterns();
    assert OccursAt("hello", cats[0].patterns[0], 0);
    assert Contains("hello", cats[0].patterns[0]);
    FirstMatchUnique(cats, "hello", 0);
  }

  /** Once a name is stored (as "My name is alice" stores "Alice"), a
      "Hello" is answered with a greeting cut at its first `!` and
      addressed by that name. */
  lemma GreetingUsesStoredName(name: string, learnedPick: nat, replyPick: nat)
    requires name != []
    ensures var r := Reply(InitializePatterns(), map["name" := name], map[], "Hello", learnedPick, replyPick);
      && r == Personalize(Choose(GREETING_RESPONSES, replyPick), name)
      && r[|r| - |name| - 3..] == ", " + name + "!"
  {
    HelloNormalised();
    HelloIsNoIntroduction();
    HelloIsGreeting();
    var cats := InitializePatterns();
    var userData := map["name" := name];
    LearnedMissGoesToCategories(cats, userData, map[], "Hello", learnedPick, replyPick);
    CategoryReplyOfMatch(cats, userData, "Hello", replyPick, 0);
  }
}
