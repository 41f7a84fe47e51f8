# SimpleChatbot model

A Dafny model of `SimpleChatbot` (`myChatBot.py`). It is a rule-based chatbot with three mutable fields:

- a conversation log;
- a session memory (`user_data`), where the user's name is stored;
- a table of learned replies, keyed by the normalised user input.

Every turn of `get_response` runs one pipeline, in this order:

1. An empty-input guard.
2. A log append.
3. Name extraction ("my name is", "i'm", "i am", "call me").
4. A lookup of learned replies.
5. A first-match search over a fixed, ordered table of eight categories.
6. Personalisation of greeting and "how are you" replies with the stored name.
7. A fallback reply.

The project is organised as follows:

- `choice.dfy` (`Choice`): `random.choice` driven by an explicit pick.
- `text.dfy` (`Text`): the string operations the bot uses (`lower`, `strip`, `split`, `capitalize`, `\w`, literal search).
- `normalize.dfy` (`Normalize`): `_preprocess_input` and the blank-input test.
- `patterns.dfy` (`Patterns`): the category table, `_find_pattern_match` and `_generate_fallback_response`.
- `names.dfy` (`Names`): the name patterns as a leftmost-match scanner with a greedy `(\w+)` capture.
- `responder.dfy` (`Responder`): the reply of one turn as a function `Reply` of the state before the turn, the learned-reply table, and the lemmas for the pipeline's priority order.
- `chatbot.dfy` (`Bot`): the `SimpleChatbot` class. Its methods update the fields in place and are proved to compute `Reply` and to change exactly what the source changes. The module also holds the summary and save/load.
- `shell.dfy` (`Shell`): the `learn:question|reply` split decision of the console loop.
- `scenarios.dfy` (`Scenarios`): concrete turns against the real table that show the quirks of the source.

Randomness is an explicit natural-number pick: `Choose(xs, pick)` is `xs[pick % |xs|]`. Every element of `xs` is reached by some pick, so a fact proved for all picks holds whatever `random.choice` returns. A turn takes two picks:

- `learnedPick` for the learned-reply draw;
- `replyPick` for the category or fallback draw.

Two picks are needed because a learned reply equal to `""` falls through to a second draw. The clock is a `timestamp` parameter of `GetResponse`.

The teaching command follows the code at myChatBot.py:265-267. The body after `learn:` is split on every `|`. Exactly two pieces, that is exactly one `|`, teach the stripped pieces, even when they are empty. Any other count gives the usage hint.

## Model

| member | source | states |
|---|---|---|
| Choice.Choose | myChatBot.py:103 | `random.choice` returns an element of the (non-empty) list; a pick below the length selects that index |
| Choice.ChooseCovers | myChatBot.py:131 | every element of the list is returned for some pick, so "for all picks" covers every random outcome |
| Text.Lower | myChatBot.py:94 | `lower()` keeps the length and maps each character on its own; no upper-case ASCII letter remains |
| Text.LowerOfLowered | myChatBot.py:94 | a text without upper-case letters is its own lower-case form |
| Text.Strip | myChatBot.py:94 | `strip()` is the contiguous part of the text between an all-whitespace prefix and an all-whitespace suffix; it is empty exactly when the text is all whitespace, and otherwise starts and ends with a non-space |
| Text.StripFixedPoint | myChatBot.py:94 | a text that neither starts nor ends with whitespace is unchanged by `strip()` |
| Text.BeforeFirst | myChatBot.py:191 | `split('!')[0]` is the longest prefix without `!`; it is the whole text, or it is followed by `!` |
| Text.Split | myChatBot.py:265 | splitting on a separator gives one more piece than there are separators, no piece holds a separator, and the first piece is the text before the first separator |
| Text.JoinSplit | myChatBot.py:265 | joining the pieces of a split with the separator gives the text back |
| Text.Capitalize | myChatBot.py:154 | `capitalize()` keeps the length, upper-cases the first character and lower-cases every other one |
| Text.LowerOfCapitalized | myChatBot.py:154 | capitalising keeps the letters: the lower-case form of the capitalised text is that of the text |
| Normalize.PreprocessInput | myChatBot.py:92-94 | the normalised input is no longer than the input, has no upper-case letter, has no leading or trailing whitespace, and is empty exactly when the input is all whitespace |
| Normalize.IsBlank | myChatBot.py:161 | `not user_input.strip()` holds exactly when the input is empty or all whitespace |
| Normalize.BlankIffEmptyKey | myChatBot.py:161-162 | the empty-input guard fires exactly when the normalised input is empty |
| Normalize.PreprocessIdempotent | myChatBot.py:92-94 | normalising a normalised input changes nothing |
| Patterns.InitializePatterns | myChatBot.py:19-90 | the table has the eight categories in declared order (greeting, goodbye, how_are_you, name_question, age_question, help, thanks, weather), distinct ids, each with patterns and non-empty replies |
| Patterns.CategoriesWellFormed | myChatBot.py:22-89 | each category's literal data has patterns and only non-empty replies |
| Patterns.FirstMatchFrom | myChatBot.py:100-106 | the result is the first category from `k` on that has a pattern occurring in the text, and is `None` exactly when none does |
| Patterns.FirstMatch | myChatBot.py:100-106 | the result is the earliest matching category in table order, and is `None` exactly when no category matches |
| Patterns.FirstMatchUnique | myChatBot.py:100-104 | a matching category with no matching category before it is the one found |
| Patterns.FindPatternMatch | myChatBot.py:96-106 | the nested loops return the id of the first matching category and one of its replies, or `(None, None)` when no pattern occurs in the normalised input |
| Patterns.GenerateFallbackResponse | myChatBot.py:108-118 | the fallback reply is one of the six fallback strings (the last quotes the raw input) and is never empty |
| Names.SearchName | myChatBot.py:152 | the search returns the leftmost position where the prefix is followed by a word character, and returns `None` exactly when there is no such position |
| Names.WordRunEnd | myChatBot.py:145-148 | the greedy `\w+` run ends at the end of the text or at the first non-word character |
| Names.Captured | myChatBot.py:145-154 | `match.group(1)` is the text right after the prefix: a non-empty run of word characters that ends at the end of the text or before a non-word character (the greedy, maximal run) |
| Names.NameFromPatterns | myChatBot.py:151-157 | the pattern loop yields no name exactly when no remaining pattern matches anywhere in the lower-cased input |
| Names.ExtractedName | myChatBot.py:142-157 | `_extract_user_name` finds no name exactly when none of the four patterns matches anywhere in the lower-cased input |
| Names.FirstPatternLeftmostMatch | myChatBot.py:151-154 | the first pattern (in the order "my name is", "i'm", "i am", "call me") that matches anywhere wins, at its leftmost match, with the capitalised capture as the name |
| Names.ExtractedNameShape | myChatBot.py:154 | an extracted name is a non-empty run of word characters, first letter not lower case, other letters not upper case |
| Responder.Learn | myChatBot.py:120-125 | teaching adds the normalised key if absent and appends the reply to its list: that list grows by exactly one, its earlier replies are kept, its last reply is the new one, every other key is unchanged, and non-empty lists stay non-empty |
| Responder.CheckLearnedResponses | myChatBot.py:127-132 | a learned reply is drawn exactly when the normalised input is a learned key, and it is one of that key's replies |
| Responder.Personalize | myChatBot.py:191 | the personalised reply is the text before the first `!` of the reply, then `", " + name + "!"` |
| Responder.KnownName | myChatBot.py:189-190 | the name is used exactly when it is stored and non-empty (truthy) |
| Responder.CategoryReply | myChatBot.py:184-193 | the category stage and its fallback never produce an empty reply |
| Responder.Reply | myChatBot.py:159-197 | every reply of a turn is non-empty |
| Responder.TurnUserData | myChatBot.py:173-176 | a turn adds the key `"name"` only when a non-blank input yields a name, keeps every other key and value, and the stored name afterwards is the extracted one or the earlier one |
| Responder.UserDataKeptWithoutName | myChatBot.py:173-176 | a turn from which no name is extracted leaves the session memory unchanged |
| Responder.UserDataStoresName | myChatBot.py:173-176 | a non-blank turn from which a name is extracted stores exactly that name under `"name"` |
| Responder.BlankInput | myChatBot.py:161-162 | blank input is answered with the prompt-again reply and stores nothing |
| Responder.NameExtractedReply | myChatBot.py:173-176 | a non-blank input from which a name is extracted is acknowledged with "Nice to meet you, <name>! I'll remember your name." and the name is stored |
| Responder.NameShortCircuits | myChatBot.py:142-176 | for a non-blank input, the first name pattern matching anywhere, at its leftmost match, decides both the reply and the stored name, whatever the learned table and categories say |
| Responder.LearnedHit | myChatBot.py:179-182 | a non-blank input without a name, whose learned key gives a non-empty drawn reply, is answered with that reply |
| Responder.LearnedTakesPrecedence | myChatBot.py:127-132 | a non-blank input without a name, whose learned key has only non-empty replies, is answered with one of them before any category, and the session memory is unchanged |
| Responder.EmptyLearnedReplyFallsThrough | myChatBot.py:179-185 | for a non-blank input without a name, a drawn learned reply `""` is falsy: the turn is answered by the category stage |
| Responder.LearnedMissGoesToCategories | myChatBot.py:179-185 | for a non-blank input without a name, a missing key or an empty drawn learned reply passes the turn to the category stage, and the session memory is unchanged |
| Responder.CategoryReplyOfMatch | myChatBot.py:185-191 | the category stage answers from the first matching category, personalised exactly when a name is known and the category is greeting or how_are_you |
| Responder.CategoryFirstMatchWins | myChatBot.py:184-191 | for a non-blank input with no name and no learned key, the earliest matching category in declared order supplies the reply, personalised for greeting and how_are_you when a name is known |
| Responder.FallbackWhenNothingMatches | myChatBot.py:192-193 | for a non-blank input with no name, no learned key and no matching category, the reply is one of the six fallback replies |
| Responder.ServedFromAppended | myChatBot.py:127-132 | a non-blank input without a name, whose key's list ends with a newly appended reply, is answered with that reply or an earlier one of the list |
| Responder.LearnedReplyReachable | myChatBot.py:131 | for a non-blank input without a name, every non-empty learned reply of its key is the answer for some draw |
| Responder.LearnedReplyIsServed | myChatBot.py:120-132 | after teaching a reply for a trigger, a non-blank input with the same normalised form and no name in it is answered with the new reply or an earlier one for that key, and some draw gives the new reply |
| Bot.Summarize | myChatBot.py:199-206 | the summary holds the number of logged exchanges, the stored name exactly when one is stored, the number of learned inputs, and the first exchange's timestamp exactly when the log is non-empty |
| Bot.SummaryAfterLoggedTurn | myChatBot.py:166-170 | a logged turn adds one to the exchange count and keeps the start time, which is the turn's own timestamp when the log was empty |
| Bot.SummaryAfterLearn | myChatBot.py:122-125 | teaching adds one to the learned count exactly when the normalised input was not a key before |
| Bot.SimpleChatbot.constructor | myChatBot.py:12-17 | a new bot is named "PyBot", has the fixed table, an empty log, memory and learned table, and satisfies the invariant |
| Bot.SimpleChatbot.LearnFromUser | myChatBot.py:120-125 | the learned table becomes `Learn` of the old one, the invariant is kept, and the log and memory are unchanged |
| Bot.SimpleChatbot.RememberUserInfo | myChatBot.py:134-136 | the value is recalled under its key, every other key recalls what it did before, and nothing else changes |
| Bot.SimpleChatbot.RecallUserInfo | myChatBot.py:138-140 | a value is returned exactly when the key is stored, and it is the stored value |
| Bot.SimpleChatbot.ExtractUserName | myChatBot.py:142-157 | the loop over the name patterns stores and acknowledges the name `ExtractedName` gives, or changes nothing and returns `None` |
| Bot.SimpleChatbot.RecordReply | myChatBot.py:175 | only the `bot_response` of the last log entry is set |
| Bot.SimpleChatbot.GetResponse | myChatBot.py:159-197 | the reply is `Reply` of the state before the turn; blank input leaves the log unchanged, any other input appends exactly one entry holding the timestamp, the raw input and the reply; the memory changes only by an extracted name, the learned table not at all, and the invariant is kept |
| Bot.SimpleChatbot.RespondFromPatterns | myChatBot.py:184-193 | the category stage computes `CategoryReply` on the current memory |
| Bot.SimpleChatbot.GetConversationSummary | myChatBot.py:199-206 | the summary counts the current log and learned table, and its user name is what `RecallUserInfo("name")` returns |
| Bot.SimpleChatbot.SaveConversation | myChatBot.py:208-214 | the saved data holds all three mutable fields |
| Bot.SimpleChatbot.LoadConversation | myChatBot.py:219-229 | a missing file changes nothing; otherwise each field is replaced wholesale by the saved one or by an empty default |
| Bot.SaveLoadRoundTrip | myChatBot.py:208-226 | a new bot that loads what a bot saved has that bot's log, memory and learned table, and satisfies the invariant |
| Shell.ParseLearnCommand | myChatBot.py:262-271 | a `learn:` line teaches exactly when its body has exactly one separator character, and then teaches the stripped text before it and the stripped text after it; otherwise it gives the usage hint |
| Shell.IsLearnCommand | myChatBot.py:262 | a stripped console line is a teaching command exactly when its lower-cased form starts with `learn:` |
| Shell.SplitOnce | myChatBot.py:265-267 | with exactly one separator the split gives two pieces: the text before it and the text after it |
| Shell.BeforeSeparator | myChatBot.py:265-267 | the first piece of `q`, a separator and `r`, when `q` has no separator, is `q` |
| Shell.ParseFormatted | myChatBot.py:262-268 | a question and reply free of the separator, written after a `learn:` prefix in any letter case and joined by the separator, are read back stripped |
| Scenarios.HiMatchesThis | myChatBot.py:23 | "this" is answered as a greeting, because `hi` occurs in it |
| Scenarios.AgeMatchesMessage | myChatBot.py:57-58 | "message" is answered by the age category, because `age` occurs in it and no earlier category matches |
| Scenarios.MessageMissesFirstFour | myChatBot.py:22-50 | no pattern of greeting, goodbye, how_are_you or name_question occurs in "message" |
| Scenarios.AbsentFirstChar | myChatBot.py:102 | a pattern whose first character appears at no position where the pattern could start is not found |
| Scenarios.ImFineIsAName | myChatBot.py:146 | "i'm fine" yields the name "Fine" |
| Scenarios.AliceIsCaptured | myChatBot.py:145 | in "my name is alice" the first name pattern matches at the start and captures "alice" |
| Scenarios.IntroductionOfAlice | myChatBot.py:151-154 | "My name is alice" yields the name "Alice" |
| Scenarios.IntroductionStoresAlice | myChatBot.py:155 | the turn "My name is alice" stores the name "Alice" |
| Scenarios.HelloNormalised | myChatBot.py:94 | "Hello" normalises to "hello" |
| Scenarios.NoPatternInHello | myChatBot.py:144-152 | no name pattern matches in "hello" |
| Scenarios.HelloIsNoIntroduction | myChatBot.py:151-157 | "Hello" introduces no name |
| Scenarios.HelloIsGreeting | myChatBot.py:23 | "hello" is answered by the greeting category |
| Scenarios.GreetingUsesStoredName | myChatBot.py:187-191 | once a name is stored, "Hello" is answered with a greeting reply cut at its first `!` and ending in `", " + name + "!"` |
| Scenarios.BlankKeyNeverServed | myChatBot.py:122-125 | teaching an all-whitespace question stores the empty key, yet every input that normalises to it is blank and gets the prompt-again reply, so the key is never served |

## Left out

- Unicode: `lower()`, `capitalize()` and `\w` are modelled on ASCII letters, digits and `_`. Other characters are unchanged by case mapping and are not word characters. Whitespace for `strip()` is Python's `isspace` set.
- Python's regular-expression engine: category patterns contain no metacharacters, so they are substring tests. Name patterns are a hand-written leftmost scanner with a greedy `(\w+)` group.
- `random.choice` internals: replaced by the explicit picks. Results are stated as membership in the list, and as reachable by some pick.
- `datetime.now()` (myChatBot.py:165): the timestamp is a parameter of `GetResponse`, and its format is not modelled.
- JSON encoding and file I/O of `save_conversation` / `load_conversation`: the file is a `SavedData` value. `None` stands for a missing file. Only the field replacement with empty defaults is modelled. The printed messages are not.
- `main` (myChatBot.py:231-285): the input loop, `print`, the `quit`/`exit`/`summary`/`save` commands and the exception handlers are console I/O. Only the `learn:` split decision is modelled (`Shell`).
- Responder.CheckLearnedResponses: requires every learned list to be non-empty. The source raises in `random.choice` on an empty list, and such a list can only come from a loaded file. The class invariant `Valid` keeps all lists non-empty, and `LoadConversation` requires it of the loaded table.
- Bot.SimpleChatbot.LoadConversation: requires the loaded learned lists to be non-empty, for the same reason. A loaded table with an empty list, and the exception it later causes, is not modelled.
- Responder.LearnedReplyIsServed: "a taught reply is served for its trigger" is stated only for non-blank inputs from which no name is extracted and whose earlier learned replies are non-empty. A blank input gets the prompt-again reply first, so a reply taught for an all-whitespace question is never served (`Scenarios.BlankKeyNeverServed`). A name match answers next, and a learned `""` falls through to the categories.
- Exchange records hold `botResponse: None` only between the append and the assignment inside `GetResponse`. A turn interrupted between the two by an exception is not modelled.
