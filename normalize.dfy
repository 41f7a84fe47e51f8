/** Input normalisation (`_preprocess_input`, myChatBot.py:92-94) and the
    empty-input test of `get_response` (myChatBot.py:161). */
module Normalize {
  import opened Text

  /** `user_input.lower().strip()`: the key under which learned replies are
      stored and the text that category patterns are searched in. */
  function PreprocessInput(userInput: string): (r: string)
    ensures |r| <= |userInput|
    ensures forall i :: 0 <= i < |r| ==> !IsUpperAscii(r[i])
    ensures r != [] ==> !IsSpace(r[0]) && !IsSpace(r[|r| - 1])
    ensures r == [] <==> forall i :: 0 <= i < |userInput| ==> IsSpace(userInput[i])
  {
    Strip(Lower(userInput))
  }

  /** `not user_input.strip()`: the input is empty or all whitespace. */
  function IsBlank(userInput: string): (b: bool)
    ensures b <==> forall i :: 0 <= i < |userInput| ==> IsSpace(userInput[i])
  {
    Strip(userInput) == []
  }

  /** An input is blank exactly when its normalised form is empty. */
  lemma BlankIffEmptyKey(userInput: string)
    ensures IsBlank(userInput) <==> PreprocessInput(userInput) == []
  {
  }

  /** Normalising twice is normalising once, so a key that is already
      normalised is found again under itself. */
  lemma PreprocessIdempotent(userInput: string)
    ensures PreprocessInput(PreprocessInput(userInput)) == PreprocessInput(userInput)
  {
    var once := PreprocessInput(userInput);
    LowerOfLowered(once);
    StripFixedPoint(once);
  }
}
