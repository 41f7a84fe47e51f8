/** The teaching command of the console loop (myChatBot.py:262-271): a line
    that starts with `learn:` in any letter case is split on every `|`;
    exactly two pieces teach the stripped question and reply, anything else
    gets the usage hint. Empty pieces are accepted. */
module Shell {
  import opened Text

  /** The outcome of a `learn:` line: what to teach, or the usage hint. */
  datatype LearnCommand = Teach(question: string, response: string) | UsageHint

  /** `line.lower().startswith('learn:')`, where `line` is the console
      input already stripped of surrounding whitespace: only the first six
      characters decide. */
  function IsLearnCommand(line: string): (b: bool)
    ensures b <==> |Lower(line)| >= 6 && Lower(line)[..6] == "learn:"
  {
    |line| >= 6 && Lower(line[..6]) == "learn:"
  }

  /** The text after the `learn:` prefix of the stripped console input. */
  function CommandBody(line: string): string
    requires IsLearnCommand(line)
  {
    line[6..]
  }

  /** The split decision of the teaching command: exactly one `|` in the
      body teaches the stripped text before it and the stripped text after
      it; any other number of `|` gives the usage hint. */
  function ParseLearnCommand(line: string): (c: LearnCommand)
    requires IsLearnCommand(line)
    ensures c.Teach? <==> multiset(CommandBody(line))['|'] == 1
    ensures c.Teach? ==>
      var body := CommandBody(line);
      var question := BeforeFirst(body, '|');
      && c.question == Strip(question)
      && c.response == Strip(body[|question| + 1..])
  {
    var parts := Split(CommandBody(line), '|');
    if |parts| == 2 then
      SplitOnce(CommandBody(line), '|');
      Teach(Strip(parts[0]), Strip(parts[1]))
    else UsageHint
  }

  /** With exactly one separator, splitting gives the text before it and
      the text after it. */
  lemma SplitOnce(s: string, c: char)
    requires multiset(s)[c] == 1
    ensures var head := BeforeFirst(s, c);
      |head| < |s| && Split(s, c) == [head, s[|head| + 1..]]
  {
    var head := BeforeFirst(s, c);
    assert c in multiset(s);
    assert |head| < |s|;
    var rest := s[|head| + 1..];
    SplitAround(s, |head|);
    assert multiset(rest)[c] == 0;
    assert Split(rest, c) == [rest];
  }

  /** The text before the first separator of `q + [c] + r`, when `q` has
      none, is `q`. */
  lemma BeforeSeparator(q: string, c: char, r: string)
    requires c !in q
    ensures BeforeFirst(q + [c] + r, c) == q
  {
    var s := q + [c] + r;
    assert s[|q|] == c;
    assert forall k :: 0 <= k < |q| ==> s[k] == q[k];
  }

  /** A question and a reply free of `|` written as `learn:question|reply`
      are read back, stripped. */
  lemma ParseFormatted(prefix: string, question: string, reply: string)
    requires |prefix| == 6 && Lower(prefix) == "learn:"
    requires '|' !in question && '|' !in reply
    ensures var line := prefix + question + "|" + reply;
      IsLearnCommand(line) && ParseLearnCommand(line) == Teach(Strip(question), Strip(reply))
  {
    var line := prefix + question + "|" + reply;
    assert line[..6] == prefix;
    var body := CommandBody(line);
    assert body == question + "|" + reply;
    assert multiset(body)['|'] == multiset(question)['|'] + 1 + multiset(reply)['|'];
    BeforeSeparator(question, '|', reply);
    var head := BeforeFirst(body, '|');
    assert body[|head| + 1..] == reply;
  }
}
