/** `ask_clarification_question`: the string the front end recognises as a
    question for the user. */
module Clarification {
  import opened Wrappers
  import opened Text

  const CLARIFICATION_PREFIX: string := "CLARIFICATION_NEEDED: "
  const OPTIONS_LABEL: string := " Options: "

  /** The tool's result. The reason is only logged, never returned. */
  function AskClarificationQuestion(question: string, options: Option<seq<string>>, reason: Option<string>): (r: string)
    ensures StartsWith(r, CLARIFICATION_PREFIX + question)
    ensures options.None? || options.value == [] ==> r == CLARIFICATION_PREFIX + question
    ensures options.Some? && options.value != [] ==>
              r[|CLARIFICATION_PREFIX + question|..] == OPTIONS_LABEL + Join(options.value, ", ")
  {
    CLARIFICATION_PREFIX + question +
      (if options.Some? && options.value != [] then OPTIONS_LABEL + Join(options.value, ", ") else "")
  }

  /** Without options the question is recovered exactly from the result, and
      the reason never changes it. */
  lemma QuestionRecoverable(question: string, options: Option<seq<string>>, reason1: Option<string>, reason2: Option<string>)
    ensures options.None? || options.value == [] ==>
              AskClarificationQuestion(question, options, reason1)[|CLARIFICATION_PREFIX|..] == question
    ensures AskClarificationQuestion(question, options, reason1) == AskClarificationQuestion(question, options, reason2)
  {
  }

  /** Every option is named in the result. */
  lemma MentionsEveryOption(question: string, options: seq<string>, reason: Option<string>, i: nat)
    requires i < |options|
    ensures Contains(AskClarificationQuestion(question, Some(options), reason), options[i])
  {
    var joined := Join(options, ", ");
    JoinContains(options, ", ", i);
    ContainsIffOccurs(joined, options[i]);
    var j: nat :| OccursAt(joined, options[i], j);
    var head := CLARIFICATION_PREFIX + question + OPTIONS_LABEL;
    var r := head + joined;
    assert r == AskClarificationQuestion(question, Some(options), reason);
    assert r[|head|..] == joined;
    SuffixOccurs(r, options[i], |head|);
    ContainsIffOccurs(r, options[i]);
  }
}
