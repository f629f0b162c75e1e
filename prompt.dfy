/** The text the new SDK path sends for a question (getDados.py:166-172). */
module Prompt {

  import opened Wrappers
  import opened PyStr

  const InstructionsHeader := "INSTRUCTIONS:\n"
  const QuestionHeader := "\n\nUSER_QUESTION:\n"

  /** With truthy instructions the question is wrapped in an
      INSTRUCTIONS / USER_QUESTION block; otherwise it is sent as it is.
      The two headers add 14 + 17 = 31 characters. */
  function ComposePrompt(instructions: Option<string>, question: string): (p: string)
    ensures !Truthy(instructions) ==> p == question
    ensures Truthy(instructions) ==>
      && |p| == |InstructionsHeader| + |instructions.value| + |QuestionHeader| + |question|
      && StartsWith(p, InstructionsHeader + instructions.value + QuestionHeader)
      && p[|p| - |question|..] == question
  {
    if Truthy(instructions) then
      var head := InstructionsHeader + instructions.value + QuestionHeader;
      assert (head + question)[..|head|] == head;
      assert (head + question)[|head|..] == question;
      head + question
    else question
  }

  /** Under the same instructions, different questions give different prompts:
      the question is recovered from the end of the prompt. */
  lemma ComposeInjective(instructions: Option<string>, q1: string, q2: string)
    requires ComposePrompt(instructions, q1) == ComposePrompt(instructions, q2)
    ensures q1 == q2
  {
    if Truthy(instructions) {
      var p := ComposePrompt(instructions, q1);
      assert |q1| == |q2|;
      assert q1 == p[|p| - |q1|..] == q2;
    }
  }
}
