/**
 * The prompt builder of the dialogue summarizer: a pure, total function from a
 * dialogue and a prompting method name to the text handed to the language model.
 */
module Prompts {
  import opened Wrappers

  // The three method names the builder recognises; every other string falls back.
  const ZeroShot := "zero-shot"
  const OneShot := "one-shot"
  const FewShot := "few-shot"

  // Fixed pieces of the templates.
  const ZeroShotInstruction := "Summarize the following conversation:\n\n"
  const FallbackInstruction := "Summarize this dialogue: "
  const DialogueHeader := "\n\nDialogue:\n"
  const SummaryCue := "\n\nSummary:"
  const ExampleSeparator := "\n\n"

  /**
   * The worked example of one-shot prompts (and the first of few-shot prompts). It is laid
   * out like the dialogue section a prompt ends with: a "Dialogue:" line, the turns, a
   * blank line and a "Summary: " line, so the model sees where its answer belongs.
   */
  const OneShotExample :=
    "Dialogue:\n#Person1#: What time is it, Tom?\n#Person2#: Just a minute. It's ten to nine by my watch.\n#Person1#: Is it? I had no idea it was so late. I must be off now.\n#Person2#: What's the hurry?\n#Person1#: I must catch the nine-thirty train.\n#Person2#: You've plenty of time yet. The railway station is very close.\n\nSummary: #Person1# is in a hurry to catch a train. Tom tells #Person1# there is plenty of time."

  /** The second worked example, used only by few-shot prompts; laid out like the first. */
  const PicnicExample :=
    "Dialogue:\n#Person1#: May, do you mind helping me prepare for the picnic?\n#Person2#: Sure. Have you checked the weather report?\n#Person1#: Yes. It says it will be sunny all day.\n\nSummary: Mom asks May to help prepare for the picnic and May agrees."

  predicate IsRecognised(promptMethod: string) {
    promptMethod == ZeroShot || promptMethod == OneShot || promptMethod == FewShot
  }

  predicate StartsWith(s: string, prefix: string) {
    |prefix| <= |s| && s[..|prefix|] == prefix
  }

  predicate EndsWith(s: string, suffix: string) {
    |suffix| <= |s| && s[|s| - |suffix|..] == suffix
  }

  /** `needle` occurs in `hay` starting at index `i`. */
  predicate OccursAt(needle: string, hay: string, i: int) {
    0 <= i && i + |needle| <= |hay| && hay[i..i + |needle|] == needle
  }

  ghost predicate Contains(hay: string, needle: string) {
    exists i :: OccursAt(needle, hay, i)
  }

  /** Python's `sep.join(parts)`: the parts in order with `sep` between neighbours. */
  function Join(sep: string, parts: seq<string>): (r: string)
    ensures |parts| == 0 ==> r == ""
    ensures |parts| == 1 ==> r == parts[0]
    ensures |parts| > 0 ==> StartsWith(r, parts[0])
    decreases |parts|
  {
    if |parts| == 0 then ""
    else if |parts| == 1 then parts[0]
    else parts[0] + sep + Join(sep, parts[1..])
  }

  /** Appending a part to a non-empty list extends the joined text by `sep` and that part. */
  lemma {:induction false} JoinAppend(sep: string, parts: seq<string>, last: string)
    requires |parts| > 0
    ensures Join(sep, parts + [last]) == Join(sep, parts) + sep + last
    decreases |parts|
  {
    var whole := parts + [last];
    assert whole[0] == parts[0];
    assert whole[1..] == parts[1..] + [last];
    if |parts| > 1 {
      JoinAppend(sep, parts[1..], last);
    } else {
      assert whole[1..] == [last];
    }
  }

  /** The worked examples of a few-shot prompt: the one-shot example, a blank line, the picnic example. */
  function FewShotExamples(): (r: string)
    ensures r == OneShotExample + ExampleSeparator + PicnicExample
  {
    JoinAppend(ExampleSeparator, [OneShotExample], PicnicExample);
    assert [OneShotExample] + [PicnicExample] == [OneShotExample, PicnicExample];
    Join(ExampleSeparator, [OneShotExample, PicnicExample])
  }

  /**
   * The prompt for `dialogue` under the prompting method named `promptMethod`; total in
   * both. Whatever the method, the prompt is text fixed by the method alone, then the
   * dialogue verbatim, then more text fixed by the method alone.
   */
  function CreatePrompt(dialogue: string, promptMethod: string): (r: string)
    ensures r == Preamble(promptMethod) + dialogue + Closing(promptMethod)
  {
    if promptMethod == ZeroShot then
      ZeroShotInstruction + dialogue + SummaryCue
    else if promptMethod == OneShot then
      OneShotExample + DialogueHeader + dialogue + SummaryCue
    else if promptMethod == FewShot then
      FewShotExamples() + DialogueHeader + dialogue + SummaryCue
    else
      FallbackInstruction + dialogue
  }

  /** The text a prompt of the given method puts before the dialogue. */
  function Preamble(promptMethod: string): string {
    if promptMethod == ZeroShot then ZeroShotInstruction
    else if promptMethod == OneShot then OneShotExample + DialogueHeader
    else if promptMethod == FewShot then FewShotExamples() + DialogueHeader
    else FallbackInstruction
  }

  /** The text a prompt of the given method puts after the dialogue. */
  function Closing(promptMethod: string): string {
    if IsRecognised(promptMethod) then SummaryCue else ""
  }

  /** The middle of `prompt` once `pre` and `post` are stripped, or None if it is not framed by them. */
  function Unframe(prompt: string, pre: string, post: string): (r: Option<string>)
    ensures r.Some? ==> |r.value| == |prompt| - |pre| - |post|
  {
    if |pre| + |post| <= |prompt| && StartsWith(prompt, pre) && EndsWith(prompt, post) then
      Some(prompt[|pre|..|prompt| - |post|])
    else
      None
  }

  /**
   * Recovers the dialogue from a prompt built with `promptMethod`, or None when
   * `prompt` does not have that method's shape. The inverse of CreatePrompt.
   */
  function ExtractDialogue(prompt: string, promptMethod: string): Option<string> {
    Unframe(prompt, Preamble(promptMethod), Closing(promptMethod))
  }

  // ----- Facts about concatenation, stated once for arbitrary strings -----

  /** Where each part of a three-part concatenation sits. */
  lemma Split3(a: string, b: string, c: string)
    ensures |a + b + c| == |a| + |b| + |c|
    ensures StartsWith(a + b + c, a) && EndsWith(a + b + c, b + c) && EndsWith(a + b + c, c)
    ensures OccursAt(b, a + b + c, |a|)
    ensures (a + b + c)[|a|..] == b + c
  {
  }

  /** Where each part of a four-part concatenation sits. */
  lemma Split4(a: string, b: string, c: string, e: string)
    ensures |a + b + c + e| == |a| + |b| + |c| + |e|
    ensures StartsWith(a + b + c + e, a) && EndsWith(a + b + c + e, b + c + e)
    ensures OccursAt(c, a + b + c + e, |a| + |b|)
    ensures (a + b + c + e)[|a|..] == b + c + e
  {
  }

  /** Regrouping a six-part concatenation into two halves. */
  lemma Regroup6(a: string, b: string, c: string, d: string, e: string, f: string)
    ensures a + b + c + d + e + f == (a + b + c) + (d + e + f)
  {
  }

  /** Unframe undoes framing with the same preamble and closing. */
  lemma UnframeFramed(pre: string, mid: string, post: string)
    ensures Unframe(pre + mid + post, pre, post) == Some(mid)
  {
  }

  /** Whatever Unframe returns, framed again, is the original text. */
  lemma FramedUnframe(prompt: string, pre: string, post: string, mid: string)
    requires Unframe(prompt, pre, post) == Some(mid)
    ensures pre + mid + post == prompt
  {
  }

  // ----- The prompt templates -----

  /** A zero-shot prompt is the instruction with its blank line, the dialogue and the summary cue. */
  lemma ZeroShotPrompt(dialogue: string)
    ensures CreatePrompt(dialogue, ZeroShot) == ZeroShotInstruction + dialogue + SummaryCue
    ensures StartsWith(CreatePrompt(dialogue, ZeroShot), ZeroShotInstruction)
    ensures EndsWith(CreatePrompt(dialogue, ZeroShot), dialogue + SummaryCue)
  {
  }

  /** A one-shot prompt starts with the one-shot example and ends with the dialogue section. */
  lemma OneShotPrompt(dialogue: string)
    ensures CreatePrompt(dialogue, OneShot) == OneShotExample + DialogueHeader + dialogue + SummaryCue
    ensures StartsWith(CreatePrompt(dialogue, OneShot), OneShotExample)
    ensures EndsWith(CreatePrompt(dialogue, OneShot), DialogueHeader + dialogue + SummaryCue)
  {
  }

  /**
   * A few-shot prompt starts with the one-shot example, a blank line and the picnic
   * example, and ends with the same dialogue section as a one-shot prompt.
   */
  lemma FewShotPrompt(dialogue: string)
    ensures CreatePrompt(dialogue, FewShot)
         == OneShotExample + ExampleSeparator + PicnicExample + DialogueHeader + dialogue + SummaryCue
    ensures StartsWith(CreatePrompt(dialogue, FewShot), OneShotExample + ExampleSeparator + PicnicExample)
    ensures EndsWith(CreatePrompt(dialogue, FewShot), DialogueHeader + dialogue + SummaryCue)
  {
    Split4(FewShotExamples(), DialogueHeader, dialogue, SummaryCue);
  }

  /** Every method name other than the three recognised ones yields the fallback template. */
  lemma FallbackPrompt(dialogue: string, promptMethod: string)
    requires !IsRecognised(promptMethod)
    ensures CreatePrompt(dialogue, promptMethod) == FallbackInstruction + dialogue
  {
  }

  /** Extracting the dialogue from a freshly built prompt gives the dialogue back. */
  lemma ExtractInvertsCreate(dialogue: string, promptMethod: string)
    ensures ExtractDialogue(CreatePrompt(dialogue, promptMethod), promptMethod) == Some(dialogue)
  {
    UnframeFramed(Preamble(promptMethod), dialogue, Closing(promptMethod));
  }

  /** A prompt from which a dialogue can be extracted is exactly the prompt built from it. */
  lemma CreateInvertsExtract(prompt: string, promptMethod: string, dialogue: string)
    requires ExtractDialogue(prompt, promptMethod) == Some(dialogue)
    ensures CreatePrompt(dialogue, promptMethod) == prompt
  {
    FramedUnframe(prompt, Preamble(promptMethod), Closing(promptMethod), dialogue);
  }

  /** For a fixed method, different dialogues always give different prompts. */
  lemma CreatePromptInjective(d1: string, d2: string, promptMethod: string)
    requires CreatePrompt(d1, promptMethod) == CreatePrompt(d2, promptMethod)
    ensures d1 == d2
  {
    ExtractInvertsCreate(d1, promptMethod);
    ExtractInvertsCreate(d2, promptMethod);
  }

  /**
   * The dialogue appears verbatim in every prompt, right after the method's preamble;
   * for the three recognised methods what follows it is exactly the summary cue.
   */
  lemma PromptContainsDialogue(dialogue: string, promptMethod: string)
    ensures OccursAt(dialogue, CreatePrompt(dialogue, promptMethod), |Preamble(promptMethod)|)
    ensures Contains(CreatePrompt(dialogue, promptMethod), dialogue)
    ensures IsRecognised(promptMethod) ==>
      CreatePrompt(dialogue, promptMethod)[|Preamble(promptMethod)|..] == dialogue + SummaryCue
  {
    Split3(Preamble(promptMethod), dialogue, Closing(promptMethod));
  }

  /**
   * A few-shot prompt is the one-shot prompt for the same dialogue with a blank line
   * and the picnic example inserted right after the one-shot example.
   */
  lemma FewShotExtendsOneShot(dialogue: string)
    ensures CreatePrompt(dialogue, FewShot)
         == OneShotExample + ExampleSeparator + PicnicExample
            + CreatePrompt(dialogue, OneShot)[|OneShotExample|..]
  {
    Split4(OneShotExample, DialogueHeader, dialogue, SummaryCue);
    Regroup6(OneShotExample, ExampleSeparator, PicnicExample, DialogueHeader, dialogue, SummaryCue);
    OneShotPrompt(dialogue);
    FewShotPrompt(dialogue);
  }

  /**
   * The one-shot example can occur more than once in a one-shot prompt: it does
   * whenever the dialogue is that example itself.
   */
  lemma OneShotExampleCanRepeat()
    ensures OccursAt(OneShotExample, CreatePrompt(OneShotExample, OneShot), 0)
    ensures OccursAt(OneShotExample, CreatePrompt(OneShotExample, OneShot), |OneShotExample| + |DialogueHeader|)
  {
    Split4(OneShotExample, DialogueHeader, OneShotExample, SummaryCue);
  }
}
