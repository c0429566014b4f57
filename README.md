# DialogueSummarizer in Dafny

A model of `DialogueSummarizer`, a small wrapper around a pretrained
sequence-to-sequence model (FLAN-T5 by default). Given a dialogue and a prompting
method it does three things. It builds a prompt: zero-shot, one-shot with the Tom/watch
worked example, few-shot with the Tom/watch and May/picnic examples, or a minimal
fallback. It loads the model and tokenizer lazily on first use. It asks the model for a
beam-search continuation of the prompt and returns the decoded text.

Files:

- `wrappers.dfy`: module `Wrappers`, with `Option` (Python's `None`) and `Result` (an
  exception raised instead of a value returned).
- `prompts.dfy`: module `Prompts`, the pure prompt builder. `CreatePrompt` follows
  `_create_prompt` branch by branch. `OneShotExample` and `PicnicExample` are the two
  literal examples, character for character. `FewShotExamples` is
  `_get_few_shot_examples`, and `Join` is Python's `str.join`. `ExtractDialogue` is an
  independent inverse of the builder: it strips the template of a given method from a
  prompt. The lemmas state the exact templates, the prefix/suffix structure, that the
  dialogue is always contained, and the round trip with the inverse.
- `summarizer.dfy`: module `Summarization`, with the stateful class
  `DialogueSummarizer`. Its fields are `model`, `tokenizer` and `isLoaded`, plus a ghost
  count of load attempts. `LoadModel` and `Summarize` update these fields in place.
  `AfterLoad` and `Inference` are the functions that specify the two methods.

The model library (`transformers`/`torch`) is represented by a `Backend` value passed
to `LoadModel` and `Summarize`. It bundles five functions: load model, load tokenizer,
tokenize, generate and decode. Nothing is assumed about their results. Each returns an
`Option`, and `None` stands for a call that raised: a `from_pretrained` load that
failed, or a tokenizer, generation or decoding error that the code lets propagate. The contracts fix only
the arguments the summarizer passes to these functions and what it does with their
results:

- the tokenizer is loaded with `use_fast = true`;
- tokenization uses `truncation = true`;
- generation uses `max_new_tokens = max_length`, four beams and early stopping;
- decoding uses `skip_special_tokens = true`, applied to the first generated sequence.

Three behaviours of the code are worth stating outright:

- The two handles are not always set together. The code stores the new model before it
  loads the tokenizer, so a tokenizer failure leaves a model with no tokenizer
  (`PartialLoadKeepsModel`). The invariant that does hold is `Consistent`: the loaded
  flag implies both handles, and a tokenizer implies a model.
- A one-shot prompt can hold the Tom/watch example more than once, for instance when
  the dialogue is that example (`OneShotExampleCanRepeat`). What always holds is that
  the prompt starts with the example.
- After a failed load, `summarize` carries on with whatever handles are stored. On a
  fresh object the tokenizer is still `None`, and the call fails (`TokenizerUnset`,
  Python's `TypeError`). Take instead an object whose earlier load succeeded and whose
  later explicit `load_model` failed. Its flag is now false, so `summarize` first tries
  to load once more. Only if that load fails too does it go ahead with the stored
  handles. Those are the old model and old tokenizer when the model step failed. They
  are the new model and the old tokenizer when only the tokenizer step failed
  (`AfterLoad`). The model keeps all of these behaviours and adds no retry.

## Model

| member | source | states |
|---|---|---|
| `Prompts.Join` | src/dialogue_summarizer.py:96 | joining no parts gives the empty string; joining one part gives that part; joining at least one part gives text that starts with the first part (with `JoinAppend` this fixes the value for every list) |
| `Prompts.JoinAppend` | src/dialogue_summarizer.py:87-96 | appending a part to a non-empty list extends the joined text by the separator and that part |
| `Prompts.FewShotExamples` | src/dialogue_summarizer.py:85-96 | the few-shot examples are the Tom/watch example, one blank line, then the May/picnic example (the constant `PicnicExample`, the literal of lines 89-94), in that order |
| `Prompts.ZeroShotPrompt` | src/dialogue_summarizer.py:59-60 | the zero-shot prompt is exactly the instruction, the dialogue and the summary cue; it starts with the instruction and ends with the dialogue followed by the cue |
| `Prompts.OneShotPrompt` | src/dialogue_summarizer.py:62-83 | the one-shot prompt is exactly the Tom/watch example (the constant `OneShotExample`, the literal of lines 75-83), the dialogue header, the dialogue and the summary cue; it starts with the example and ends with the dialogue section |
| `Prompts.FewShotPrompt` | src/dialogue_summarizer.py:66-96 | the few-shot prompt starts with both examples joined by a blank line and ends with the same dialogue section as a one-shot prompt |
| `Prompts.FallbackPrompt` | src/dialogue_summarizer.py:70-71 | every method string other than the three recognised names gives exactly the fallback instruction followed by the dialogue |
| `Prompts.CreatePrompt` | src/dialogue_summarizer.py:57-71 | for every dialogue and every method string the prompt is text fixed by the method alone, the dialogue verbatim, then text fixed by the method alone, so the builder is total; the four exact templates are stated by `ZeroShotPrompt`, `OneShotPrompt`, `FewShotPrompt` and `FallbackPrompt` |
| `Prompts.PromptContainsDialogue` | src/dialogue_summarizer.py:57-71 | every prompt contains the dialogue right after the preamble; for the three recognised methods the prompt ends with the dialogue followed by the summary cue |
| `Prompts.ExtractInvertsCreate` | src/dialogue_summarizer.py:57-71 | stripping a method's template from the prompt built with that method recovers the dialogue |
| `Prompts.CreateInvertsExtract` | src/dialogue_summarizer.py:57-71 | any prompt from which a dialogue can be stripped is exactly the prompt built from that dialogue |
| `Prompts.CreatePromptInjective` | src/dialogue_summarizer.py:57-71 | for a fixed method, equal prompts come from equal dialogues |
| `Prompts.FewShotExtendsOneShot` | src/dialogue_summarizer.py:62-96 | the few-shot prompt is the one-shot prompt for the same dialogue with a blank line and the picnic example inserted right after the Tom/watch example |
| `Prompts.OneShotExampleCanRepeat` | src/dialogue_summarizer.py:62-64 | when the dialogue is the Tom/watch example, the one-shot prompt contains that example at two different positions |
| `Summarization.AfterLoad` | src/dialogue_summarizer.py:16-25 | a load attempt sets the flag exactly when both the model and the tokenizer load; a model failure changes no handle; a model success stores the new model; a tokenizer failure keeps the old tokenizer |
| `Summarization.LoadKeepsConsistent` | src/dialogue_summarizer.py:16-25 | a load attempt preserves "loaded implies both handles, tokenizer implies model" and never clears a handle already held |
| `Summarization.PartialLoadKeepsModel` | src/dialogue_summarizer.py:19-21 | from a fresh object, a model that loads followed by a tokenizer that does not leaves the model set, the tokenizer unset and the flag false |
| `Summarization.Inference` | src/dialogue_summarizer.py:44-55 | with no tokenizer the call fails before tokenizing; a tokenizer that raises gives that error; with tokens but no model it fails at generation; a summary is produced only when both handles are present |
| `Summarization.InferenceWithBothHandles` | src/dialogue_summarizer.py:44-55 | whenever both handles are stored, loaded flag set or not, the result is the decoding, with special tokens skipped, of the first sequence generated from the truncated tokenization of the prompt with max_length new tokens, four beams and early stopping; a library call that raises gives its own error, and the missing-handle errors cannot occur |
| `Summarization.FailedFirstLoadCannotSummarize` | src/dialogue_summarizer.py:39-44 | if the first load of a fresh summarizer fails, summarizing fails because the tokenizer is unset |
| `Summarization.DialogueSummarizer.constructor` | src/dialogue_summarizer.py:10-14 | a new summarizer keeps the given model name (default `google/flan-t5-base`), has no model, no tokenizer and the flag false |
| `Summarization.DialogueSummarizer.LoadModel` | src/dialogue_summarizer.py:16-25 | the fields after the call are `AfterLoad` of the fields before it; the invariant is kept; one more load attempt is counted |
| `Summarization.DialogueSummarizer.Summarize` | src/dialogue_summarizer.py:27-55 | when already loaded the fields and the load count are unchanged; otherwise exactly one load is attempted; the result is `Inference` applied to the prompt built from the dialogue and method (defaults: few-shot, 50 tokens) |

## Left out

- Loading weights, tokenizing, beam-search generation and decoding are calls into
  `transformers` and `torch`. They are the uninterpreted functions of `Backend`, so the
  model says nothing about what a summary contains.
- The real loaders can give different results from call to call (network, cache).
  Within one `Backend` value they are fixed functions. A caller models a changed
  environment by passing a different `Backend` to the next call.
- `return_tensors="pt"`, the `input_ids` lookup in the tokenizer's result and
  `torch.no_grad()` do not change any value, so they are not modelled.
- The tokenizer truncates to the model's maximum input length. That happens inside
  `tokenize` and is not modelled.
- The console messages of `load_model` and the `__main__` demo block are output and
  are not modelled. This includes a print that itself raises. The success message sits
  inside the `try`, so such a failure would send a loaded object through the `except`
  branch. The message in the `except` branch could raise out of `load_model`.
- `test_setup.py` only prints version information and is not part of this model.
- Exception types are not modelled, only where they arise. A library call that raises
  is a `None` from that `Backend` function. While summarizing, each such failure, and
  each use of a missing handle or of an empty generation result, is an `Err` naming
  the step.
- `max_length` is passed to generation unchanged for every integer, including zero and
  negative values. The source does not check it, and what the library then does is
  outside the model.
- Two threads racing on the lazy load are not modelled. The model is single-threaded.
