/**
 * The dialogue summarizer: an object that lazily loads a sequence-to-sequence model
 * and its tokenizer, builds a prompt, and hands it to the model's beam-search generator.
 *
 * The model library itself (loading weights, tokenizing, generating, decoding) is not
 * part of this model: it is the `Backend` value passed to each operation, a bundle of
 * functions whose results are left unspecified.
 */
module Summarization {
  import opened Wrappers
  import opened Prompts

  const DefaultModelName := "google/flan-t5-base"
  const DefaultMaxLength := 50
  /** Beam-search width used for every generation call. */
  const BeamWidth := 4

  /** An opaque handle on loaded model weights. */
  datatype ModelHandle = ModelHandle(id: nat)
  /** An opaque handle on a loaded tokenizer. */
  datatype TokenizerHandle = TokenizerHandle(id: nat)

  type TokenIds = seq<int>

  /** The generation parameters the summarizer passes to the model. */
  datatype GenerationConfig = GenerationConfig(maxNewTokens: int, numBeams: int, earlyStopping: bool)

  /**
   * The external model library as seen from the summarizer. A `None` from any of these
   * functions is a call that raised an exception.
   *   loadModel(name)                  -- load model weights by repository name
   *   loadTokenizer(name, useFast)     -- load the paired tokenizer
   *   tokenize(tok, text, truncation)  -- the input ids of `text`
   *   generate(model, ids, config)     -- the generated sequences, best first
   *   decode(tok, ids, skipSpecial)    -- the text of a token sequence
   */
  datatype Backend = Backend(
    loadModel: string -> Option<ModelHandle>,
    loadTokenizer: (string, bool) -> Option<TokenizerHandle>,
    tokenize: (TokenizerHandle, string, bool) -> Option<TokenIds>,
    generate: (ModelHandle, TokenIds, GenerationConfig) -> Option<seq<TokenIds>>,
    decode: (TokenizerHandle, TokenIds, bool) -> Option<string>)

  /** Why a summary could not be produced (each is an exception raised by the Python code). */
  datatype SummarizeError =
    | TokenizerUnset     // the tokenizer is still None when the prompt is tokenized
    | TokenizeFailed     // the tokenizer raised
    | ModelUnset         // the model is still None when generation is requested
    | GenerateFailed     // generation raised
    | NoOutputSequence   // generation returned no sequence to decode
    | DecodeFailed       // decoding raised

  /** The three fields of the summarizer that loading changes. */
  datatype LoadState = LoadState(model: Option<ModelHandle>, tokenizer: Option<TokenizerHandle>, isLoaded: bool)

  const Unloaded := LoadState(None, None, false)

  /**
   * What the fields can be: the loaded flag is only set together with both handles,
   * and a tokenizer is only ever stored after a model has been.
   */
  predicate Consistent(s: LoadState) {
    (s.isLoaded ==> s.model.Some? && s.tokenizer.Some?)
    && (s.tokenizer.Some? ==> s.model.Some?)
  }

  /**
   * The fields after one load attempt starting from `prior`. The model is loaded first;
   * if that raises, nothing is assigned. If the tokenizer then raises, the new model
   * stays stored but the tokenizer keeps its old value. Either failure clears the flag.
   */
  function AfterLoad(backend: Backend, name: string, prior: LoadState): (r: LoadState)
    ensures r.isLoaded <==> backend.loadModel(name).Some? && backend.loadTokenizer(name, true).Some?
    ensures backend.loadModel(name).None? ==> r.model == prior.model && r.tokenizer == prior.tokenizer
    ensures backend.loadModel(name).Some? ==> r.model == backend.loadModel(name)
    ensures r.isLoaded ==> r.tokenizer == backend.loadTokenizer(name, true)
    ensures !r.isLoaded ==> r.tokenizer == prior.tokenizer
  {
    match backend.loadModel(name)
    case None => prior.(isLoaded := false)
    case Some(m) =>
      match backend.loadTokenizer(name, true)
      case None => LoadState(Some(m), prior.tokenizer, false)
      case Some(t) => LoadState(Some(m), Some(t), true)
  }

  /** A load attempt keeps the fields consistent, and never drops a handle already held. */
  lemma LoadKeepsConsistent(backend: Backend, name: string, prior: LoadState)
    requires Consistent(prior)
    ensures Consistent(AfterLoad(backend, name, prior))
    ensures prior.model.Some? ==> AfterLoad(backend, name, prior).model.Some?
    ensures prior.tokenizer.Some? ==> AfterLoad(backend, name, prior).tokenizer.Some?
  {
  }

  /**
   * A model that loads followed by a tokenizer that does not leaves a fresh summarizer
   * holding a model but no tokenizer: the two handles are not always set together.
   */
  lemma PartialLoadKeepsModel(backend: Backend, name: string)
    requires backend.loadModel(name).Some? && backend.loadTokenizer(name, true).None?
    ensures AfterLoad(backend, name, Unloaded) == LoadState(backend.loadModel(name), None, false)
  {
  }

  /**
   * The result of tokenizing `prompt`, generating with at most `maxLength` new tokens,
   * a beam width of four and early stopping, and decoding the best sequence with
   * special tokens skipped, using the handles in `s`. A call that raises ends the
   * computation with the matching error, as the exception propagates in the source.
   */
  function Inference(backend: Backend, s: LoadState, prompt: string, maxLength: int): (r: Result<string, SummarizeError>)
    ensures s.tokenizer.None? ==> r == Err(TokenizerUnset)
    ensures s.tokenizer.Some? && backend.tokenize(s.tokenizer.value, prompt, true).None? ==> r == Err(TokenizeFailed)
    ensures s.tokenizer.Some? && backend.tokenize(s.tokenizer.value, prompt, true).Some? && s.model.None?
            ==> r == Err(ModelUnset)
    ensures r.Ok? ==> s.tokenizer.Some? && s.model.Some?
  {
    match s.tokenizer
    case None => Err(TokenizerUnset)
    case Some(tok) =>
      match backend.tokenize(tok, prompt, true)
      case None => Err(TokenizeFailed)
      case Some(ids) =>
        match s.model
        case None => Err(ModelUnset)
        case Some(m) =>
          match backend.generate(m, ids, GenerationConfig(maxLength, BeamWidth, true))
          case None => Err(GenerateFailed)
          case Some(outputs) =>
            if |outputs| == 0 then Err(NoOutputSequence)
            else
              match backend.decode(tok, outputs[0], true)
              case None => Err(DecodeFailed)
              case Some(text) => Ok(text)
  }

  /**
   * A summarizer whose first load fails gets no summary: the tokenizer is still unset
   * when the prompt is tokenized.
   */
  lemma FailedFirstLoadCannotSummarize(backend: Backend, name: string, prompt: string, maxLength: int)
    requires !AfterLoad(backend, name, Unloaded).isLoaded
    ensures Inference(backend, AfterLoad(backend, name, Unloaded), prompt, maxLength) == Err(TokenizerUnset)
  {
  }

  /**
   * Whenever both handles are stored, whether or not the loaded flag is set (it is not
   * after a failed reload), the summary is the decoding, with special tokens skipped, of
   * the first sequence generated from the truncated tokenization of the prompt with
   * `maxLength` new tokens, four beams and early stopping; a library call that raises
   * gives its own error.
   */
  lemma InferenceWithBothHandles(backend: Backend, s: LoadState, prompt: string, maxLength: int)
    requires s.tokenizer.Some? && s.model.Some?
    ensures var tok, m := s.tokenizer.value, s.model.value;
            Inference(backend, s, prompt, maxLength)
              == match backend.tokenize(tok, prompt, true)
                 case None => Err(TokenizeFailed)
                 case Some(ids) =>
                   match backend.generate(m, ids, GenerationConfig(maxLength, BeamWidth, true))
                   case None => Err(GenerateFailed)
                   case Some(outputs) =>
                     if outputs == [] then Err(NoOutputSequence)
                     else if backend.decode(tok, outputs[0], true).None? then Err(DecodeFailed)
                     else Ok(backend.decode(tok, outputs[0], true).value)
    ensures Inference(backend, s, prompt, maxLength) != Err(TokenizerUnset)
    ensures Inference(backend, s, prompt, maxLength) != Err(ModelUnset)
  {
  }

  class DialogueSummarizer {
    const modelName: string
    var model: Option<ModelHandle>
    var tokenizer: Option<TokenizerHandle>
    var isLoaded: bool
    /** How many times a load has been attempted. */
    ghost var loadAttempts: nat

    function State(): LoadState
      reads this
    {
      LoadState(model, tokenizer, isLoaded)
    }

    ghost predicate Valid()
      reads this
    {
      Consistent(State())
    }

    /** A summarizer for the named model, with nothing loaded yet. */
    constructor (modelName: string := DefaultModelName)
      ensures Valid()
      ensures this.modelName == modelName
      ensures State() == Unloaded && loadAttempts == 0
    {
      this.modelName := modelName;
      model := None;
      tokenizer := None;
      isLoaded := false;
      loadAttempts := 0;
    }

    /** Attempts to load the model and then the tokenizer; a failure is absorbed into the flag. */
    method LoadModel(backend: Backend)
      requires Valid()
      modifies this
      ensures Valid()
      ensures State() == AfterLoad(backend, modelName, old(State()))
      ensures loadAttempts == old(loadAttempts) + 1
    {
      loadAttempts := loadAttempts + 1;
      var m := backend.loadModel(modelName);
      if m.None? {
        isLoaded := false;
        return;
      }
      model := m;
      var t := backend.loadTokenizer(modelName, true);
      if t.None? {
        isLoaded := false;
        return;
      }
      tokenizer := t;
      isLoaded := true;
    }

    /**
     * Summarizes `dialogue`: loads first if not yet loaded (once, and not at all when
     * already loaded), builds the prompt for `promptMethod`, and generates from it.
     */
    method Summarize(backend: Backend, dialogue: string, promptMethod: string := FewShot,
                     maxLength: int := DefaultMaxLength)
      returns (summary: Result<string, SummarizeError>)
      requires Valid()
      modifies this
      ensures Valid()
      ensures old(isLoaded) ==> State() == old(State()) && loadAttempts == old(loadAttempts)
      ensures !old(isLoaded) ==>
        State() == AfterLoad(backend, modelName, old(State())) && loadAttempts == old(loadAttempts) + 1
      ensures summary == Inference(backend, State(), CreatePrompt(dialogue, promptMethod), maxLength)
    {
      if !isLoaded {
        LoadModel(backend);
      }
      var prompt := CreatePrompt(dialogue, promptMethod);
      if tokenizer.None? {
        return Err(TokenizerUnset);
      }
      var inputIds := backend.tokenize(tokenizer.value, prompt, true);
      if inputIds.None? {
        return Err(TokenizeFailed);
      }
      if model.None? {
        return Err(ModelUnset);
      }
      var outputs := backend.generate(model.value, inputIds.value, GenerationConfig(maxLength, BeamWidth, true));
      if outputs.None? {
        return Err(GenerateFailed);
      }
      if |outputs.value| == 0 {
        return Err(NoOutputSequence);
      }
      var text := backend.decode(tokenizer.value, outputs.value[0], true);
      if text.None? {
        return Err(DecodeFailed);
      }
      summary := Ok(text.value);
    }
  }
}
