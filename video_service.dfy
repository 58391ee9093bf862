/** The session service: one process-wide object holding the current pipeline,
    the last transcript, title and URL, and the cached Whisper model. Each
    operation turns its outcome into a response record (the source's result
    dictionaries) instead of raising. Downloading, model loading and
    transcription are supplied by the caller as a `Media` value. */
module VideoService {
  import opened Common
  import opened Collaborators
  import opened Settings
  import opened VectorStores
  import opened LlmClient
  import opened RagPipeline

  const NoVideoQueryMessage: string := "No video has been processed yet. Please process a video first."
  const NoVideoSearchMessage: string := "No video has been processed yet."
  const NoTranscriptionMessage: string := "No transcription available."
  const WhisperModelName: string := "base"
  const UnknownTitle: string := "Unknown"

  /** What yt-dlp's `extract_info` reports; `title` is `None` when the key is absent. */
  datatype VideoInfo = VideoInfo(title: Option<string>)

  datatype WhisperModel = WhisperModel(name: string)

  /** The I/O steps of `process_video`, one call at a time.
      - download(url): `extract_info(url, download=True)`; may raise.
      - loadModel(name): `whisper.load_model(name)`; may raise.
      - transcribe(model): the `"text"` of `model.transcribe(...)` on the downloaded audio; may raise. */
  datatype Media = Media(
    download: string -> Result<VideoInfo>,
    loadModel: string -> Result<WhisperModel>,
    transcribe: WhisperModel -> Result<string>)

  datatype ProcessResponse = ProcessResponse(
    success: bool, videoTitle: Option<string>, transcriptionLength: Option<nat>,
    chunksCreated: Option<nat>, error: Option<string>)

  datatype QueryResponse = QueryResponse(success: bool, answer: string, error: Option<string>)

  datatype ChunkView = ChunkView(content: string, metadata: map<string, string>)

  datatype SearchResponse = SearchResponse(success: bool, chunks: seq<ChunkView>, error: Option<string>)

  datatype TranscriptionResponse = TranscriptionResponse(success: bool, transcription: string, error: Option<string>)

  datatype StatusResponse = StatusResponse(initialized: bool, videoUrl: Option<string>, transcriptionAvailable: bool)

  /** Python's `str.isspace` for one character. */
  predicate IsSpace(c: char)
  {
    c == ' ' || ('\t' <= c <= '\r') || ('\U{1c}' <= c <= '\U{1f}') || c == '\U{85}' || c == '\U{a0}'
    || c == '\U{1680}' || ('\U{2000}' <= c <= '\U{200a}') || c == '\U{2028}' || c == '\U{2029}'
    || c == '\U{202f}' || c == '\U{205f}' || c == '\U{3000}'
  }

  /** Leading whitespace removed: the result is no longer than the input and
      does not start with whitespace. */
  function StripStart(s: string): (r: string)
    ensures |r| <= |s|
    ensures r != [] ==> !IsSpace(r[0])
  {
    if s != [] && IsSpace(s[0]) then StripStart(s[1..]) else s
  }

  /** What `StripStart` drops is whitespace and what remains is a suffix that
      does not start with whitespace. */
  lemma {:induction false} StripStartTrims(s: string)
    ensures var r := StripStart(s);
      r == s[|s| - |r|..]
      && (forall k :: 0 <= k < |s| - |r| ==> IsSpace(s[k]))
      && (r != [] ==> !IsSpace(r[0]))
  {
    if s != [] && IsSpace(s[0]) {
      StripStartTrims(s[1..]);
      assert forall k :: 1 <= k < |s| - |StripStart(s)| ==> s[k] == s[1..][k - 1];
    }
  }

  /** Trailing whitespace removed: the result is no longer than the input and
      does not end with whitespace. */
  function StripEnd(s: string): (r: string)
    ensures |r| <= |s|
    ensures r != [] ==> !IsSpace(r[|r| - 1])
  {
    if s != [] && IsSpace(s[|s| - 1]) then StripEnd(s[..|s| - 1]) else s
  }

  /** What `StripEnd` drops is whitespace and what remains is a prefix that does
      not end with whitespace. */
  lemma {:induction false} StripEndTrims(s: string)
    ensures var r := StripEnd(s);
      r == s[..|r|]
      && (forall k :: |r| <= k < |s| ==> IsSpace(s[k]))
      && (r != [] ==> !IsSpace(r[|r| - 1]))
  {
    if s != [] && IsSpace(s[|s| - 1]) {
      StripEndTrims(s[..|s| - 1]);
      assert forall k :: |StripEnd(s)| <= k < |s| - 1 ==> s[k] == s[..|s| - 1][k];
    }
  }

  /** `str.strip()`: no longer than its input, and neither starting nor ending
      with whitespace. */
  function Strip(s: string): (r: string)
    ensures |r| <= |s|
    ensures r != [] ==> !IsSpace(r[0]) && !IsSpace(r[|r| - 1])
  {
    var t := StripStart(s);
    StripEndTrims(t);
    StripEnd(t)
  }

  /** `strip()` keeps one contiguous slice of its input, dropping only whitespace
      around it, and the slice neither starts nor ends with whitespace. */
  lemma StripKeepsTrimmedSlice(s: string)
    ensures var start := |s| - |StripStart(s)|; var r := Strip(s);
      start + |r| <= |s| && r == s[start..start + |r|]
      && (forall k :: 0 <= k < start ==> IsSpace(s[k]))
      && (forall k :: start + |r| <= k < |s| ==> IsSpace(s[k]))
      && (r != [] ==> !IsSpace(r[0]) && !IsSpace(r[|r| - 1]))
  {
    var t := StripStart(s);
    var start := |s| - |t|;
    var r := StripEnd(t);
    StripStartTrims(s);
    StripEndTrims(t);
    assert t == s[start..];
    assert r == t[..|r|];
    assert r == s[start..start + |r|];
    forall k | start + |r| <= k < |s|
      ensures IsSpace(s[k])
    {
      assert |r| <= k - start < |t|;
      assert s[k] == t[k - start];
    }
  }

  /** `strip()` gives `""` exactly when the input is all whitespace. */
  lemma StripEmptyIffBlank(s: string)
    ensures Strip(s) == "" <==> forall k :: 0 <= k < |s| ==> IsSpace(s[k])
  {
    StripKeepsTrimmedSlice(s);
  }

  /** Stripping twice is stripping once. */
  lemma StripIdempotent(s: string)
    ensures Strip(Strip(s)) == Strip(s)
  {
    var r := Strip(s);
    StripKeepsTrimmedSlice(s);
    if r != [] {
      StripStartTrims(r);
      StripEndTrims(r);
      assert StripStart(r) == r;
      assert StripEnd(r) == r;
    }
  }

  /** `info.get('title', 'Unknown')`. */
  function TitleOf(info: VideoInfo): (r: string)
    ensures info.title.Some? ==> r == info.title.value
    ensures info.title.None? ==> r == UnknownTitle
  {
    if info.title.Some? then info.title.value else UnknownTitle
  }

  /** The `DocumentProcessor` that `_initialize_pipeline` builds from the settings. */
  function ProcessorFor(config: Config): (r: DocumentProcessor)
  {
    DocumentProcessor(config.chunking.chunkSize, config.chunking.chunkOverlap)
  }

  /** `_initialize_pipeline`'s pipeline takes every setting it reads: the
      chunking, the embedding model and key, the chat model with its key,
      temperature and token limit, the store type with its index name, and top_k. */
  predicate BuiltFrom(p: RAGPipeline, config: Config)
  {
    p.docProcessor == ProcessorFor(config)
    && p.embeddings == Embeddings(config.model.embeddingModel, config.openaiApiKey)
    && p.vectorStore.embeddings == p.embeddings
    && p.llm.model == ChatModel(config.model.llmModel, Some(config.openaiApiKey), config.model.temperature, config.model.maxTokens)
    && SelectBackend(config.vectorStore.storeType, Some(config.vectorStore.indexName)) == Success(p.vectorStore.backend)
    && p.topK == config.vectorStore.topK
  }

  /** How far one `process_video` call gets, with what each finished step produced. */
  datatype ProcessStage =
    | DownloadFailed(error: Error)
    | ModelLoadFailed(title: string, error: Error)
    | TranscribeFailed(title: string, model: WhisperModel, error: Error)
    | PipelineFailed(title: string, model: WhisperModel, text: string, error: Error)
    | IngestFailed(title: string, model: WhisperModel, text: string, error: Error)
    | Processed(title: string, model: WhisperModel, text: string, chunks: nat)
  {
    predicate Downloaded() { !DownloadFailed? }
    predicate ModelReady() { Downloaded() && !ModelLoadFailed? }
    predicate Transcribed() { ModelReady() && !TranscribeFailed? }
    predicate PipelineInstalled() { IngestFailed? || Processed? }
  }

  /** The steps of `process_video` in order: download (sets the title), the
      Whisper model (cached or loaded), transcription (stripped), then indexing. */
  function Plan(videoUrl: string, media: Media, cached: Option<WhisperModel>, config: Config, lib: Libraries): (r: ProcessStage)
  {
    match media.download(videoUrl)
    case Failure(e) => DownloadFailed(e)
    case Success(info) =>
      var title := TitleOf(info);
      var loaded := if cached.Some? then Success(cached.value) else media.loadModel(WhisperModelName);
      match loaded
      case Failure(e) => ModelLoadFailed(title, e)
      case Success(model) =>
        match media.transcribe(model)
        case Failure(e) => TranscribeFailed(title, model, e)
        case Success(raw) => IndexPlan(title, model, Strip(raw), config, lib)
  }

  /** The last two steps of `process_video`: a new pipeline from the settings,
      then ingest of the transcript as text. */
  function IndexPlan(title: string, model: WhisperModel, text: string, config: Config, lib: Libraries): (r: ProcessStage)
  {
    match SelectBackend(config.vectorStore.storeType, Some(config.vectorStore.indexName))
    case Failure(e) => PipelineFailed(title, model, text, e)
    case Success(_) =>
      match Ingested(ProcessorFor(config), None, Some(text), lib)
      case Failure(e) => IngestFailed(title, model, text, e)
      case Success(chunks) => Processed(title, model, text, |chunks|)
  }

  /** With the default settings the factory selects the Pinecone backend on the
      default index, so a pipeline can be built from them. */
  lemma DefaultSettingsBuildPinecone(openaiApiKey: string, pineconeApiKey: string)
    ensures var store := DefaultConfig(openaiApiKey, pineconeApiKey).vectorStore;
      SelectBackend(store.storeType, Some(store.indexName)) == Success(Pinecone("es2al-index"))
  {
  }

  /** The dictionary `process_video` returns for a stage: a success carries the
      title, the transcript length and the chunk count and no error; a failure
      carries only the message of the step that raised. */
  function ProcessResponseFor(stage: ProcessStage): (r: ProcessResponse)
    ensures r.success <==> stage.Processed?
    ensures r.success ==>
              r.videoTitle == Some(stage.title) && r.transcriptionLength == Some(|stage.text|)
              && r.chunksCreated == Some(stage.chunks) && r.error == None
    ensures !r.success ==>
              r.videoTitle == None && r.transcriptionLength == None && r.chunksCreated == None
              && r.error == Some(stage.error.message)
  {
    if stage.Processed? then
      ProcessResponse(true, Some(stage.title), Some(|stage.text|), Some(stage.chunks), None)
    else
      ProcessResponse(false, None, None, None, Some(stage.error.message))
  }

  /** A processed video had a non-blank transcript; the number of chunks reported
      is the number the splitter produced for it, and the store accepted them. */
  lemma ProcessedTranscriptIngested(videoUrl: string, media: Media, cached: Option<WhisperModel>, config: Config, lib: Libraries)
    requires Plan(videoUrl, media, cached, config, lib).Processed?
    ensures var stage := Plan(videoUrl, media, cached, config, lib);
      var chunks := lib.splitText(config.chunking.chunkSize, config.chunking.chunkOverlap, stage.text);
      stage.text != "" && stage.chunks == |chunks| && lib.index(chunks) == Pass
  {
  }

  /** A transcript that is all whitespace strips to `""`, which `ingest_documents`
      rejects as falsy text: such a video never processes, and the pipeline is
      left installed without a chain. */
  lemma BlankTranscriptFailsIngest(videoUrl: string, media: Media, cached: Option<WhisperModel>, config: Config, lib: Libraries)
    requires var loaded := if cached.Some? then Success(cached.value) else media.loadModel(WhisperModelName);
      media.download(videoUrl).Success? && loaded.Success? && media.transcribe(loaded.value).Success?
      && forall k :: 0 <= k < |media.transcribe(loaded.value).value| ==> IsSpace(media.transcribe(loaded.value).value[k])
    requires SelectBackend(config.vectorStore.storeType, Some(config.vectorStore.indexName)).Success?
    ensures var stage := Plan(videoUrl, media, cached, config, lib);
      stage.IngestFailed? && stage.text == "" && stage.error == ValueError(NoSourceMessage)
  {
    var loaded := if cached.Some? then Success(cached.value) else media.loadModel(WhisperModelName);
    StripEmptyIffBlank(media.transcribe(loaded.value).value);
  }

  class VideoRAGService {
    var initialized: bool
    var pipeline: RAGPipeline?
    var whisperModel: Option<WhisperModel>
    var currentVideoUrl: Option<string>
    var transcriptionText: Option<string>
    var videoTitle: Option<string>

    ghost predicate Valid()
      reads this, if pipeline != null then pipeline.Repr() else {}
    {
      initialized && (pipeline != null ==> pipeline.Valid())
    }

    /** `__new__` on first use: a bare instance whose `_initialized` is false. */
    constructor ()
      ensures !initialized
    {
      initialized := false;
      pipeline := null;
      whisperModel := None;
      currentVideoUrl := None;
      transcriptionText := None;
      videoTitle := None;
    }

    /** `__init__`: sets every field to `None` the first time only. */
    method Init()
      modifies this
      ensures initialized
      ensures old(initialized) ==> unchanged(this)
      ensures !old(initialized) ==>
                pipeline == null && whisperModel == None && currentVideoUrl == None
                && transcriptionText == None && videoTitle == None
    {
      if !initialized {
        pipeline := null;
        whisperModel := None;
        currentVideoUrl := None;
        transcriptionText := None;
        videoTitle := None;
        initialized := true;
      }
    }

    /** `_load_whisper_model`: loads once; a cached model is returned without
        consulting the loader. */
    method LoadWhisperModel(media: Media) returns (r: Result<WhisperModel>)
      modifies this`whisperModel
      ensures old(whisperModel).Some? ==> r == Success(old(whisperModel).value) && whisperModel == old(whisperModel)
      ensures old(whisperModel).None? ==> r == media.loadModel(WhisperModelName)
      ensures old(whisperModel).None? ==> whisperModel == if r.Success? then Some(r.value) else None
    {
      if whisperModel.None? {
        var loaded := media.loadModel(WhisperModelName);
        if loaded.Failure? {
          return Failure(loaded.error);
        }
        whisperModel := Some(loaded.value);
      }
      r := Success(whisperModel.value);
    }

    /** `_initialize_pipeline`: a new pipeline from the settings replaces the
        current one, unless the factory raises, in which case nothing changes. */
    method InitializePipeline(config: Config) returns (r: Outcome)
      requires Valid()
      modifies this`pipeline
      ensures Valid()
      ensures var backend := SelectBackend(config.vectorStore.storeType, Some(config.vectorStore.indexName));
              (r.Fail? <==> backend.Failure?) && (r.Fail? ==> r.error == backend.error && pipeline == old(pipeline))
      ensures r.Pass? ==>
                pipeline != null && fresh(pipeline) && fresh(pipeline.vectorStore) && fresh(pipeline.llm)
                && pipeline.chain == None && pipeline.vectorStore.store == None && pipeline.llm.prompt == None
                && BuiltFrom(pipeline, config)
    {
      var processor := ProcessorFor(config);
      var embeddings := Embeddings(config.model.embeddingModel, config.openaiApiKey);
      var llm := new LLMClient(config.model.llmModel, Some(config.openaiApiKey), config.model.temperature, config.model.maxTokens);
      var built := NewPipeline(processor, embeddings, config.vectorStore.storeType, llm,
                               Some(config.vectorStore.indexName), config.vectorStore.topK);
      if built.Failure? {
        return Fail(built.error);
      }
      pipeline := built.value;
      r := Pass;
    }

    /** `process_video`: each step's result is kept as soon as it is produced, so a
        failure late in the run leaves the earlier steps' effects in place; the
        URL is recorded only when everything succeeded. */
    method ProcessVideo(videoUrl: string, config: Config, media: Media, lib: Libraries)
      returns (r: ProcessResponse, ghost stage: ProcessStage)
      requires Valid()
      modifies this`videoTitle, this`whisperModel, this`transcriptionText, this`pipeline, this`currentVideoUrl
      ensures Valid()
      ensures stage == Plan(videoUrl, media, old(whisperModel), config, lib)
      ensures r == ProcessResponseFor(stage)
      ensures videoTitle == if stage.Downloaded() then Some(stage.title) else old(videoTitle)
      ensures whisperModel == if stage.ModelReady() then Some(stage.model) else old(whisperModel)
      ensures transcriptionText == if stage.Transcribed() then Some(stage.text) else old(transcriptionText)
      ensures !stage.PipelineInstalled() ==> pipeline == old(pipeline)
      ensures stage.PipelineInstalled() ==>
                pipeline != null && fresh(pipeline) && fresh(pipeline.vectorStore) && fresh(pipeline.llm)
                && BuiltFrom(pipeline, config)
      ensures stage.IngestFailed? ==> pipeline.chain == None && pipeline.vectorStore.store == None
      ensures stage.Processed? ==>
                pipeline.chain.Some?
                && pipeline.vectorStore.store == Some(lib.splitText(config.chunking.chunkSize, config.chunking.chunkOverlap, stage.text))
      ensures currentVideoUrl == if stage.Processed? then Some(videoUrl) else old(currentVideoUrl)
    {
      var info := media.download(videoUrl);
      if info.Failure? {
        stage := DownloadFailed(info.error);
        r := ProcessResponse(false, None, None, None, Some(info.error.message));
        return;
      }
      var title := TitleOf(info.value);
      videoTitle := Some(title);
      var model := LoadWhisperModel(media);
      if model.Failure? {
        stage := ModelLoadFailed(title, model.error);
        r := ProcessResponse(false, None, None, None, Some(model.error.message));
        return;
      }
      var raw := media.transcribe(model.value);
      if raw.Failure? {
        stage := TranscribeFailed(title, model.value, raw.error);
        r := ProcessResponse(false, None, None, None, Some(raw.error.message));
        return;
      }
      var text := Strip(raw.value);
      transcriptionText := Some(text);
      r, stage := IndexTranscript(videoUrl, title, model.value, text, config, lib);
      assert stage == Plan(videoUrl, media, old(whisperModel), config, lib);
    }

    /** The part of `process_video` after transcription: a new pipeline, then the
        ingest of the transcript; the URL is recorded only when both succeed. */
    method IndexTranscript(videoUrl: string, title: string, model: WhisperModel, text: string, config: Config, lib: Libraries)
      returns (r: ProcessResponse, ghost stage: ProcessStage)
      requires Valid() && videoTitle == Some(title) && transcriptionText == Some(text)
      modifies this`pipeline, this`currentVideoUrl
      ensures Valid()
      ensures stage == IndexPlan(title, model, text, config, lib)
      ensures r == ProcessResponseFor(stage)
      ensures !stage.PipelineInstalled() ==> pipeline == old(pipeline)
      ensures stage.PipelineInstalled() ==>
                pipeline != null && fresh(pipeline) && fresh(pipeline.vectorStore) && fresh(pipeline.llm)
                && BuiltFrom(pipeline, config)
      ensures stage.IngestFailed? ==> pipeline.chain == None && pipeline.vectorStore.store == None
      ensures stage.Processed? ==>
                pipeline.chain.Some?
                && pipeline.vectorStore.store == Some(lib.splitText(config.chunking.chunkSize, config.chunking.chunkOverlap, text))
      ensures currentVideoUrl == if stage.Processed? then Some(videoUrl) else old(currentVideoUrl)
    {
      stage := IndexPlan(title, model, text, config, lib);
      var built := InitializePipeline(config);
      if built.Fail? {
        r := ProcessResponse(false, None, None, None, Some(built.error.message));
        return;
      }
      var ingested := pipeline.IngestDocuments(None, transcriptionText, lib);
      if ingested.Failure? {
        r := ProcessResponse(false, None, None, None, Some(ingested.error.message));
        return;
      }
      currentVideoUrl := Some(videoUrl);
      r := ProcessResponse(true, videoTitle, Some(|transcriptionText.value|), Some(ingested.value), None);
    }

    /** `query`: without a pipeline, the fixed error and no answer; otherwise the
        pipeline's answer, or its exception's message and no answer. */
    method Query(question: string, lib: Libraries) returns (r: QueryResponse)
      requires Valid()
      ensures pipeline == null ==> r == QueryResponse(false, "", Some(NoVideoQueryMessage))
      ensures pipeline != null && pipeline.chain.None? ==> r == QueryResponse(false, "", Some(NotIngestedMessage))
      ensures pipeline != null && pipeline.chain.Some? ==>
                var answer := InvokeChain(pipeline.chain.value, pipeline.vectorStore.store.value, question, lib);
                r == if answer.Success? then QueryResponse(true, answer.value, None)
                     else QueryResponse(false, "", Some(answer.error.message))
    {
      if pipeline == null {
        return QueryResponse(false, "", Some(NoVideoQueryMessage));
      }
      var answer := pipeline.Query(question, lib);
      if answer.Failure? {
        return QueryResponse(false, "", Some(answer.error.message));
      }
      r := QueryResponse(true, answer.value, None);
    }

    /** `search_chunks`: without a pipeline, no chunks and the fixed error;
        otherwise one chunk per retrieved document, in retrieval order, with its
        content and metadata. */
    method SearchChunks(query: string, lib: Libraries, numChunks: int := 3) returns (r: SearchResponse)
      requires Valid()
      ensures pipeline == null ==> r == SearchResponse(false, [], Some(NoVideoSearchMessage))
      ensures pipeline != null ==>
                var found := pipeline.vectorStore.SimilaritySearch(query, lib, EffectiveK(Some(numChunks), pipeline.topK));
                (found.Failure? ==> r == SearchResponse(false, [], Some(found.error.message)))
                && (found.Success? ==>
                      r.success && r.error == None && |r.chunks| == |found.value|
                      && forall i :: 0 <= i < |r.chunks| ==>
                           r.chunks[i] == ChunkView(found.value[i].content, found.value[i].metadata))
    {
      if pipeline == null {
        return SearchResponse(false, [], Some(NoVideoSearchMessage));
      }
      var docs := pipeline.SearchSimilar(query, Some(numChunks), lib);
      if docs.Failure? {
        return SearchResponse(false, [], Some(docs.error.message));
      }
      var found := docs.value;
      var chunks := seq(|found|, i requires 0 <= i < |found| => ChunkView(found[i].content, found[i].metadata));
      r := SearchResponse(true, chunks, None);
    }

    /** `get_transcription`: succeeds exactly when the transcript is truthy. */
    function GetTranscription(): (r: TranscriptionResponse)
      reads this
      ensures r.success <==> Truthy(transcriptionText)
      ensures r.success ==> r.transcription == transcriptionText.value && r.error == None
      ensures !r.success ==> r.transcription == "" && r.error == Some(NoTranscriptionMessage)
    {
      if !Truthy(transcriptionText) then TranscriptionResponse(false, "", Some(NoTranscriptionMessage))
      else TranscriptionResponse(true, transcriptionText.value, None)
    }

    /** `get_status`: `is not None` tests on the pipeline and the transcript. */
    function GetStatus(): (r: StatusResponse)
      reads this
      ensures r.initialized <==> pipeline != null
      ensures r.transcriptionAvailable <==> transcriptionText.Some?
      ensures r.videoUrl == currentVideoUrl
    {
      StatusResponse(pipeline != null, currentVideoUrl, transcriptionText.Some?)
    }

    /** Status and transcription disagree exactly on an empty transcript: it is
        reported available, yet fetching it fails. */
    lemma EmptyTranscriptQuirk()
      ensures GetStatus().transcriptionAvailable && !GetTranscription().success <==> transcriptionText == Some("")
    {
    }
  }

  /** The class attribute `VideoRAGService._instance`. */
  class ServiceRegistry {
    var instance: VideoRAGService?

    /** The instance, once created, is initialised and its pipeline consistent. */
    ghost predicate Valid()
      reads this, instance
      reads if instance != null && instance.pipeline != null then instance.pipeline.Repr() else {}
    {
      instance != null ==> instance.Valid()
    }

    constructor ()
      ensures Valid() && instance == null
    {
      instance := null;
    }

    /** `VideoRAGService()`: the first call creates and initialises the instance;
        every later call returns that same instance with its state untouched. */
    method Instance() returns (s: VideoRAGService)
      requires Valid()
      modifies this, instance
      ensures Valid() && instance == s && s.Valid()
      ensures old(instance) != null ==> s == old(instance) && unchanged(s)
      ensures old(instance) == null ==>
                fresh(s) && s.pipeline == null && s.whisperModel == None
                && s.currentVideoUrl == None && s.transcriptionText == None && s.videoTitle == None
    {
      if instance == null {
        instance := new VideoRAGService();
      }
      s := instance;
      s.Init();
    }
  }
}
