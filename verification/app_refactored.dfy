/** The refactored application shell: the session state it keeps beside the
    file-manager hook, and the handlers that load a file, clear the project,
    go home, pick a studio, generate video prompts from the image document,
    and open and close the prompt editor. */
module AppRefactored {

  import opened Js
  import opened Studio
  import opened FileManager

  /** `UI_MESSAGES.ERROR.API_NOT_CONFIGURED`. */
  const ApiNotConfiguredMessage := "API 키와 모델을 먼저 설정해주세요."

  /** `UI_MESSAGES.ERROR.GENERATION_FAILED`. */
  const GenerationFailedMessage := "프롬프트 생성에 실패했습니다."

  /** The name a generated video document is recorded under. */
  const GeneratedVideoFileName := "generated_video_prompts.json"

  /** Whether the hook's `handleFileChange` resolves for a picked file: the
      file was read, parsed and processed without a throw. */
  predicate Loads(upload: Upload) {
    upload.Picked? && upload.read.Parsed? && Process(upload.read.doc).Ok?
  }

  /** The hook's error for a picked file that does not load. */
  function LoadError(read: ReadOutcome): string {
    match read
    case ReadError => "Failed to read the file."
    case SyntaxError(m) => "Failed to parse JSON: " + m
    case Parsed(_) => "Failed to parse JSON: " + TypeErrorMessage
  }

  /** The guard of video generation: an image document, a key and a model. */
  predicate CanGenerate(rawImageJson: Option<Json>, apiKey: string, selectedModel: string) {
    Truthy(rawImageJson) && apiKey != "" && selectedModel != ""
  }

  /** The generation call returned a document that processes without a throw. */
  predicate Generated(outcome: Result<Json>) {
    outcome.Ok? && Process(outcome.value).Ok?
  }

  class Session {
    const fm: FileManagerState
    var studioMode: Option<Mode>
    var normalizedData: Option<NormalizedData>
    var rawImageJson: Option<Json>
    var rawVideoJson: Option<Json>
    var rawJsonForAudio: Option<Json>
    var generatedAudioJson: Option<Json>
    var activeShotId: Value
    var isSidebarOpen: bool
    var editingPrompt: Option<Json>

    /** The six document fields, in the shape `processAndSetData` returns. */
    function Document(): Processed
      reads this
    {
      Processed(studioMode, normalizedData, rawImageJson, rawVideoJson, rawJsonForAudio, generatedAudioJson)
    }

    constructor()
      ensures fresh(fm) && fm.fileName.None? && !fm.isLoading && fm.error.None?
      ensures Document() == Empty
      ensures activeShotId == Null && !isSidebarOpen && editingPrompt.None?
    {
      fm := new FileManagerState();
      studioMode := None;
      normalizedData := None;
      rawImageJson := None;
      rawVideoJson := None;
      rawJsonForAudio := None;
      generatedAudioJson := None;
      activeShotId := Null;
      isSidebarOpen := false;
      editingPrompt := None;
    }

    /** `handleFileChange`: the hook reads and processes the file; when its
        promise resolves, the file is processed again and the six document
        fields are replaced by the result. A rejection is only logged, so
        the session keeps its document and the hook shows the error. */
    method HandleFileChange(upload: Upload)
      modifies this, fm
      ensures upload.NoFile? ==> unchanged(this) && unchanged(fm)
      ensures upload.Picked? ==> !fm.isLoading
      ensures Loads(upload) ==>
        Document() == Process(upload.read.doc).value
        && activeShotId == old(activeShotId) && isSidebarOpen == old(isSidebarOpen)
        && editingPrompt == old(editingPrompt)
        && fm.fileName == Some(upload.name) && fm.error.None?
      ensures upload.Picked? && !Loads(upload) ==>
        unchanged(this) && fm.fileName == old(fm.fileName) && fm.error == Some(LoadError(upload.read))
    {
      if upload.NoFile? {
        return;
      }
      var ok := fm.HandleFileChange(upload);
      if ok && upload.read.Parsed? {
        var result := fm.ProcessAndSetData(upload.read.doc, upload.name);
        if result.Ok? {
          studioMode := result.value.studioMode;
          normalizedData := result.value.normalizedData;
          rawImageJson := result.value.rawImageJson;
          rawVideoJson := result.value.rawVideoJson;
          rawJsonForAudio := result.value.rawJsonForAudio;
          generatedAudioJson := result.value.generatedAudioJson;
        }
      }
    }

    /** `handleClearProject`: the hook forgets file name and error, and every
        document field, the shot selection and the editor are reset. */
    method HandleClearProject()
      modifies this, fm
      ensures Document() == Empty && activeShotId == Null && editingPrompt.None?
      ensures isSidebarOpen == old(isSidebarOpen)
      ensures fm.fileName.None? && fm.error.None? && fm.isLoading == old(fm.isLoading)
    {
      fm.HandleClearProject();
      studioMode := None;
      normalizedData := None;
      rawImageJson := None;
      rawVideoJson := None;
      rawJsonForAudio := None;
      generatedAudioJson := None;
      activeShotId := Null;
      editingPrompt := None;
    }

    /** `handleGoHome` is clearing the project. */
    method HandleGoHome()
      modifies this, fm
      ensures Document() == Empty && activeShotId == Null && editingPrompt.None?
      ensures isSidebarOpen == old(isSidebarOpen)
      ensures fm.fileName.None? && fm.error.None? && fm.isLoading == old(fm.isLoading)
    {
      HandleClearProject();
    }

    /** `handleStudioSelect`: only the mode changes. */
    method HandleStudioSelect(mode: Mode)
      modifies this
      ensures Document() == old(Document()).(studioMode := Some(mode))
      ensures activeShotId == old(activeShotId) && isSidebarOpen == old(isSidebarOpen)
      ensures editingPrompt == old(editingPrompt)
    {
      studioMode := Some(mode);
    }

    /** `handleGenerateVideoPrompts`, with the configured key and model and
        the outcome of the generation call as parameters. Without an image
        document, a key or a model it reports the configuration error.
        Otherwise a generated document is processed under a fixed name and
        replaces mode, normalized data, video document and audio source; the
        image document and any audio document stay. A failed call or a throw
        while processing reports the generation error. Loading ends in every
        case. */
    method HandleGenerateVideoPrompts(apiKey: string, selectedModel: string, outcome: Result<Json>)
      modifies this, fm
      ensures !CanGenerate(old(rawImageJson), apiKey, selectedModel) ==>
        unchanged(this) && fm.error == Some(ApiNotConfiguredMessage)
        && fm.fileName == old(fm.fileName) && fm.isLoading == old(fm.isLoading)
      ensures CanGenerate(old(rawImageJson), apiKey, selectedModel) ==> !fm.isLoading
      ensures CanGenerate(old(rawImageJson), apiKey, selectedModel) && !Generated(outcome) ==>
        unchanged(this) && fm.error == Some(GenerationFailedMessage) && fm.fileName == old(fm.fileName)
      ensures CanGenerate(old(rawImageJson), apiKey, selectedModel) && Generated(outcome) ==>
        var p := Process(outcome.value).value;
        Document() == p.(rawImageJson := old(rawImageJson), generatedAudioJson := old(generatedAudioJson))
        && activeShotId == old(activeShotId) && isSidebarOpen == old(isSidebarOpen)
        && editingPrompt == old(editingPrompt)
        && fm.fileName == Some(GeneratedVideoFileName) && fm.error.None?
    {
      if !CanGenerate(rawImageJson, apiKey, selectedModel) {
        fm.SetError(Some(ApiNotConfiguredMessage));
        return;
      }
      fm.SetIsLoading(true);
      fm.SetError(None);
      match outcome {
        case Throw(_) =>
          fm.SetError(Some(GenerationFailedMessage));
        case Ok(videoData) =>
          var result := fm.ProcessAndSetData(videoData, GeneratedVideoFileName);
          if result.Throw? {
            fm.SetError(Some(GenerationFailedMessage));
          } else {
            studioMode := result.value.studioMode;
            normalizedData := result.value.normalizedData;
            rawVideoJson := result.value.rawVideoJson;
            rawJsonForAudio := result.value.rawJsonForAudio;
          }
      }
      fm.SetIsLoading(false);
    }

    /** The viewer's edit action: the entry becomes the one being edited. */
    method OpenEditor(entry: Json)
      modifies this
      ensures editingPrompt == Some(entry)
      ensures Document() == old(Document()) && activeShotId == old(activeShotId)
      ensures isSidebarOpen == old(isSidebarOpen)
    {
      editingPrompt := Some(entry);
    }

    /** The editor's save: the edited entry is discarded and the editor
        closes; no document field changes. */
    method OnSave(updatedPrompt: Json)
      modifies this
      ensures editingPrompt.None?
      ensures Document() == old(Document()) && activeShotId == old(activeShotId)
      ensures isSidebarOpen == old(isSidebarOpen)
    {
      editingPrompt := None;
    }

    /** The editor's close. */
    method OnClose()
      modifies this
      ensures editingPrompt.None?
      ensures Document() == old(Document()) && activeShotId == old(activeShotId)
      ensures isSidebarOpen == old(isSidebarOpen)
    {
      editingPrompt := None;
    }
  }

  /** Loading a document the detector does not recognise resolves and sends
      the session back to studio selection with no document and no error. */
  lemma UnrecognisedUploadResets(upload: Upload)
    requires upload.Picked? && upload.read.Parsed?
    requires !InRejects(upload.read.doc)
    requires JsonUtils.DetectJsonType(upload.read.doc) == Ok(JsonUtils.Unknown)
    ensures Loads(upload) && Process(upload.read.doc).value == Empty
  {
    ProcessClassifies(upload.read.doc);
    ProcessRawFields(upload.read.doc);
  }

  /** A generated document that is a video document (and not an audio one)
      opens the video studio on its entries, keeping the image document as
      the source the generation started from. */
  lemma GeneratedVideoOpensVideoStudio(doc: Json)
    requires Process(doc).Ok?
    requires JsonUtils.IsVideoJson(doc) && !JsonUtils.IsAudioJson(doc)
    ensures var p := Process(doc).value;
      p.studioMode == Some(VideoMode) && p.rawVideoJson == Some(doc) && p.rawJsonForAudio == Some(doc)
      && p.normalizedData.Some?
  {
    ProcessClassifies(doc);
    ProcessRawFields(doc);
  }
}
