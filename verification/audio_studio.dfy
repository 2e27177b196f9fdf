/** The audio studio: a stage-6 (image storyboard) document can be uploaded
    as the source of a generation, a finished audio-prompt document can be
    restored, a document handed in by the shell replaces what is shown, and
    the header shows a title picked by a fallback chain. */
module AudioStudio {

  import opened Js
  import JsonUtils

  const EmptyFileMessage := "File is empty or could not be read."
  const BadStage6Message := "잘못된 Stage 6 파일입니다. 'shots' 배열이 포함된 유효한 JSON 파일을 업로드하세요."
  const BadRestoreMessage := "잘못된 오디오 프롬프트 파일입니다. 'music_prompts'와 'narration_script'가 포함된 파일을 업로드하세요."
  const FailurePrefix := "파일 처리 실패: "
  const ReadFailedMessage := "파일을 읽지 못했습니다."
  const AudioTitle := "오디오 프롬프트"
  const NoTitle := "제목 없음"
  const NoStage6Message := "Please upload the Stage 6 JSON file."
  const MissingKeyMessage := "API key is not configured."
  const GenerateFailedPrefix := "Failed to generate audio prompts: "

  /** What the file reader delivers: a read error, an empty text, a text
      that is not JSON (with the parser's message), or a parsed document. */
  datatype FileRead = Unreadable | EmptyText | BadJson(message: string) | JsonText(doc: Json)

  /** The file input's change: no file, or a file with what reading it gave. */
  datatype Chosen = NothingChosen | Chosen(name: string, read: FileRead)

  /** A stage-6 document: it has a `shots` property holding an array. */
  predicate IsStage6(doc: Json) {
    HasKey(doc, "shots") && IsArray(Field(doc, "shots"))
  }

  /** The stage-6 upload's `try` block: the document when it is accepted,
      else the message of what it throws (`in` throws on a primitive). */
  function Stage6Check(read: FileRead): (r: Result<Json>)
    requires !read.Unreadable?
    ensures r.Ok? <==> read.JsonText? && IsStage6(read.doc)
    ensures r.Ok? ==> r.value == read.doc
  {
    match read
    case EmptyText => Throw(EmptyFileMessage)
    case BadJson(m) => Throw(m)
    case JsonText(doc) =>
      if InRejects(doc) then Throw(TypeErrorMessage)
      else if HasKey(doc, "shots") && IsArray(Field(doc, "shots")) then Ok(doc)
      else Throw(BadStage6Message)
  }

  /** The restore's `try` block: accepted when both audio keys are present. */
  function RestoreCheck(read: FileRead): (r: Result<Json>)
    requires !read.Unreadable?
    ensures r.Ok? <==> read.JsonText? && JsonUtils.IsAudioJson(read.doc)
    ensures r.Ok? ==> r.value == read.doc
  {
    match read
    case EmptyText => Throw(EmptyFileMessage)
    case BadJson(m) => Throw(m)
    case JsonText(doc) =>
      if InRejects(doc) then Throw(TypeErrorMessage)
      else if HasKey(doc, "music_prompts") && HasKey(doc, "narration_script") then Ok(doc)
      else Throw(BadRestoreMessage)
  }

  /** A document the restore accepts is one the shell's detector classifies
      as an audio document, and one the stage-6 upload accepts is classified
      as an image or a video document. */
  lemma AcceptedDocumentsClassify(doc: Json)
    ensures RestoreCheck(JsonText(doc)).Ok? ==> JsonUtils.DetectJsonType(doc) == Ok(JsonUtils.Audio)
    ensures Stage6Check(JsonText(doc)).Ok? && !JsonUtils.IsAudioJson(doc) ==>
      JsonUtils.DetectJsonType(doc) in {Ok(JsonUtils.Image), Ok(JsonUtils.Video)}
  {
    if !InRejects(doc) {
      JsonUtils.GuardsAgree(doc);
    }
  }

  /** `v?.[0]`: the first element of an array, the first character of a
      string, the member named "0" of an object. */
  function Index0(v: Value): Value {
    match v
    case Some(JArr(items)) => if |items| == 0 then None else Some(items[0])
    case Some(JStr(s)) => if s == "" then None else Some(JStr([s[0]]))
    case Some(JObj(_)) => Field(v.value, "0")
    case _ => None
  }

  /** `sceneTitle`: the audio label while an audio document is shown; else
      the first shot's description, then the scene id, then "no title". */
  function SceneTitleOf(generatedAudio: Value, stage6Json: Value): (title: Value)
    ensures Truthy(title)
    ensures Truthy(generatedAudio) ==> title == Some(JStr(AudioTitle))
    ensures !Truthy(generatedAudio) && !Truthy(stage6Json) ==> title == Some(JStr(NoTitle))
  {
    if Truthy(generatedAudio) then Some(JStr(AudioTitle))
    else if !Truthy(stage6Json) then Some(JStr(NoTitle))
    else
      Or(OptGet(Index0(Field(stage6Json.value, "shots")), "shot_description"),
         Or(OptGet(Field(stage6Json.value, "scene_info"), "scene_id"), Some(JStr(NoTitle))))
  }

  /** With a stage-6 document and no audio document, a non-empty first shot
      description is the title; without one, a non-empty scene id is. */
  lemma SceneTitleFallback(stage6: Json, shot: Json, rest: seq<Json>)
    requires Truthy(Some(stage6)) && Field(stage6, "shots") == Some(JArr([shot] + rest))
    ensures var d := Field(shot, "shot_description");
      var id := OptGet(Field(stage6, "scene_info"), "scene_id");
      (Truthy(d) ==> SceneTitleOf(Null, Some(stage6)) == d)
      && (!Truthy(d) && Truthy(id) ==> SceneTitleOf(Null, Some(stage6)) == id)
      && (!Truthy(d) && !Truthy(id) ==> SceneTitleOf(Null, Some(stage6)) == Some(JStr(NoTitle)))
  {
    assert Index0(Field(stage6, "shots")) == Some(shot);
  }

  class AudioStudioState {
    var stage6File: Option<string>
    var stage6Json: Value
    var generatedAudio: Value
    var isLoading: bool
    var error: Option<string>

    /** The stage-6 file and document are set and cleared together, and the
        document is a stage-6 document. */
    predicate Valid()
      reads this
    {
      (stage6File.None? && stage6Json == Null)
      || (stage6File.Some? && stage6Json.Some? && IsStage6(stage6Json.value))
    }

    constructor()
      ensures Valid()
      ensures stage6File.None? && stage6Json == Null && generatedAudio == Null
      ensures !isLoading && error.None?
    {
      stage6File := None;
      stage6Json := Null;
      generatedAudio := Null;
      isLoading := false;
      error := None;
    }

    function SceneTitle(): Value
      reads this
    {
      SceneTitleOf(generatedAudio, stage6Json)
    }

    /** The `initialData` effect: a document handed in replaces the audio
        document and clears the stage-6 upload. */
    method ReceiveInitialData(initialData: Value)
      requires Valid()
      modifies this
      ensures Valid()
      ensures !Truthy(initialData) ==> unchanged(this)
      ensures Truthy(initialData) ==>
        generatedAudio == initialData && stage6File.None? && stage6Json == Null
        && isLoading == old(isLoading) && error == old(error)
    {
      if Truthy(initialData) {
        generatedAudio := initialData;
        stage6File := None;
        stage6Json := Null;
      }
    }

    /** The clear button beside the uploaded stage-6 file: the file and its
        document are dropped together, and nothing else changes. */
    method ClearStage6()
      requires Valid()
      modifies this
      ensures Valid()
      ensures stage6File.None? && stage6Json == Null
      ensures generatedAudio == old(generatedAudio) && isLoading == old(isLoading) && error == old(error)
      ensures SceneTitle() == SceneTitleOf(generatedAudio, Null)
    {
      stage6File := None;
      stage6Json := Null;
    }

    /** `handleStage6Upload`: an accepted document becomes the generation
        source and the audio document is dropped; a rejected one clears the
        upload and reports why; a read error is only reported. */
    method HandleStage6Upload(chosen: Chosen)
      requires Valid()
      modifies this
      ensures Valid()
      ensures isLoading == old(isLoading)
      ensures chosen.NothingChosen? ==> unchanged(this)
      ensures chosen.Chosen? && chosen.read.Unreadable? ==>
        error == Some(ReadFailedMessage) && stage6File == old(stage6File)
        && stage6Json == old(stage6Json) && generatedAudio == old(generatedAudio)
      ensures chosen.Chosen? && !chosen.read.Unreadable? && Stage6Check(chosen.read).Ok? ==>
        stage6File == Some(chosen.name) && stage6Json == Some(chosen.read.doc)
        && generatedAudio == Null && error.None?
      ensures chosen.Chosen? && !chosen.read.Unreadable? && Stage6Check(chosen.read).Throw? ==>
        error == Some(FailurePrefix + Stage6Check(chosen.read).message)
        && stage6File.None? && stage6Json == Null && generatedAudio == old(generatedAudio)
    {
      if chosen.NothingChosen? {
        return;
      }
      error := None;
      if chosen.read.Unreadable? {
        error := Some(ReadFailedMessage);
        return;
      }
      var checked := Stage6Check(chosen.read);
      if checked.Ok? {
        stage6File := Some(chosen.name);
        stage6Json := Some(checked.value);
        generatedAudio := Null;
      } else {
        error := Some(FailurePrefix + checked.message);
        stage6File := None;
        stage6Json := Null;
      }
    }

    /** `handleRestoreUpload`: an accepted audio document is shown, handed to
        the shell (`notified`) and the stage-6 upload cleared; a rejected one
        only sets the error. */
    method HandleRestoreUpload(chosen: Chosen) returns (notified: Option<Json>)
      requires Valid()
      modifies this
      ensures Valid()
      ensures isLoading == old(isLoading)
      ensures chosen.NothingChosen? ==> unchanged(this) && notified.None?
      ensures chosen.Chosen? && chosen.read.Unreadable? ==>
        error == Some(ReadFailedMessage) && notified.None? && stage6File == old(stage6File)
        && stage6Json == old(stage6Json) && generatedAudio == old(generatedAudio)
      ensures chosen.Chosen? && !chosen.read.Unreadable? && RestoreCheck(chosen.read).Ok? ==>
        generatedAudio == Some(chosen.read.doc) && notified == Some(chosen.read.doc)
        && stage6File.None? && stage6Json == Null && error.None?
      ensures chosen.Chosen? && !chosen.read.Unreadable? && RestoreCheck(chosen.read).Throw? ==>
        error == Some(FailurePrefix + RestoreCheck(chosen.read).message) && notified.None?
        && stage6File == old(stage6File) && stage6Json == old(stage6Json)
        && generatedAudio == old(generatedAudio)
    {
      notified := None;
      if chosen.NothingChosen? {
        return;
      }
      error := None;
      if chosen.read.Unreadable? {
        error := Some(ReadFailedMessage);
        return;
      }
      var checked := RestoreCheck(chosen.read);
      if checked.Ok? {
        generatedAudio := Some(checked.value);
        notified := Some(checked.value);
        stage6File := None;
        stage6Json := Null;
      } else {
        error := Some(FailurePrefix + checked.message);
      }
    }

    /** `handleGenerate`, with whether an API key is configured and the
        outcome of the generation call given. Without a stage-6 document it
        only reports that one is needed; otherwise the old audio document is
        dropped and a generated one is shown and handed to the shell. */
    method HandleGenerate(apiKeyConfigured: bool, outcome: Result<Json>) returns (notified: Option<Json>)
      requires Valid()
      modifies this
      ensures Valid()
      ensures stage6File == old(stage6File) && stage6Json == old(stage6Json)
      ensures !Truthy(stage6Json) ==>
        error == Some(NoStage6Message) && notified.None?
        && generatedAudio == old(generatedAudio) && isLoading == old(isLoading)
      ensures Truthy(stage6Json) ==> !isLoading
      ensures Truthy(stage6Json) && !apiKeyConfigured ==>
        error == Some(GenerateFailedPrefix + MissingKeyMessage) && generatedAudio == Null && notified.None?
      ensures Truthy(stage6Json) && apiKeyConfigured && outcome.Throw? ==>
        error == Some(GenerateFailedPrefix + outcome.message) && generatedAudio == Null && notified.None?
      ensures Truthy(stage6Json) && apiKeyConfigured && outcome.Ok? ==>
        error.None? && generatedAudio == Some(outcome.value) && notified == Some(outcome.value)
    {
      notified := None;
      if !Truthy(stage6Json) {
        error := Some(NoStage6Message);
        return;
      }
      isLoading := true;
      error := None;
      generatedAudio := Null;
      if !apiKeyConfigured {
        error := Some(GenerateFailedPrefix + MissingKeyMessage);
      } else if outcome.Throw? {
        error := Some(GenerateFailedPrefix + outcome.message);
      } else {
        generatedAudio := Some(outcome.value);
        notified := Some(outcome.value);
      }
      isLoading := false;
    }
  }
}
