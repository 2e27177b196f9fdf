/** The file-manager hook: normalisation of a parsed document into the
    `ProcessedDataResult` the session applies, and the hook's own state
    (`fileName`, `isLoading`, `error`) with the handlers that update it. */
module FileManager {

  import opened Js
  import opened Studio
  import JsonUtils

  /** `ProcessedDataResult`. */
  datatype Processed = Processed(
    studioMode: Option<Mode>,
    normalizedData: Option<NormalizedData>,
    rawImageJson: Option<Json>,
    rawVideoJson: Option<Json>,
    rawJsonForAudio: Option<Json>,
    generatedAudioJson: Option<Json>)

  /** The initial result, every field `null`. */
  const Empty := Processed(None, None, None, None, None, None)

  /** The entry made from one `video_prompts` item (not `null`). */
  function VideoEntry(vp: Json): Json {
    var reference := Field(vp, "image_reference");
    Literal([("shot_id", Field(vp, "shot_id")), ("image_id", Field(vp, "image_id")),
             ("prompts", Field(vp, "prompts")),
             ("image_title", OptGet(reference, "title")),
             ("image_description", OptGet(reference, "description"))])
  }

  /** The entry made from one image of a shot; title and description come
      from the image's `title` and `description`. */
  function ImageEntry(shot: Json, image: Json): Json {
    Literal([("shot_id", Field(shot, "shot_id")), ("image_id", Field(image, "image_id")),
             ("prompts", Field(image, "prompts")),
             ("image_title", Field(image, "title")),
             ("image_description", Field(image, "description"))])
  }

  /** `video_prompts.map(vp => ...)`: reading a property of a `null` item throws. */
  function MapVideoEntries(vps: seq<Json>): (r: Result<seq<Json>>)
    ensures r.Ok? <==> NoNullEntries(vps)
    ensures r.Ok? ==> |r.value| == |vps|
    ensures r.Ok? ==> forall i :: 0 <= i < |vps| ==> r.value[i] == VideoEntry(vps[i])
    ensures r.Throw? ==> r.message == TypeErrorMessage
  {
    if |vps| == 0 then Ok([])
    else if vps[0] == JNull then Throw(TypeErrorMessage)
    else
      match MapVideoEntries(vps[1..])
      case Throw(m) => Throw(m)
      case Ok(rest) =>
        var es := [VideoEntry(vps[0])] + rest;
        assert forall i :: 1 <= i < |vps| ==> es[i] == rest[i - 1] && vps[1..][i - 1] == vps[i];
        Ok(es)
  }

  /** `processAndSetData`'s result: audio is tested first, then video, then
      image; anything else leaves every field `null`. */
  function Process(doc: Json): Result<Processed> {
    if InRejects(doc) then Throw(TypeErrorMessage)
    else if JsonUtils.IsAudioJson(doc) then
      Ok(Empty.(generatedAudioJson := Some(doc), studioMode := Some(AudioMode)))
    else if JsonUtils.IsVideoJson(doc) then
      match MapVideoEntries(Field(doc, "video_prompts").value.items)
      case Throw(m) => Throw(m)
      case Ok(es) =>
        Ok(Processed(Some(VideoMode), Some(SceneData(doc, es)), None, Some(doc), Some(doc), None))
    else if JsonUtils.IsImageJson(doc) then
      match FlattenShots(Field(doc, "shots").value.items, ImageEntry)
      case Throw(m) => Throw(m)
      case Ok(es) =>
        Ok(Processed(Some(ImageMode), Some(SceneData(doc, es)), Some(doc), None, Some(doc), None))
    else Ok(Empty)
  }

  /** The normalized data of a document: `scene_info`, `version` and
      `timestamp` copied as they are, with the given entries. */
  function SceneData(doc: Json, entries: seq<Json>): NormalizedData {
    NormalizedData(Field(doc, "scene_info"), entries, Field(doc, "version"), Field(doc, "timestamp"))
  }

  function ModeOfKind(k: JsonUtils.Kind): Option<Mode> {
    match k
    case Image => Some(ImageMode)
    case Video => Some(VideoMode)
    case Audio => Some(AudioMode)
    case Unknown => None
  }

  /** Processing classifies with the detector's priority order, and fails
      only where a property read throws. */
  lemma ProcessClassifies(doc: Json)
    ensures Process(doc).Ok? ==> Process(doc).value.studioMode == ModeOfKind(JsonUtils.DetectJsonType(doc).value)
    ensures Process(doc).Throw? <==>
      InRejects(doc)
      || (!JsonUtils.IsAudioJson(doc) && JsonUtils.IsVideoJson(doc)
          && !NoNullEntries(Field(doc, "video_prompts").value.items))
      || (!JsonUtils.IsAudioJson(doc) && !JsonUtils.IsVideoJson(doc) && JsonUtils.IsImageJson(doc)
          && exists i :: 0 <= i < |Field(doc, "shots").value.items| && !ShotOk(Field(doc, "shots").value.items[i]))
  {
    if !InRejects(doc) && !JsonUtils.IsAudioJson(doc) && !JsonUtils.IsVideoJson(doc) && JsonUtils.IsImageJson(doc) {
      FlattenShotsOk(Field(doc, "shots").value.items, ImageEntry);
    }
  }

  /** Exactly one of the three document fields is set for a recognised
      document; `rawJsonForAudio` is the document itself for video and image
      and `null` for audio; an unrecognised document gives the empty result. */
  lemma ProcessRawFields(doc: Json)
    requires Process(doc).Ok?
    ensures var p := Process(doc).value;
      (p.studioMode.Some? ==>
        (if p.generatedAudioJson.Some? then 1 else 0) + (if p.rawVideoJson.Some? then 1 else 0)
        + (if p.rawImageJson.Some? then 1 else 0) == 1)
      && (p.studioMode == Some(AudioMode) ==> p.generatedAudioJson == Some(doc) && p.rawJsonForAudio.None?)
      && (p.studioMode == Some(VideoMode) ==> p.rawVideoJson == Some(doc) && p.rawJsonForAudio == Some(doc))
      && (p.studioMode == Some(ImageMode) ==> p.rawImageJson == Some(doc) && p.rawJsonForAudio == Some(doc))
      && (p.studioMode.None? <==> p == Empty)
  {
  }

  /** Each property of a video entry, read back. */
  lemma VideoEntryFields(vp: Json)
    ensures Field(VideoEntry(vp), "shot_id") == Field(vp, "shot_id")
    ensures Field(VideoEntry(vp), "image_id") == Field(vp, "image_id")
    ensures Field(VideoEntry(vp), "prompts") == Field(vp, "prompts")
    ensures Field(VideoEntry(vp), "image_title") == OptGet(Field(vp, "image_reference"), "title")
    ensures Field(VideoEntry(vp), "image_description") == OptGet(Field(vp, "image_reference"), "description")
  {
    var reference := Field(vp, "image_reference");
    var ms := [("shot_id", Field(vp, "shot_id")), ("image_id", Field(vp, "image_id")),
               ("prompts", Field(vp, "prompts")),
               ("image_title", OptGet(reference, "title")),
               ("image_description", OptGet(reference, "description"))];
    assert DistinctNames(ms);
    LiteralField(ms, 0);
    LiteralField(ms, 1);
    LiteralField(ms, 2);
    LiteralField(ms, 3);
    LiteralField(ms, 4);
  }

  /** Each property of an image entry, read back: the parent shot's id, and
      the image's `title`/`description` under `image_title`/`image_description`. */
  lemma ImageEntryFields(shot: Json, image: Json)
    ensures Field(ImageEntry(shot, image), "shot_id") == Field(shot, "shot_id")
    ensures Field(ImageEntry(shot, image), "image_id") == Field(image, "image_id")
    ensures Field(ImageEntry(shot, image), "prompts") == Field(image, "prompts")
    ensures Field(ImageEntry(shot, image), "image_title") == Field(image, "title")
    ensures Field(ImageEntry(shot, image), "image_description") == Field(image, "description")
  {
    var ms := [("shot_id", Field(shot, "shot_id")), ("image_id", Field(image, "image_id")),
               ("prompts", Field(image, "prompts")),
               ("image_title", Field(image, "title")),
               ("image_description", Field(image, "description"))];
    assert DistinctNames(ms);
    LiteralField(ms, 0);
    LiteralField(ms, 1);
    LiteralField(ms, 2);
    LiteralField(ms, 3);
    LiteralField(ms, 4);
  }

  /** A video document gives one entry per `video_prompts` item, in order,
      with `scene_info`, `version` and `timestamp` copied. */
  lemma VideoNormalised(doc: Json, i: nat)
    requires Process(doc).Ok? && Process(doc).value.studioMode == Some(VideoMode)
    ensures var vps := Field(doc, "video_prompts").value.items;
      var nd := Process(doc).value.normalizedData.value;
      |nd.prompts| == |vps|
      && (i < |vps| ==>
            nd.prompts[i] == VideoEntry(vps[i]) && ShotIdOf(nd.prompts[i]) == Field(vps[i], "shot_id"))
      && nd == SceneData(doc, nd.prompts)
  {
    var vps := Field(doc, "video_prompts").value.items;
    if i < |vps| {
      VideoEntryFields(vps[i]);
    }
  }

  /** The entries of a processed image document are its flattened shots. */
  lemma ImagePrompts(doc: Json)
    requires Process(doc).Ok? && Process(doc).value.studioMode == Some(ImageMode)
    ensures var shots := Field(doc, "shots").value.items;
      FlattenShots(shots, ImageEntry).Ok?
      && Process(doc).value.normalizedData == Some(SceneData(doc, FlattenShots(shots, ImageEntry).value))
  {
  }

  /** An image document gives the images of shot 0, then of shot 1, and so
      on; there are as many entries as images, each built from its parent
      shot and its image (see `ImageEntryFields`); `scene_info` is copied as
      it is. */
  lemma ImageNormalised(doc: Json, i: nat, j: nat)
    requires Process(doc).Ok? && Process(doc).value.studioMode == Some(ImageMode)
    ensures var shots := Field(doc, "shots").value.items;
      var nd := Process(doc).value.normalizedData.value;
      |nd.prompts| == Offset(shots, |shots|)
      && nd == SceneData(doc, nd.prompts)
      && (i < |shots| && ShotOk(shots[i]) && j < |ImagesOf(shots[i])| ==>
          Offset(shots, i) + j < |nd.prompts|
          && nd.prompts[Offset(shots, i) + j] == ImageEntry(shots[i], ImagesOf(shots[i])[j]))
  {
    var shots := Field(doc, "shots").value.items;
    ImagePrompts(doc);
    ImageEntries(shots, i, j);
  }

  /** The flattened image entries of `shots`: one per image, in
      shot-then-image order. */
  lemma ImageEntries(shots: seq<Json>, i: nat, j: nat)
    requires FlattenShots(shots, ImageEntry).Ok?
    ensures var es := FlattenShots(shots, ImageEntry).value;
      |es| == Offset(shots, |shots|)
      && (i < |shots| && ShotOk(shots[i]) && j < |ImagesOf(shots[i])| ==>
          Offset(shots, i) + j < |es|
          && es[Offset(shots, i) + j] == ImageEntry(shots[i], ImagesOf(shots[i])[j]))
  {
    FlattenShotsOk(shots, ImageEntry);
    if i < |shots| && ShotOk(shots[i]) && j < |ImagesOf(shots[i])| {
      FlattenShotsAt(shots, ImageEntry, i, j);
    }
  }

  /** Entries built by this normaliser are object literals, never `null`. */
  lemma ProcessedEntriesNotNull(doc: Json)
    requires Process(doc).Ok? && Process(doc).value.normalizedData.Some?
    ensures NoNullEntries(Process(doc).value.normalizedData.value.prompts)
  {
    var nd := Process(doc).value.normalizedData.value;
    if Process(doc).value.studioMode == Some(ImageMode) {
      var shots := Field(doc, "shots").value.items;
      forall k | 0 <= k < |nd.prompts| ensures nd.prompts[k] != JNull {
        FlattenedAreLiterals(shots, k);
      }
    }
  }

  lemma {:induction false} FlattenedAreLiterals(shots: seq<Json>, k: nat)
    requires FlattenShots(shots, ImageEntry).Ok? && k < |FlattenShots(shots, ImageEntry).value|
    ensures FlattenShots(shots, ImageEntry).value[k].JObj?
  {
    var head := MapImages(shots[0], ImagesOf(shots[0]), ImageEntry);
    var rest := FlattenShots(shots[1..], ImageEntry).value;
    assert FlattenShots(shots, ImageEntry).value == head + rest;
    if k >= |head| {
      FlattenedAreLiterals(shots[1..], k - |head|);
    }
  }

  /** The hook's state. */
  class FileManagerState {
    var fileName: Option<string>
    var isLoading: bool
    var error: Option<string>

    constructor()
      ensures fileName.None? && !isLoading && error.None?
    {
      fileName := None;
      isLoading := false;
      error := None;
    }

    /** `processAndSetData`: builds the result field by field, then records
        the file name and clears the error. A throw leaves the state alone. */
    method ProcessAndSetData(parsedData: Json, newFileName: string) returns (r: Result<Processed>)
      modifies this
      ensures r == Process(parsedData)
      ensures r.Ok? ==> fileName == Some(newFileName) && error.None?
      ensures r.Throw? ==> fileName == old(fileName) && error == old(error)
      ensures isLoading == old(isLoading)
    {
      var result := Empty;
      if InRejects(parsedData) {
        return Throw(TypeErrorMessage);
      }
      var isVideoFile := JsonUtils.IsVideoJson(parsedData);
      var isImageFile := JsonUtils.IsImageJson(parsedData);
      var isAudioFile := JsonUtils.IsAudioJson(parsedData);
      if isAudioFile {
        result := result.(generatedAudioJson := Some(parsedData));
        result := result.(studioMode := Some(AudioMode));
      } else if isVideoFile {
        result := result.(rawVideoJson := Some(parsedData));
        result := result.(rawJsonForAudio := Some(parsedData));
        var entries := MapVideoEntries(Field(parsedData, "video_prompts").value.items);
        if entries.Throw? {
          return Throw(entries.message);
        }
        result := result.(normalizedData := Some(SceneData(parsedData, entries.value)));
        result := result.(studioMode := Some(VideoMode));
      } else if isImageFile {
        result := result.(rawImageJson := Some(parsedData));
        result := result.(rawJsonForAudio := Some(parsedData));
        var entries := FlattenShots(Field(parsedData, "shots").value.items, ImageEntry);
        if entries.Throw? {
          return Throw(entries.message);
        }
        result := result.(normalizedData := Some(SceneData(parsedData, entries.value)));
        result := result.(studioMode := Some(ImageMode));
      }
      fileName := Some(newFileName);
      error := None;
      return Ok(result);
    }

    /** `handleFileChange`: `ok` is whether the returned promise resolves.
        With no file nothing happens; otherwise loading starts, and a read
        error, a parse error or a throw while processing is reported. */
    method HandleFileChange(upload: Upload) returns (ok: bool)
      modifies this
      ensures upload.NoFile? ==> ok && fileName == old(fileName) && isLoading == old(isLoading) && error == old(error)
      ensures upload.Picked? ==> !isLoading
      ensures upload.Picked? && upload.read.ReadError? ==>
        !ok && error == Some("Failed to read the file.") && fileName == old(fileName)
      ensures upload.Picked? && upload.read.SyntaxError? ==>
        !ok && error == Some("Failed to parse JSON: " + upload.read.message) && fileName == old(fileName)
      ensures upload.Picked? && upload.read.Parsed? ==>
        (ok <==> Process(upload.read.doc).Ok?)
        && (ok ==> fileName == Some(upload.name) && error.None?)
        && (!ok ==> fileName == old(fileName) && error == Some("Failed to parse JSON: " + TypeErrorMessage))
    {
      if upload.NoFile? {
        return true;
      }
      isLoading := true;
      error := None;
      match upload.read {
        case ReadError =>
          error := Some("Failed to read the file.");
          isLoading := false;
          ok := false;
        case SyntaxError(message) =>
          error := Some("Failed to parse JSON: " + message);
          isLoading := false;
          ok := false;
        case Parsed(doc) =>
          var r := ProcessAndSetData(doc, upload.name);
          if r.Throw? {
            error := Some("Failed to parse JSON: " + r.message);
            isLoading := false;
            ok := false;
          } else {
            isLoading := false;
            ok := true;
          }
      }
    }

    /** `handleClearProject`: forgets the file name and the error. */
    method HandleClearProject()
      modifies this
      ensures fileName.None? && error.None? && isLoading == old(isLoading)
    {
      fileName := None;
      error := None;
    }

    method SetError(e: Option<string>)
      modifies this
      ensures error == e && fileName == old(fileName) && isLoading == old(isLoading)
    {
      error := e;
    }

    method SetIsLoading(b: bool)
      modifies this
      ensures isLoading == b && fileName == old(fileName) && error == old(error)
    {
      isLoading := b;
    }
  }
}
