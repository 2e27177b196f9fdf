/** The classic session controller: the studio chosen on the start screen,
    the document loaded into it, and the upload and clear handlers. This
    controller has its own normaliser, which rebuilds `scene_info` for image
    documents and reads `image_title` rather than `title`. */
module App {

  import opened Js
  import opened Studio
  import JsonUtils

  /** The studios this controller offers. */
  datatype StudioChoice = ImageStudio | VideoStudio

  function StudioName(m: StudioChoice): string {
    match m
    case ImageStudio => "image"
    case VideoStudio => "video"
  }

  const NoStudioMessage := "Please select a studio (Image or Video) before uploading a file."

  function InvalidStructureMessage(m: StudioChoice): string {
    "Invalid JSON structure. The uploaded file is not a valid " + StudioName(m) + " prompt file."
  }

  /** The entry made from one image of a shot: the shot's id and description
      travel with each of its images. */
  function ImageEntry(shot: Json, image: Json): Json {
    Literal([("shot_id", Field(shot, "shot_id")), ("image_id", Field(image, "image_id")),
             ("prompts", Field(image, "prompts")),
             ("shot_description", Field(shot, "shot_description")),
             ("image_title", Field(image, "image_title")),
             ("image_description", Field(image, "image_description")),
             ("csv_data", Field(image, "csv_data"))])
  }

  /** The first element of a list, or `undefined` (`shots[0]`). */
  function First(items: seq<Json>): Value {
    if |items| == 0 then None else Some(items[0])
  }

  /** The rebuilt `scene_info` of an image document. Reading a property of a
      missing `scene_info` or `generation_settings` throws. */
  function ImageSceneInfo(doc: Json): Result<Json>
    requires JsonUtils.IsImageJson(doc)
  {
    var sceneInfo := Field(doc, "scene_info");
    var settings := Field(doc, "generation_settings");
    if sceneInfo.None? || sceneInfo == Null || settings.None? || settings == Null then Throw(TypeErrorMessage)
    else
      var sceneId := Field(sceneInfo.value, "scene_id");
      var title := Or(OptGet(First(Field(doc, "shots").value.items), "shot_description"), sceneId);
      Ok(SceneInfoLiteral(sceneId, title, Field(sceneInfo.value, "shot_count"),
                          Field(sceneInfo.value, "total_images"), Field(settings.value, "selected_ai_tools")))
  }

  /** The object literal the rebuilt `scene_info` is made of. */
  function SceneInfoLiteral(sceneId: Value, title: Value, shots: Value, images: Value, tools: Value): Json {
    Literal([("scene_id", sceneId), ("scene_title", title), ("processed_shots", shots),
             ("processed_images", images), ("selected_ai_tools", tools)])
  }

  lemma SceneInfoLiteralFields(sceneId: Value, title: Value, shots: Value, images: Value, tools: Value)
    ensures var r := SceneInfoLiteral(sceneId, title, shots, images, tools);
      Field(r, "scene_id") == sceneId && Field(r, "scene_title") == title
      && Field(r, "processed_shots") == shots && Field(r, "processed_images") == images
      && Field(r, "selected_ai_tools") == tools
  {
    var ms := [("scene_id", sceneId), ("scene_title", title), ("processed_shots", shots),
               ("processed_images", images), ("selected_ai_tools", tools)];
    assert DistinctNames(ms);
    LiteralField(ms, 0);
    LiteralField(ms, 1);
    LiteralField(ms, 2);
    LiteralField(ms, 3);
    LiteralField(ms, 4);
  }

  /** `dataToSet` for the chosen studio, or the exception that aborts the load. */
  function DataToSet(mode: StudioChoice, doc: Json): Result<NormalizedData> {
    if InRejects(doc) then Throw(TypeErrorMessage)
    else if mode == VideoStudio && JsonUtils.IsVideoJson(doc) then
      Ok(NormalizedData(Field(doc, "scene_info"), Field(doc, "video_prompts").value.items,
                        Field(doc, "version"), Field(doc, "timestamp")))
    else if mode == ImageStudio && JsonUtils.IsImageJson(doc) then
      match FlattenShots(Field(doc, "shots").value.items, ImageEntry)
      case Throw(m) => Throw(m)
      case Ok(es) =>
        match ImageSceneInfo(doc)
        case Throw(m) => Throw(m)
        case Ok(info) => Ok(NormalizedData(Some(info), es, Field(doc, "version"), Field(doc, "timestamp")))
    else Throw(InvalidStructureMessage(mode))
  }

  /** A document of the other family (or of none) is rejected with the
      studio's name in the message, and only such a document is. */
  lemma MismatchRejected(mode: StudioChoice, doc: Json)
    requires !InRejects(doc)
    ensures DataToSet(mode, doc) == Throw(InvalidStructureMessage(mode)) <==>
      (mode == VideoStudio && !JsonUtils.IsVideoJson(doc)) || (mode == ImageStudio && !JsonUtils.IsImageJson(doc))
  {
  }

  /** Each property of an image entry, read back: the parent shot's id and
      description, and the image's own id, prompts, title, description and
      CSV data. */
  lemma ImageEntryFields(shot: Json, image: Json)
    ensures Field(ImageEntry(shot, image), "shot_id") == Field(shot, "shot_id")
    ensures Field(ImageEntry(shot, image), "shot_description") == Field(shot, "shot_description")
    ensures Field(ImageEntry(shot, image), "image_title") == Field(image, "image_title")
    ensures Field(ImageEntry(shot, image), "image_id") == Field(image, "image_id")
    ensures Field(ImageEntry(shot, image), "prompts") == Field(image, "prompts")
    ensures Field(ImageEntry(shot, image), "image_description") == Field(image, "image_description")
    ensures Field(ImageEntry(shot, image), "csv_data") == Field(image, "csv_data")
  {
    var ms := [("shot_id", Field(shot, "shot_id")), ("image_id", Field(image, "image_id")),
               ("prompts", Field(image, "prompts")),
               ("shot_description", Field(shot, "shot_description")),
               ("image_title", Field(image, "image_title")),
               ("image_description", Field(image, "image_description")),
               ("csv_data", Field(image, "csv_data"))];
    assert DistinctNames(ms);
    LiteralField(ms, 0);
    LiteralField(ms, 1);
    LiteralField(ms, 2);
    LiteralField(ms, 3);
    LiteralField(ms, 4);
    LiteralField(ms, 5);
    LiteralField(ms, 6);
  }

  /** A video document loaded into the video studio: the entries are the
      `video_prompts` items themselves, and the scene header, version and
      timestamp are copied. */
  lemma VideoLoaded(doc: Json)
    requires DataToSet(VideoStudio, doc).Ok?
    ensures JsonUtils.IsVideoJson(doc)
    ensures DataToSet(VideoStudio, doc).value ==
      NormalizedData(Field(doc, "scene_info"), Field(doc, "video_prompts").value.items,
                     Field(doc, "version"), Field(doc, "timestamp"))
  {
  }

  /** An image document loaded into the image studio keeps the entries
      `ImageEntriesLoaded` describes and gets a rebuilt `scene_info`: its title is the first shot's description when that is
      truthy and `scene_id` otherwise, and the counts and the AI tools are
      copied from `scene_info` and `generation_settings`. */
  lemma ImageLoaded(doc: Json)
    requires DataToSet(ImageStudio, doc).Ok?
    ensures JsonUtils.IsImageJson(doc) && ImageSceneInfo(doc).Ok?
    ensures var d := DataToSet(ImageStudio, doc).value;
      var info := Field(doc, "scene_info").value;
      var first := OptGet(First(Field(doc, "shots").value.items), "shot_description");
      d.sceneInfo == Some(ImageSceneInfo(doc).value)
      && Field(d.sceneInfo.value, "scene_id") == Field(info, "scene_id")
      && Field(d.sceneInfo.value, "scene_title") == (if Truthy(first) then first else Field(info, "scene_id"))
      && Field(d.sceneInfo.value, "processed_shots") == Field(info, "shot_count")
      && Field(d.sceneInfo.value, "processed_images") == Field(info, "total_images")
      && Field(d.sceneInfo.value, "selected_ai_tools")
         == Field(Field(doc, "generation_settings").value, "selected_ai_tools")
      && d.version == Field(doc, "version") && d.timestamp == Field(doc, "timestamp")
      && d.prompts == FlattenShots(Field(doc, "shots").value.items, ImageEntry).value
  {
    SceneInfoFields(doc);
  }

  /** The entries an image load stores (see `ImageLoaded`): one per image,
      in shot-then-image order, each carrying its shot's description. */
  lemma ImageEntriesLoaded(shots: seq<Json>, i: nat, j: nat)
    requires FlattenShots(shots, ImageEntry).Ok?
    ensures var es := FlattenShots(shots, ImageEntry).value;
      |es| == Offset(shots, |shots|)
      && (i < |shots| && ShotOk(shots[i]) && j < |ImagesOf(shots[i])| ==>
          Offset(shots, i) + j < |es|
          && es[Offset(shots, i) + j] == ImageEntry(shots[i], ImagesOf(shots[i])[j])
          && Field(es[Offset(shots, i) + j], "shot_description") == Field(shots[i], "shot_description"))
  {
    FlattenShotsOk(shots, ImageEntry);
    if i < |shots| && ShotOk(shots[i]) && j < |ImagesOf(shots[i])| {
      FlattenShotsAt(shots, ImageEntry, i, j);
      ImageEntryFields(shots[i], ImagesOf(shots[i])[j]);
    }
  }

  lemma SceneInfoFields(doc: Json)
    requires JsonUtils.IsImageJson(doc) && ImageSceneInfo(doc).Ok?
    ensures var r := ImageSceneInfo(doc).value;
      var info := Field(doc, "scene_info").value;
      var first := OptGet(First(Field(doc, "shots").value.items), "shot_description");
      Field(r, "scene_id") == Field(info, "scene_id")
      && Field(r, "scene_title") == (if Truthy(first) then first else Field(info, "scene_id"))
      && Field(r, "processed_shots") == Field(info, "shot_count")
      && Field(r, "processed_images") == Field(info, "total_images")
      && Field(r, "selected_ai_tools") == Field(Field(doc, "generation_settings").value, "selected_ai_tools")
  {
    var info := Field(doc, "scene_info").value;
    var sceneId := Field(info, "scene_id");
    var first := OptGet(First(Field(doc, "shots").value.items), "shot_description");
    SceneInfoLiteralFields(sceneId, Or(first, sceneId), Field(info, "shot_count"), Field(info, "total_images"),
                           Field(Field(doc, "generation_settings").value, "selected_ai_tools"));
  }

  /** The classic controller's state. */
  class Session {
    var studioMode: Option<StudioChoice>
    var normalizedData: Option<NormalizedData>
    var error: Option<string>
    var fileName: Option<string>
    var activeShotId: Value
    var isSidebarOpen: bool

    constructor()
      ensures studioMode.None? && normalizedData.None? && error.None? && fileName.None?
      ensures activeShotId == Null && !isSidebarOpen
    {
      studioMode := None;
      normalizedData := None;
      error := None;
      fileName := None;
      activeShotId := Null;
      isSidebarOpen := false;
    }

    /** Choosing a studio on the start screen. */
    method SelectStudio(m: StudioChoice)
      modifies this
      ensures studioMode == Some(m)
      ensures normalizedData == old(normalizedData) && error == old(error) && fileName == old(fileName)
      ensures activeShotId == old(activeShotId) && isSidebarOpen == old(isSidebarOpen)
    {
      studioMode := Some(m);
    }

    /** `handleFileChange`, with the reader's outcome given as the upload. */
    method HandleFileChange(upload: Upload)
      modifies this
      ensures studioMode == old(studioMode)
      // No studio chosen: an error, and no document state touched.
      ensures old(studioMode).None? ==>
        error == Some(NoStudioMessage) && normalizedData == old(normalizedData)
        && fileName == old(fileName) && activeShotId == old(activeShotId) && isSidebarOpen == old(isSidebarOpen)
      // No file: nothing happens.
      ensures old(studioMode).Some? && upload.NoFile? ==>
        error == old(error) && normalizedData == old(normalizedData)
        && fileName == old(fileName) && activeShotId == old(activeShotId) && isSidebarOpen == old(isSidebarOpen)
      // Any picked file closes the sidebar; the shot selection is cleared
      // unless the load sets it.
      ensures old(studioMode).Some? && upload.Picked? ==> !isSidebarOpen
      ensures old(studioMode).Some? && upload.Picked? && upload.read.ReadError? ==>
        error == Some("Failed to read the file.") && fileName.None? && normalizedData.None? && activeShotId == Null
      ensures old(studioMode).Some? && upload.Picked? && upload.read.SyntaxError? ==>
        error == Some("Failed to parse JSON file: " + upload.read.message)
        && fileName.None? && normalizedData.None? && activeShotId == Null
      ensures old(studioMode).Some? && upload.Picked? && upload.read.Parsed? ==>
        var r := DataToSet(old(studioMode).value, upload.read.doc);
        (r.Throw? ==>
           error == Some("Failed to parse JSON file: " + r.message)
           && fileName.None? && normalizedData.None? && activeShotId == Null)
        && (r.Ok? ==> normalizedData == Some(r.value))
        && (r.Ok? && (r.value.prompts == [] || r.value.prompts[0] != JNull) ==>
           error.None? && fileName == Some(upload.name)
           && activeShotId == (if |r.value.prompts| == 0 then Null else ShotIdOf(r.value.prompts[0])))
        // A `null` first entry throws after the data is set: the data stays,
        // the file name goes.
        && (r.Ok? && r.value.prompts != [] && r.value.prompts[0] == JNull ==>
           error == Some("Failed to parse JSON file: " + TypeErrorMessage)
           && fileName.None? && activeShotId == Null)
    {
      if studioMode.None? {
        error := Some(NoStudioMessage);
        return;
      }
      if upload.NoFile? {
        return;
      }
      normalizedData := None;
      error := None;
      fileName := Some(upload.name);
      activeShotId := Null;
      isSidebarOpen := false;
      match upload.read {
        case ReadError =>
          error := Some("Failed to read the file.");
          fileName := None;
        case SyntaxError(message) =>
          error := Some("Failed to parse JSON file: " + message);
          fileName := None;
        case Parsed(doc) =>
          var dataToSet := DataToSet(studioMode.value, doc);
          if dataToSet.Throw? {
            error := Some("Failed to parse JSON file: " + dataToSet.message);
            fileName := None;
            return;
          }
          normalizedData := Some(dataToSet.value);
          var prompts := dataToSet.value.prompts;
          if |prompts| > 0 {
            if prompts[0] == JNull {
              error := Some("Failed to parse JSON file: " + TypeErrorMessage);
              fileName := None;
            } else {
              activeShotId := ShotIdOf(prompts[0]);
            }
          }
      }
    }

    /** Clicking a shot in the navigation selects it and closes the sidebar. */
    method HandleShotClick(shotId: string)
      modifies this
      ensures activeShotId == Some(JStr(shotId)) && !isSidebarOpen
      ensures studioMode == old(studioMode) && normalizedData == old(normalizedData)
      ensures error == old(error) && fileName == old(fileName)
    {
      activeShotId := Some(JStr(shotId));
      isSidebarOpen := false;
    }

    /** `clearData`: back to the start screen with nothing loaded. */
    method ClearData()
      modifies this
      ensures normalizedData.None? && error.None? && fileName.None? && activeShotId == Null
      ensures !isSidebarOpen && studioMode.None?
    {
      normalizedData := None;
      error := None;
      fileName := None;
      activeShotId := Null;
      isSidebarOpen := false;
      studioMode := None;
    }
  }
}
