/** Shape detection and validation of a parsed storyboard document: which of
    the three document families (image, video, audio) a value belongs to,
    decided by the keys it carries, and a light structural check on top. */
module JsonUtils {

  import opened Js

  datatype Kind = Image | Video | Audio | Unknown

  /** `isAudioJson`: both audio keys are present. */
  predicate IsAudioJson(data: Json) {
    HasKey(data, "music_prompts") && HasKey(data, "narration_script")
  }

  /** `isVideoJson`: `video_prompts` is present and is an array. */
  predicate IsVideoJson(data: Json) {
    HasKey(data, "video_prompts") && IsArray(Field(data, "video_prompts"))
  }

  /** `isImageJson`: `shots` is present and is an array. */
  predicate IsImageJson(data: Json) {
    HasKey(data, "shots") && IsArray(Field(data, "shots"))
  }

  /** `detectJsonType`. The `in` tests throw on `null` and other primitives. */
  function DetectJsonType(data: Json): (r: Result<Kind>)
    ensures r.Throw? <==> InRejects(data)
  {
    if InRejects(data) then Throw(TypeErrorMessage)
    else if IsAudioJson(data) then Ok(Audio)
    else if IsVideoJson(data) then Ok(Video)
    else if IsImageJson(data) then Ok(Image)
    else Ok(Unknown)
  }

  /** The guards agree with the detector once its priority order is applied:
      audio first, then video, then image. */
  lemma GuardsAgree(data: Json)
    requires !InRejects(data)
    ensures DetectJsonType(data) == Ok(Audio) <==> IsAudioJson(data)
    ensures DetectJsonType(data) == Ok(Video) <==> IsVideoJson(data) && !IsAudioJson(data)
    ensures DetectJsonType(data) == Ok(Image) <==> IsImageJson(data) && !IsVideoJson(data) && !IsAudioJson(data)
    ensures DetectJsonType(data) == Ok(Unknown) <==> !IsImageJson(data) && !IsVideoJson(data) && !IsAudioJson(data)
  {
  }

  /** An object carrying both audio keys is audio whatever other members
      it carries, before or after them. */
  lemma {:induction false} AudioWins(before: seq<(string, Json)>, mp: Json, ns: Json, after: seq<(string, Json)>)
    ensures DetectJsonType(JObj(before + [("music_prompts", mp), ("narration_script", ns)] + after)) == Ok(Audio)
  {
    var ms := before + [("music_prompts", mp), ("narration_script", ns)] + after;
    var k := |before|;
    assert ms[k] == ("music_prompts", mp) && ms[k + 1] == ("narration_script", ns);
    assert Keys(ms)[k] == "music_prompts" && Keys(ms)[k + 1] == "narration_script";
  }

  /** Without both audio keys, an array-valued `video_prompts` (even an empty
      one) makes a document video, whatever `shots` holds. */
  lemma VideoBeatsImage(data: Json)
    requires data.JObj? && !IsAudioJson(data) && IsArray(Field(data, "video_prompts"))
    ensures DetectJsonType(data) == Ok(Video)
  {
  }

  /** The result of `validateJsonStructure`. */
  datatype Validation = Validation(valid: bool, message: Option<string>)

  /** The reasons `validateJsonStructure` gives for rejecting a document. */
  datatype Problem =
    | DetectionFailed | UnknownFormat
    | MissingImageSceneInfo | NoShots
    | MissingVideoSceneInfo | NoVideoPrompts
    | NoMusicPrompts | MissingNarration

  /** The messages; their lengths alone tell the first two apart from the
      rest. */
  function ProblemMessage(p: Problem): (m: string)
    ensures |m| == 31 <==> p == DetectionFailed
    ensures |m| == 19 <==> p == UnknownFormat
  {
    match p
    case DetectionFailed => "Error validating JSON structure"
    case UnknownFormat => "Unknown JSON format"
    case MissingImageSceneInfo => "Missing scene_info in image JSON"
    case NoShots => "No shots found in image JSON"
    case MissingVideoSceneInfo => "Missing scene_info in video JSON"
    case NoVideoPrompts => "No video_prompts found in video JSON"
    case NoMusicPrompts => "No music_prompts found in audio JSON"
    case MissingNarration => "Missing narration_script in audio JSON"
  }

  /** The checks of `validateJsonStructure`, in its order: the first one that
      fails, or none. A throw inside the detector is caught. */
  function FirstProblem(data: Json): Option<Problem> {
    match DetectJsonType(data)
    case Throw(_) => Some(DetectionFailed)
    case Ok(kind) =>
      if kind == Unknown then Some(UnknownFormat)
      else if kind == Image && !Truthy(Field(data, "scene_info")) then Some(MissingImageSceneInfo)
      else if kind == Image && (!Truthy(Field(data, "shots")) || IsLengthZero(Field(data, "shots"))) then Some(NoShots)
      else if kind == Video && !Truthy(Field(data, "scene_info")) then Some(MissingVideoSceneInfo)
      else if kind == Video && (!Truthy(Field(data, "video_prompts")) || IsLengthZero(Field(data, "video_prompts")))
      then Some(NoVideoPrompts)
      else if kind == Audio && (!Truthy(Field(data, "music_prompts")) || IsLengthZero(Field(data, "music_prompts")))
      then Some(NoMusicPrompts)
      else if kind == Audio && !Truthy(Field(data, "narration_script")) then Some(MissingNarration)
      else None
  }

  /** `validateJsonStructure`: valid when no check fails, else the message
      of the first failing check. */
  function ValidateJsonStructure(data: Json): (r: Validation)
    ensures r.valid <==> r.message.None?
    ensures r.message == Some("Error validating JSON structure") <==> InRejects(data)
  {
    match FirstProblem(data)
    case None => Validation(true, None)
    case Some(p) => Validation(false, Some(ProblemMessage(p)))
  }

  /** `v.length === 0` for a truthy `v`. */
  predicate IsLengthZero(v: Value) {
    v.Some? && v.value != JNull && LengthOf(v.value) == Some(JInt(0))
  }

  /** "Unknown JSON format" is reported exactly for documents the detector
      classifies as unknown. */
  lemma UnknownIffUnknownFormat(data: Json)
    ensures ValidateJsonStructure(data).message == Some("Unknown JSON format") <==> DetectJsonType(data) == Ok(Unknown)
  {
  }

  /** What a valid image or video document looks like: a truthy `scene_info`
      and a non-empty array of shots or video prompts. In particular the empty
      arrays that detection accepts are rejected here. */
  lemma ValidImageOrVideo(data: Json)
    ensures DetectJsonType(data) == Ok(Image) ==>
      (ValidateJsonStructure(data).valid <==>
        Truthy(Field(data, "scene_info")) && Field(data, "shots").value.items != [])
    ensures DetectJsonType(data) == Ok(Video) ==>
      (ValidateJsonStructure(data).valid <==>
        Truthy(Field(data, "scene_info")) && Field(data, "video_prompts").value.items != [])
  {
    if DetectJsonType(data) == Ok(Image) {
      ValidImage(data);
    } else if DetectJsonType(data) == Ok(Video) {
      ValidVideo(data);
    }
  }

  lemma ValidImage(data: Json)
    requires DetectJsonType(data) == Ok(Image)
    ensures FirstProblem(data).None? <==>
      Truthy(Field(data, "scene_info")) && Field(data, "shots").value.items != []
  {
    var shots := Field(data, "shots");
    assert FirstProblem(data) ==
      if !Truthy(Field(data, "scene_info")) then Some(MissingImageSceneInfo)
      else if !Truthy(shots) || IsLengthZero(shots) then Some(NoShots)
      else None;
    assert IsImageJson(data);
    assert Truthy(shots) && (IsLengthZero(shots) <==> shots.value.items == []);
  }

  lemma ValidVideo(data: Json)
    requires DetectJsonType(data) == Ok(Video)
    ensures FirstProblem(data).None? <==>
      Truthy(Field(data, "scene_info")) && Field(data, "video_prompts").value.items != []
  {
    var prompts := Field(data, "video_prompts");
    assert FirstProblem(data) ==
      if !Truthy(Field(data, "scene_info")) then Some(MissingVideoSceneInfo)
      else if !Truthy(prompts) || IsLengthZero(prompts) then Some(NoVideoPrompts)
      else None;
    assert IsVideoJson(data);
    assert Truthy(prompts) && (IsLengthZero(prompts) <==> prompts.value.items == []);
  }

  /** An audio document is valid exactly when `music_prompts` is truthy and
      does not have length 0 (an empty array, or an object whose `length` is
      0), and `narration_script` is truthy. */
  lemma ValidAudio(data: Json)
    requires DetectJsonType(data) == Ok(Audio)
    ensures ValidateJsonStructure(data).valid <==>
      Truthy(Field(data, "music_prompts")) && !IsLengthZero(Field(data, "music_prompts"))
      && Truthy(Field(data, "narration_script"))
  {
  }

  /** An audio document whose `music_prompts` is a non-empty array or any
      object without a `length` member, and whose narration is truthy, is
      valid. */
  lemma AudioObjectsValid(data: Json)
    requires DetectJsonType(data) == Ok(Audio)
    requires Truthy(Field(data, "narration_script"))
    requires Field(data, "music_prompts").Some?
    requires var mp := Field(data, "music_prompts").value;
      (mp.JArr? && mp.items != []) || (mp.JObj? && !HasKey(mp, "length"))
    ensures ValidateJsonStructure(data).valid
  {
    var mp := Field(data, "music_prompts").value;
    if mp.JObj? {
      assert Field(mp, "length").None?;
    }
    assert !IsLengthZero(Field(data, "music_prompts"));
    ValidAudio(data);
  }
}
