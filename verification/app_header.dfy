/** The application header: which studio it names, and which of its buttons
    (upload, clear, download, API settings, generate video prompts, generate
    audio prompts) it shows for the session state it is given. */
module AppHeader {

  import opened Js
  import opened Studio

  /** The state the header is drawn from. */
  datatype HeaderProps = HeaderProps(
    studioMode: Option<Mode>,
    fileName: Option<string>,
    error: Option<string>,
    apiKey: Option<string>,
    selectedModel: Option<string>,
    normalizedData: Option<NormalizedData>,
    generatedAudioJson: Value)

  /** Truthiness of a `string | null`. */
  predicate Filled(s: Option<string>) {
    s.Some? && s.value != ""
  }

  /** `isFileUploaded`: a file name, no error, and a document to show. */
  predicate IsFileUploaded(p: HeaderProps) {
    Filled(p.fileName) && !Filled(p.error) && (p.normalizedData.Some? || Truthy(p.generatedAudioJson))
  }

  /** A key and a model are both configured. */
  predicate ApiReady(p: HeaderProps) {
    Filled(p.apiKey) && Filled(p.selectedModel)
  }

  /** `canGenerateVideo`: only from the image studio. */
  predicate CanGenerateVideo(p: HeaderProps) {
    p.studioMode == Some(ImageMode) && ApiReady(p)
  }

  /** `canGenerateAudio`: from the image or the video studio. */
  predicate CanGenerateAudio(p: HeaderProps) {
    (p.studioMode == Some(ImageMode) || p.studioMode == Some(VideoMode)) && ApiReady(p)
  }

  /** The word naming a studio in the title. */
  function ModeWord(m: Mode): string {
    if m == ImageMode then "이미지"
    else if m == VideoMode then "영상"
    else if m == AudioMode then "오디오"
    else "스토리"
  }

  /** What the header shows. */
  datatype Header = Header(
    studioTitle: Option<string>,
    upload: bool,
    clear: bool,
    download: bool,
    apiLabel: Option<string>,
    generateVideo: bool,
    generateAudio: bool)

  /** The header drawn for `p`: nothing but the menu, home and title when no
      studio is chosen. */
  function Render(p: HeaderProps): Header {
    if p.studioMode.None? then Header(None, false, false, false, None, false, false)
    else
      var uploaded := IsFileUploaded(p);
      Header(
        Some("- " + ModeWord(p.studioMode.value) + " 스튜디오"),
        true,
        uploaded,
        uploaded && p.studioMode == Some(AudioMode) && Truthy(p.generatedAudioJson),
        Some(if ApiReady(p) then "API 연결됨" else "API 설정"),
        CanGenerateVideo(p),
        CanGenerateAudio(p))
  }

  /** Each studio has its own word, so the title tells the studios apart. */
  lemma ModeWordsDistinct(m1: Mode, m2: Mode)
    ensures ModeWord(m1) == ModeWord(m2) <==> m1 == m2
  {
    assert ModeWord(ImageMode) == "이미지" && ModeWord(VideoMode) == "영상";
    assert ModeWord(AudioMode) == "오디오" && ModeWord(StoryMode) == "스토리";
    assert "이미지" != "영상" && "이미지" != "오디오" && "이미지" != "스토리";
    assert "영상" != "오디오" && "영상" != "스토리" && "오디오" != "스토리";
  }

  /** Without a studio the header has no title and no button at all; with
      one, the title and the upload and API buttons are always there. */
  lemma ButtonsNeedStudio(p: HeaderProps)
    ensures var h := Render(p);
      (p.studioMode.None? <==> h.studioTitle.None?)
      && (h.upload <==> p.studioMode.Some?)
      && (h.apiLabel.Some? <==> p.studioMode.Some?)
      && (h.clear || h.download || h.generateVideo || h.generateAudio ==> p.studioMode.Some?)
  {
  }

  /** Whenever video prompts can be generated, audio prompts can be too. */
  lemma VideoImpliesAudio(p: HeaderProps)
    ensures Render(p).generateVideo ==> Render(p).generateAudio
  {
  }

  /** Generation needs both a key and a model, and the API button reads
      "connected" exactly then. */
  lemma GenerationNeedsApi(p: HeaderProps)
    requires p.studioMode.Some?
    ensures Render(p).generateVideo || Render(p).generateAudio ==> Render(p).apiLabel == Some("API 연결됨")
    ensures Render(p).apiLabel == Some("API 연결됨") <==> Filled(p.apiKey) && Filled(p.selectedModel)
  {
    assert "API 연결됨" != "API 설정";
  }

  /** The download button shows only beside the clear button, in the audio
      studio, with an audio document; the clear button shows exactly when a
      file is loaded without error. */
  lemma DownloadNeedsUpload(p: HeaderProps)
    ensures var h := Render(p);
      (h.download <==> h.clear && p.studioMode == Some(AudioMode) && Truthy(p.generatedAudioJson))
      && (h.clear <==> p.studioMode.Some? && IsFileUploaded(p))
      && (h.clear ==> !Filled(p.error) && Filled(p.fileName))
  {
  }
}
