# Storyboard studio: a Dafny model of its JSON document engine

The studio is a browser application. It loads storyboard documents: image
documents (`shots[].images[]` with prompts), video documents
(`video_prompts[]`) and audio documents (`music_prompts` with a
`narration_script`). It recognises which kind a parsed document is and
normalises image and video documents into one ordered list of prompt
entries. It shows those entries grouped by shot and then by plan, and lets
the user edit a structured prompt object at a path. The story generator
grows an image storyboard shot by shot, and the audio studio turns a stage-6
image storyboard into an audio document.

This project models that engine in Dafny:

- **Documents.** Parsed JSON is the value type `Js.Json`, and JavaScript's
  `undefined` is `None`. A JavaScript exception (a property read of `null`
  or `undefined`, `in` on a primitive) is `Result.Throw`.
- **Pure logic.** Detection, validation, normalisation, path editing, title
  formatting, totals and shot ids are functions, each with lemmas stating
  what it promises.
- **Grouping.** The reduces in the sidebar, the prompt viewer and the shot
  card are methods with loops. Each is proved equal to a fold function, and
  the fold is proved equal to an independent reference definition (first
  occurrences, filter by shot id, filter by plan key).
- **Controllers.** The stateful parts are classes whose methods update
  their fields: the classic `App`, the refactored shell and its
  file-manager hook, the prompt editor's draft, the story generator and the
  audio studio. Each asynchronous file read or AI call is one atomic event,
  and what it delivered is a parameter.

Modules:

- `Js`: JSON values and JavaScript semantics (truthiness, `||`, property
  read and assignment, `length`).
- `Text`: the string built-ins (`split`, `join`, `String(n)`, `parseInt`,
  `Number`, `padStart`, `trim`, `endsWith`).
- `Studio`: the shared vocabulary (modes, normalized data, upload outcomes,
  flattening of shots).
- `JsonUtils`, `PromptUtils`, `FileService`: the utility files.
- `FileManager`: the file-manager hook.
- `App`, `AppRefactored`: the classic and the refactored shells.
- `AppHeader`, `Sidebar`, `PromptViewer`, `ShotCard`, `PromptSetViewer`,
  `PromptEditor`, `StoryGenerator`, `AudioStudio`: the components.

Behaviour of the code that is easy to misread, which the model follows as written:

- **Audio validation.** It tests `music_prompts.length === 0`. An empty
  array fails that test, and so does an object whose `length` property is
  0. Any other truthy value passes, including a non-empty string or an
  object without `length`.
- **Image entries.** The refactored hook reads an image's `title` and
  `description`. The classic shell reads `image_title` and
  `image_description`.
- **Uploads in the refactored shell.**
  - When a load fails, the shell's own document fields keep their values,
    and only the hook's error shows.
  - A document of no known kind loads "successfully". Every document field
    then becomes `null`, so the session goes back to studio selection.
- **A `null` entry** in the classic video studio's entries (the video
  document's `video_prompts` are taken as they are) makes the viewer's grouping
  throw, and makes the sidebar's de-duplication throw once there are two
  or more entries; a lone `null` entry is kept by the sidebar, since its
  first step searches no kept entries.
- **Going home** is the same as clearing the project.
- **Saving in the refactored shell** closes the editor and discards the
  edited prompt.

## Model

| member | source | states |
|---|---|---|
| Js.Keys | components/PromptSetViewer.tsx:12 | `Object.keys` lists every member name of an object, in order, one per member |
| Js.Lookup | App.tsx:97 | a property read finds a value exactly when the object has a member of that name |
| Js.Get | App.tsx:97-101 | reading a property throws exactly when the receiver is `null` or `undefined` |
| Js.LengthOf | src/utils/jsonUtils.ts:50 | `length` of an array is its number of elements, and of a string its number of characters (Unicode code points) |
| Js.Or | App.tsx:98 | `a \|\| b` gives `a` when `a` is truthy, and `b` otherwise |
| Js.Put | components/PromptEditor.tsx:11 | after `obj[k] = v`, `obj[k]` reads `v`; the key list is unchanged when `k` was present, and gets `k` appended otherwise |
| Js.PutOther | components/PromptEditor.tsx:11 | assigning one property leaves every other property's value as it was |
| Js.PutTwice | components/PromptEditor.tsx:11 | the same assignment made twice equals making it once |
| Js.PutSame | components/PromptEditor.tsx:11 | assigning a property the value it already holds changes nothing |
| Text.Split | components/ShotCard.tsx:13 | `split` gives at least one part, and no part contains the separator |
| Text.JoinSplit | components/ShotCard.tsx:13 | joining the parts of a split with the separator gives back the original string |
| Text.SplitJoin | components/ShotCard.tsx:13 | splitting a join of separator-free parts gives back the parts |
| Text.SplitFree | components/ShotCard.tsx:13-15 | a string without the separator splits into one part, itself |
| Text.SplitPrefix | components/StoryGenerator.tsx:105 | `(a + sep + b).split(sep)` is `a` followed by the parts of `b`, when `a` has no separator |
| Text.NatToString | components/StoryGenerator.tsx:107 | `String(n)` is a digit string whose decimal value is `n`, with no leading zero |
| Text.DigitPrefix | components/StoryGenerator.tsx:106 | the digits `parseInt` reads are the longest all-digit prefix |
| Text.LeadingZeros | components/StoryGenerator.tsx:106-107 | leading zeros do not change a numeral's value |
| Text.TrimEmpty | components/StoryGenerator.tsx:36 | `trim()` gives the empty string exactly when the text is all whitespace |
| Text.ParseInt | components/StoryGenerator.tsx:106 | `parseInt(s, 10)` is NaN exactly when no digit follows the leading whitespace and sign |
| Text.ParseIntDigits | components/StoryGenerator.tsx:106 | `parseInt` of a non-empty numeral is its value |
| Text.ParseIntPadded | components/StoryGenerator.tsx:106-107 | `parseInt` reads back `String(n).padStart(w, '0')` as `n` |
| Text.NumberOfDigits | components/PromptEditor.tsx:106 | `Number` of a numeral is its value, and `Number("")` is 0 |
| Text.PadStart | components/StoryGenerator.tsx:107 | `padStart` keeps the text as a suffix, fills the front with the pad character, and reaches the width |
| Studio.MapImages | App.tsx:85-93 | `shot.images.map` gives one entry per image, in order, each built from the shot and that image |
| Studio.FlattenShots | App.tsx:84-94 | a failed flattening fails with a TypeError; when it succeeds is stated by `Studio.FlattenShotsOk` and what it gives by `Studio.FlattenShotsAt` |
| Studio.FlattenShotsOk | App.tsx:84-94 | flattening succeeds exactly when every shot has an `images` array without `null`, and then gives one entry per image |
| Studio.FlattenShotsAt | App.tsx:84-94 | image `j` of shot `i` sits at the number of images of the earlier shots plus `j`, built with its own shot |
| Studio.FlattenShotsAppend | src/hooks/useFileManager.ts:74-82 | flattening two lists of shots concatenates their flattenings |
| JsonUtils.DetectJsonType | src/utils/jsonUtils.ts:6-17 | detection throws exactly for primitives and `null` |
| JsonUtils.GuardsAgree | src/utils/jsonUtils.ts:6-32 | the detector says audio, video, image or unknown exactly when the type guards hold in that priority order |
| JsonUtils.AudioWins | src/utils/jsonUtils.ts:7-9 | an object with both audio keys is audio, whatever other members it has |
| JsonUtils.VideoBeatsImage | src/utils/jsonUtils.ts:10-12 | without the audio keys, an array `video_prompts` makes the document video, even when `shots` is present |
| JsonUtils.ValidateJsonStructure | src/utils/jsonUtils.ts:37-79 | there is a message exactly when the result is invalid; "Error validating JSON structure" is given exactly when the detector throws |
| JsonUtils.ProblemMessage | src/utils/jsonUtils.ts:41-77 | the message "Error validating JSON structure" belongs only to a failed detection and "Unknown JSON format" only to an unknown document, so neither is mistaken for a missing-field message |
| JsonUtils.UnknownIffUnknownFormat | src/utils/jsonUtils.ts:41-43 | "Unknown JSON format" is reported exactly for documents the detector calls unknown |
| JsonUtils.ValidImageOrVideo | src/utils/jsonUtils.ts:45-63 | an image or video document is valid exactly when `scene_info` is truthy and its `shots` or `video_prompts` array is non-empty, so the empty arrays detection accepts are rejected |
| JsonUtils.ValidAudio | src/utils/jsonUtils.ts:65-73 | an audio document is valid exactly when `music_prompts` is truthy without a `length` of 0 and `narration_script` is truthy |
| JsonUtils.AudioObjectsValid | src/utils/jsonUtils.ts:67 | an object `music_prompts` without a `length` member passes the length check |
| PromptUtils.ExtractPromptObjectV6 | src/utils/promptUtils.ts:6-18 | extraction throws exactly for missing, `null` or primitive `prompts`; it otherwise gives a truthy value or `null` |
| PromptUtils.ExtractPriority | src/utils/promptUtils.ts:7-15 | a truthy `veo2.prompt_object_v6` wins over a direct `prompt_object_v6`, which wins over `null` |
| PromptUtils.ValidMeansModules | src/utils/promptUtils.ts:48-53 | valid means exactly: an object carrying both `core_module` and `video_module` |
| PromptUtils.DefaultShape | src/utils/promptUtils.ts:23-42 | the default is valid and has an empty character map, empty texts, duration 0 and an empty sequence |
| PromptUtils.UpdatePromptObjectV6 | src/utils/promptUtils.ts:58-73 | the write-back throws exactly when `prompts` is missing, `null` or a primitive, or when `veo2` is present but is not an object |
| PromptUtils.UpdateThenExtract | src/utils/promptUtils.ts:58-73 | writing a truthy object back and extracting again returns that object |
| PromptUtils.UpdateLeavesRest | src/utils/promptUtils.ts:58-73 | the write-back changes no other property of the entry, and no other prompt set |
| FileService.SafeName | src/services/fileService.ts:60 | each character outside letters, digits, `_` and `-` becomes `_`, and every other character stays where it was |
| FileService.SafeNameProperties | src/services/fileService.ts:60 | a safe name has only safe characters, making it safe again changes nothing, and a name that is already safe is kept |
| FileService.Stamp | src/services/fileService.ts:59 | the stamp is the ISO text with `:` and `.` made `-` and the last five characters cut |
| FileService.StampOfIsoTime | src/services/fileService.ts:59 | an ISO time `YYYY-MM-DDTHH:mm:ss.sssZ` gives the stamp `YYYY-MM-DDTHH-mm-ss` |
| FileService.SafeFileNameShape | src/services/fileService.ts:58-62 | the name starts with the safe base name and `_`, and ends with `.` and the extension |
| FileService.SafeJsonFileName | src/services/fileService.ts:51-62 | a name made with the extension `json` counts as a JSON file |
| FileManager.MapVideoEntries | src/hooks/useFileManager.ts:54-60 | the `video_prompts` map succeeds exactly when no item is `null`, and gives one entry per item, in order |
| FileManager.ProcessClassifies | src/hooks/useFileManager.ts:41-91 | the result's mode is audio, video or image in the detector's priority order, and none otherwise; processing throws exactly for a primitive document, a video document with a `null` item, or an image document with a malformed shot |
| FileManager.ProcessRawFields | src/hooks/useFileManager.ts:45-91 | exactly one raw document field is set for a recognised document; `rawJsonForAudio` is the document for video and image; an unrecognised document gives the all-`null` result |
| FileManager.VideoEntryFields | src/hooks/useFileManager.ts:54-60 | a video entry carries the item's ids and prompts, and the title and description of its `image_reference` |
| FileManager.ImageEntryFields | src/hooks/useFileManager.ts:75-81 | an image entry carries the shot's id and the image's `title` and `description` |
| FileManager.VideoNormalised | src/hooks/useFileManager.ts:49-68 | a video document gives one entry per item, in order, and copies `scene_info`, `version` and `timestamp` |
| FileManager.ImagePrompts | src/hooks/useFileManager.ts:74-89 | the entries of an image document are its flattened shots |
| FileManager.ImageNormalised | src/hooks/useFileManager.ts:69-90 | an image document gives the images of shot 0, then of shot 1, and so on, one entry per image: image `j` of shot `i` is the entry built from that shot and image (whose fields `ImageEntryFields` gives); `scene_info` is copied |
| FileManager.ProcessedEntriesNotNull | src/hooks/useFileManager.ts:54-82 | no entry the hook builds is `null` |
| FileManager.FlattenedAreLiterals | src/hooks/useFileManager.ts:74-82 | every flattened image entry is an object literal |
| FileManager.FileManagerState.constructor | src/hooks/useFileManager.ts:26-28 | no file name, not loading, no error |
| FileManager.FileManagerState.ProcessAndSetData | src/hooks/useFileManager.ts:31-96 | returns the processed result; on success it records the file name and clears the error, and a throw changes nothing |
| FileManager.FileManagerState.HandleFileChange | src/hooks/useFileManager.ts:98-132 | no file: nothing happens; a read error, a parse error or a processing throw sets its message and stops loading; success records the name |
| FileManager.FileManagerState.HandleClearProject | src/hooks/useFileManager.ts:134-140 | the file name and the error are cleared, and loading is unchanged |
| FileManager.FileManagerState.SetError | src/hooks/useFileManager.ts:28 | only the error changes |
| FileManager.FileManagerState.SetIsLoading | src/hooks/useFileManager.ts:27 | only the loading flag changes |
| App.MismatchRejected | App.tsx:71-109 | "Invalid JSON structure ... not a valid <studio> prompt file" is the outcome exactly when the document does not match the chosen studio |
| App.ImageEntryFields | App.tsx:85-93 | an image entry carries its shot's id and description, and the image's id, `prompts`, `image_title`, `image_description` and `csv_data` |
| App.VideoLoaded | App.tsx:74-81 | a video document loads with its `video_prompts` as entries, and `scene_info`, `version` and `timestamp` copied |
| App.ImageLoaded | App.tsx:95-106 | the rebuilt `scene_info`: the title is the first shot's description when truthy and `scene_id` otherwise; the counts and AI tools are copied |
| App.ImageEntriesLoaded | App.tsx:84-94 | one entry per image in shot-then-image order, each carrying its shot's description |
| App.SceneInfoFields | App.tsx:96-102 | each field of the rebuilt `scene_info`, read back |
| App.Session.constructor | App.tsx:35-40 | no studio, no data, no error, no file, no active shot, sidebar closed |
| App.Session.SelectStudio | App.tsx:242 | only the studio mode changes |
| App.Session.HandleFileChange | App.tsx:43-132 | without a studio it reports the select-a-studio error and changes nothing else; no file changes nothing; otherwise it sets each error path's message, or the data, the file name and the first entry's shot as active |
| App.Session.HandleShotClick | App.tsx:143-150 | the shot becomes active and the sidebar closes; nothing else changes |
| App.Session.ClearData | App.tsx:134-141 | everything is reset, including the studio mode |
| AppRefactored.Session.constructor | App.refactored.tsx:50-60 | an empty session, and a hook with no file and no error |
| AppRefactored.Session.HandleFileChange | App.refactored.tsx:68-87 | a loading file replaces the six document fields by the processed result; a failing one leaves them unchanged with the hook's error |
| AppRefactored.Session.HandleClearProject | App.refactored.tsx:90-100 | every document field, the active shot and the editor are reset, and the hook forgets file name and error |
| AppRefactored.Session.HandleGoHome | App.refactored.tsx:103-105 | the same state as clearing the project |
| AppRefactored.Session.HandleStudioSelect | App.refactored.tsx:108-110 | only the studio mode changes |
| AppRefactored.Session.HandleGenerateVideoPrompts | App.refactored.tsx:113-137 | without an image document, key or model it reports the configuration error; a failure reports the generation error; success applies the processed result but keeps the image document and the audio document; loading ends in every case |
| AppRefactored.Session.OpenEditor | App.refactored.tsx:250 | the entry becomes the one being edited |
| AppRefactored.Session.OnSave | App.refactored.tsx:276-279 | the editor closes and no document field changes |
| AppRefactored.Session.OnClose | App.refactored.tsx:275 | the editor closes |
| AppRefactored.UnrecognisedUploadResets | App.refactored.tsx:74-83 | loading a document of no known kind leaves no studio, no document and no error |
| AppRefactored.GeneratedVideoOpensVideoStudio | App.refactored.tsx:126-130 | a generated video document opens the video studio on its entries, keeping the image document it came from |
| AppHeader.ModeWordsDistinct | src/components/layout/AppHeader.tsx:69-71 | each studio's title word differs from every other's |
| AppHeader.ButtonsNeedStudio | src/components/layout/AppHeader.tsx:69-139 | with no studio there is no title and no button; with one, the title, upload and API buttons always show |
| AppHeader.VideoImpliesAudio | src/components/layout/AppHeader.tsx:42-43 | whenever video generation is offered, audio generation is too |
| AppHeader.GenerationNeedsApi | src/components/layout/AppHeader.tsx:42-43 | generation buttons need a key and a model, and the API button reads "connected" exactly then |
| AppHeader.DownloadNeedsUpload | src/components/layout/AppHeader.tsx:41 | clear shows exactly for an uploaded file without error; download shows exactly beside it in the audio studio with an audio document |
| Sidebar.ShotIds | components/Sidebar.tsx:18 | the shot id of every entry, in order |
| Sidebar.SomeShotIdOf | components/Sidebar.tsx:18 | `acc.some(...)` is false on no items; it throws when the first item or the current entry is `null`; without `null`s it is true exactly when a kept entry has the current entry's id |
| Sidebar.SomeHasShotId | components/Sidebar.tsx:18 | the search loop gives the throwing search `SomeShotId` |
| Sidebar.CollectUniqueShots | components/Sidebar.tsx:17-22 | the reduce loop gives the throwing fold `UniqueShotsOf` |
| Sidebar.UniqueShotsThrowExtends | components/Sidebar.tsx:17-22 | once the reduce has thrown on a prefix, it throws with the same error on the whole list |
| Sidebar.UniqueShotsThrows | components/Sidebar.tsx:17-22 | the reduce throws exactly for two or more entries of which one is `null`, and otherwise keeps an entry unless a kept one has its id |
| Sidebar.UniqueShotsHead | components/Sidebar.tsx:17-22 | the first entry is always the first link |
| Sidebar.UniqueShotsAreFirstOccurrences | components/Sidebar.tsx:17-22 | the links are exactly the first entry of each shot id, in input order |
| Sidebar.UniqueShotsDistinct | components/Sidebar.tsx:17-22 | no two links share a shot id, and every shot id of the input has a link |
| Sidebar.UniqueShotsFromInput | components/Sidebar.tsx:17-22 | every link is an input entry, and there are no more links than entries |
| Sidebar.LinkLabel | components/Sidebar.tsx:61 | the label is `image_title` when truthy, and `image_id` otherwise |
| Sidebar.AtMostOneActive | components/Sidebar.tsx:55 | at most one link is highlighted |
| PromptViewer.GroupIds | components/PromptViewer.tsx:56 | the shot id of every card, in order |
| PromptViewer.FindGroup | components/PromptViewer.tsx:56 | `find` stops at the first card with the id, or says there is none |
| PromptViewer.FindGroupIndex | components/PromptViewer.tsx:56 | the search throws exactly when there is a card and the entry is `null`, and otherwise returns what `FindGroup` specifies |
| PromptViewer.GroupedThrowExtends | components/PromptViewer.tsx:55-67 | once the reduce has thrown on a prefix, it throws with the same error on the whole list |
| PromptViewer.GroupedThrows | components/PromptViewer.tsx:55-67 | the reduce throws exactly when some entry is `null`, and otherwise gives the grouping fold |
| PromptViewer.GroupByShot | components/PromptViewer.tsx:55-67 | the reduce loop gives the throwing fold `GroupedOf`, throwing where the search or the opening of a card reads a `null` entry's `shot_id` |
| PromptViewer.FilterAbsent | components/PromptViewer.tsx:55-67 | filtering by a shot id that no entry carries gives no entries |
| PromptViewer.GroupsMatchLinks | components/PromptViewer.tsx:55-67 | the cards come in the same order, with the same shot ids, as the sidebar's links |
| PromptViewer.GroupIdsDistinct | components/PromptViewer.tsx:55-67 | no two cards share a shot id, and every entry's shot has a card |
| PromptViewer.GroupContents | components/PromptViewer.tsx:55-67 | each card holds exactly its shot's entries, in input order, never none, with the first one's description |
| PromptViewer.GroupedTotal | components/PromptViewer.tsx:55-67 | the cards hold as many entries as the input: none lost, none repeated |
| ShotCard.PlanKey | components/ShotCard.tsx:13-15 | the plan key is the second dash-separated part, or "A" without a dash |
| ShotCard.PlanKeyNoDash | components/ShotCard.tsx:15 | an id without a dash is plan "A" |
| ShotCard.PlanKeyOfId | components/ShotCard.tsx:13-15 | `SHOT-PLAN` and `SHOT-PLAN-...` are plan `PLAN` |
| ShotCard.PlanKeyExample | components/ShotCard.tsx:14 | `S01.01-A-01` is plan `A` |
| ShotCard.FindPlan | components/ShotCard.tsx:16 | `acc[planKey]` is the plan with that key, or there is none |
| ShotCard.BuildPlans | components/ShotCard.tsx:11-22 | the reduce computes the bucketing fold, which throws at the first non-string `image_id` |
| ShotCard.PlansOfCorrect | components/ShotCard.tsx:11-22 | bucketing succeeds exactly when every `image_id` is a string, and then has distinct keys, one per key that occurs, each holding exactly its plan's entries in order |
| ShotCard.BelowTotal | components/ShotCard.tsx:24 | any two keys are comparable in the sort order |
| ShotCard.BelowTransitive | components/ShotCard.tsx:24 | the sort order is transitive |
| ShotCard.BelowAntisymmetric | components/ShotCard.tsx:24 | keys below each other are equal |
| ShotCard.SortKeysCorrect | components/ShotCard.tsx:24 | the sorted keys are in order and are a permutation of the keys |
| ShotCard.ViewOf | components/ShotCard.tsx:24-40 | the card's plan keys are the record's keys, sorted; the tabs show exactly when there is more than one plan |
| ShotCard.ActivePlanShown | components/ShotCard.tsx:24-62 | the card opens on the smallest plan key and shows exactly that plan's entries |
| PromptSetViewer.Underscores | components/PromptSetViewer.tsx:18 | every `_` becomes a space, and nothing else changes |
| PromptSetViewer.Upper | components/PromptSetViewer.tsx:20 | `toUpperCase` changes only `a`-`z`, keeps word characters word characters, and never gives a lowercase letter |
| PromptSetViewer.TitleShape | components/PromptSetViewer.tsx:16-21 | a title has no `_`, does not end in " en", and every word in it starts upper-cased |
| PromptSetViewer.FormatTitleIdempotent | components/PromptSetViewer.tsx:16-21 | formatting a title again changes nothing |
| PromptSetViewer.PromptEnCopyable | components/PromptDetail.tsx:14 | `prompt_en` is shown as "Prompt (English)" and gets the copy button |
| PromptSetViewer.KlingCopyable | components/PromptDetail.tsx:14 | `kling_structured_prompt` is shown as "Kling Structured Prompt" and gets the copy button |
| PromptSetViewer.Entries | components/PromptSetViewer.tsx:47 | `Object.entries` of an object is its members, and of an array or string has one entry per element |
| PromptSetViewer.Tabs | components/PromptSetViewer.tsx:12 | the tabs throw exactly for `null` or missing prompts, and are otherwise the prompt set keys |
| PromptSetViewer.FirstSetShown | components/PromptSetViewer.tsx:13-14 | the set shown first is the first prompt set |
| PromptSetViewer.BlockOf | components/PromptSetViewer.tsx:50-56 | objects and arrays render as code and strings as text with the formatted title; other values render nothing |
| PromptSetViewer.BlocksOf | components/PromptSetViewer.tsx:47-57 | no more blocks than fields |
| PromptSetViewer.BlocksAreShownFields | components/PromptSetViewer.tsx:47-57 | the blocks are exactly one per shown field |
| PromptSetViewer.HiddenKeys | components/PromptSetViewer.tsx:48 | `settings` and `prompt_object_v6` never render |
| PromptSetViewer.BodyOfObject | components/PromptSetViewer.tsx:47-57 | each block of an object set shows one of its own members, one block per shown member |
| PromptEditor.Assign | components/PromptEditor.tsx:11 | after `current[key] = value` the child at `key` is `value` |
| PromptEditor.SetNestedValue | components/PromptEditor.tsx:5-13 | the copy-walk-assign loop gives the tree with the value at the path replaced |
| PromptEditor.ReadBack | components/PromptEditor.tsx:5-13 | reading the edited path gives the assigned value |
| PromptEditor.Untouched | components/PromptEditor.tsx:5-13 | every path that diverges from the edited one reads as before |
| PromptEditor.ReadBelow | components/PromptEditor.tsx:5-13 | paths below the edited one read into the assigned value |
| PromptEditor.StillValid | components/PromptEditor.tsx:5-13 | an edited tree can be edited again at the same path |
| PromptEditor.SetTwice | components/PromptEditor.tsx:5-13 | the same edit made twice equals making it once |
| PromptEditor.OriginalAgreesWithExtract | components/PromptEditor.tsx:161-193 | the editor's original agrees with `extractPromptObjectV6`, and falls back to the default structure |
| PromptEditor.DefaultFormPathsValid | components/PromptEditor.tsx:77-113 | every fixed field of the form can be edited on the default structure |
| PromptEditor.SequencePathValid | components/PromptEditor.tsx:117-139 | a timestamp, camera or motion field of sequence row `index` can be set exactly when that row is an object in `video_module.sequence` |
| PromptEditor.CharacterEditConfined | components/PromptEditor.tsx:58-66 | a character row edits only that character's `id` |
| PromptEditor.EditorDraft.constructor | components/PromptEditor.tsx:195-199 | the draft starts as a copy of the original |
| PromptEditor.EditorDraft.HandleFieldChange | components/PromptEditor.tsx:201-203 | the draft becomes the copy with the value set at the path, and reads it back |
| PromptEditor.EditorDraft.HandleDurationChange | components/PromptEditor.tsx:102-107 | the duration becomes `Number` of the typed text (`null` where that is NaN), which is the numeral's value for digit text and 0 for empty text |
| StoryGenerator.SumOf | components/StoryGenerator.tsx:25 | the reduce loop computes the sum fold |
| StoryGenerator.SumFieldOk | components/StoryGenerator.tsx:25 | the sum succeeds exactly when no shot is `null` |
| StoryGenerator.NumberValue | components/StoryGenerator.tsx:25 | a value adds as a number when it is an integer, `null` (as 0) or a boolean (`true` as 1, `false` as 0), and otherwise not |
| StoryGenerator.SumFieldNumbers | components/StoryGenerator.tsx:25 | when every value adds as a number (integer, `null` as 0, booleans as 1 and 0) the sum is their total |
| StoryGenerator.SumFieldNaN | components/StoryGenerator.tsx:25 | once a value adds as neither a number, `null` nor a boolean, the sum is no longer a number |
| StoryGenerator.NullCountAddsNothing | components/StoryGenerator.tsx:25 | an `image_count` of `null` adds nothing: counts 2 and `null` total 2 |
| StoryGenerator.RecalculateTotals | components/StoryGenerator.tsx:21-33 | the method computes the recalculation, `null` for a falsy document |
| StoryGenerator.RecalculatedFields | components/StoryGenerator.tsx:24-31 | shots are kept; `shot_count` is their number and `total_images` the sum of `image_count`; every other document and scene property is kept |
| StoryGenerator.RecalculateIdempotent | components/StoryGenerator.tsx:21-33 | recalculating twice equals recalculating once |
| StoryGenerator.KeepOthers | components/StoryGenerator.tsx:159 | the filter succeeds exactly when no shot is `null` |
| StoryGenerator.KeepOthersCounts | components/StoryGenerator.tsx:159 | every shot with another id is kept as often as it occurs, and no shot with the id is kept |
| StoryGenerator.KeepOthersMembers | components/StoryGenerator.tsx:159 | a shot is kept exactly when it is in the list with another id |
| StoryGenerator.KeepOthersAppend | components/StoryGenerator.tsx:159 | filtering two runs one after the other is filtering each, so the kept shots keep their input order |
| StoryGenerator.KeepOthersAbsent | components/StoryGenerator.tsx:159 | when no shot has the id, the filter keeps the list as it is |
| StoryGenerator.AddedShot | components/StoryGenerator.tsx:135-142 | the new shot is appended; the shot count grows by one and the image total by its `image_count` |
| StoryGenerator.RemovedShot | components/StoryGenerator.tsx:154-163 | the shots become the filter's result: exactly the shots with another id, each as often as before; the shot count is their number; with no shot of that id the shots are unchanged |
| StoryGenerator.NextFromNumbered | components/StoryGenerator.tsx:105-107 | after `PREFIX.NN` comes `PREFIX.NN+1`, zero-padded to two digits |
| StoryGenerator.DefaultLastShotIdNumbered | components/StoryGenerator.tsx:104 | the fallback last id "S01.00" is the zeroth shot of scene S01 |
| StoryGenerator.LastShotIdOf | components/StoryGenerator.tsx:104 | a last shot with a non-empty string id is the one the next id continues from |
| StoryGenerator.NextShotIdFirst | components/StoryGenerator.tsx:104-107 | with no shots the next id is "S01.01" |
| StoryGenerator.NextShotIdContinues | components/StoryGenerator.tsx:104-107 | after a last shot `PREFIX.NN` the next id is `PREFIX.NN+1` |
| StoryGenerator.LoadInStudio | components/StoryGenerator.tsx:170-174 | a document is handed over, under "AI-Generated-Story.json", exactly when there is one |
| StoryGenerator.StoryGeneratorState.constructor | components/StoryGenerator.tsx:15-19 | empty idea, not loading, no error, no document |
| StoryGenerator.StoryGeneratorState.SetStoryIdea | components/StoryGenerator.tsx:202 | only the idea changes |
| StoryGenerator.StoryGeneratorState.HandleGenerate | components/StoryGenerator.tsx:35-89 | a blank idea reports "Please enter a story idea."; otherwise a missing key or failed call reports the prefixed error with no document, and success shows the generated document |
| StoryGenerator.StoryGeneratorState.HandleAddShot | components/StoryGenerator.tsx:91-152 | no document: nothing happens; a missing key or failure reports the prefixed error; success appends the shot and recalculates the totals |
| StoryGenerator.StoryGeneratorState.HandleRemoveShot | components/StoryGenerator.tsx:154-163 | the document becomes the removal's result when it succeeds, and is unchanged otherwise |
| StoryGenerator.StoryGeneratorState.TotalDuration | components/StoryGenerator.tsx:165-168 | the loop gives `totalDurationOf` the current document |
| StoryGenerator.TotalDurationTotals | components/StoryGenerator.tsx:165-168 | 0 without a document; a TypeError when `shots` is not an array or holds a `null`; otherwise the total of the durations when each adds as a number |
| AudioStudio.Stage6Check | components/AudioStudio.tsx:41-51 | a stage-6 upload is accepted exactly for JSON text with a `shots` array |
| AudioStudio.RestoreCheck | components/AudioStudio.tsx:72-84 | a restore is accepted exactly for JSON text with both audio keys |
| AudioStudio.AcceptedDocumentsClassify | components/AudioStudio.tsx:45-76 | restored documents are what the detector calls audio; stage-6 documents without the audio keys are image or video |
| AudioStudio.SceneTitleOf | components/AudioStudio.tsx:96-100 | the title is always truthy: the audio label with an audio document, "제목 없음" with no document |
| AudioStudio.SceneTitleFallback | components/AudioStudio.tsx:99 | with only a stage-6 document, the title is the first shot's description when truthy, then `scene_id` |
| AudioStudio.AudioStudioState.constructor | components/AudioStudio.tsx:18-22 | no file, no documents, not loading, no error |
| AudioStudio.AudioStudioState.ReceiveInitialData | components/AudioStudio.tsx:25-31 | a truthy initial document is shown and the stage-6 upload is dropped; otherwise nothing changes |
| AudioStudio.AudioStudioState.ClearStage6 | components/AudioStudio.tsx:203 | the clear button drops the stage-6 file and document together, keeps the audio document, loading flag and error, and the title then falls back to the audio document alone |
| AudioStudio.AudioStudioState.HandleStage6Upload | components/AudioStudio.tsx:33-62 | an accepted upload sets the file and document and leaves generation mode; a rejected one reports "파일 처리 실패: " and drops both; a read error only reports |
| AudioStudio.AudioStudioState.HandleRestoreUpload | components/AudioStudio.tsx:64-93 | an accepted restore shows the audio document, notifies the shell and drops the stage-6 upload; a rejected one only reports |
| AudioStudio.AudioStudioState.HandleGenerate | components/AudioStudio.tsx:102-154 | without a stage-6 document it reports that; otherwise a missing key or failure reports the prefixed error, and success shows and hands over the audio document |

## Left out

- JSON text parsing and printing (`JSON.parse`, `JSON.stringify`) are not modelled. A read delivers a parsed document or a parse error message.
- Deep copies through `JSON.parse(JSON.stringify(x))`, including `deepCloneJson`, are the identity, because Dafny values have no aliasing. The only effect a real copy has, dropping `undefined` members, is not modelled.
- The `FileReader` internals are not modelled. The exact texts of engine errors are not modelled either: a TypeError carries a fixed placeholder message.
- Downloads are not modelled: `FileService.downloadJson` (it needs the browser) and `handleDownloadJson`.
- `FileService.processJsonFile` is not modelled. The refactored shell's second read of the same file is assumed to parse to the same document as the hook's read.
- The AI calls are parameters. The model does not cover the prompts sent to them, the response schemas, the Gemini API hook, localStorage, or the API configuration dialog.
- The audio studio's `language` state is not modelled. It only shapes the AI prompt.
- `handleGenerateAudioPrompts` is not modelled because it is an empty placeholder.
- Render wiring is not modelled. This covers the prop names the refactored shell passes to the sidebar, viewer and editor, which differ from the names those components declare. It also covers scrolling, the intersection observer, tab clicks (`setActiveTab`, `setActivePlan`), `toUpperCase` on tab labels, the code block rendering, and the clipboard copy in the prompt detail.
- Races are not modelled. Each handler runs as one atomic step, so asynchronous interleavings and stale closures in React state updates are not captured.
- When a React state updater throws, the model leaves the state unchanged and reports `completed == false`.
- Strings are sequences of Unicode code points (scalar values), one `char` each, where JavaScript strings are sequences of UTF-16 code units; a lone surrogate cannot be represented. `toUpperCase` is modelled only for ASCII letters. For text with characters outside the Basic Multilingual Plane (such as emoji), which JavaScript stores as two code units, this gives the three differences below.
- Js.LengthOf: a character outside the Basic Multilingual Plane counts 1, where JavaScript `length` counts 2. The core only compares `length` with 0, which the difference does not affect.
- FileService.SafeName: a character outside the Basic Multilingual Plane becomes one `_`, where `replace(/[^a-z0-9_-]/gi, '_')` replaces each of its two code units and gives two.
- ShotCard.Below: the order compares code points, so a character outside the Basic Multilingual Plane sorts after one in U+E000 to U+FFFF, where `sort()` compares code units and puts it before.
- `Object.keys` keeps insertion order. JavaScript's rule that integer-like keys come first is not modelled. Prototype keys are not modelled either.
- Numbers are integers. Fractions, floats and `Infinity` are not represented. Text.Number reads only a decimal numeral with an optional sign between optional whitespace, and empty text as 0; every other text gives `None`. This includes text that JavaScript `Number` reads as an integer: hexadecimal (`"0x10"` is 16), binary (`"0b11"` is 3), octal (`"0o17"` is 15), exponent notation (`"1e3"` is 1000) and a zero fraction (`"1.0"` is 1). For such text typed as a duration, the model stores `null` where the source stores the number.
- StoryGenerator.SumOf: a NaN total, from an `undefined` addend, is `None`, and the model stores it in the document as `null`, the way `JSON.stringify` writes NaN; in memory JavaScript keeps NaN there. A string, array or object addend makes JavaScript concatenate strings; the model gives `None` there too and does not compute the string.
- StoryGenerator.RecalculateTotals: spreading a `scene_info` that is not an object is treated as spreading `{}`.
- PromptUtils.UpdatePromptObjectV6: it requires that a `veo2` which is present is not an array. JavaScript would add a named property to that array, and an array value in this model has no place for one.
- PromptEditor.SetNestedValue: it requires every step of the path to exist. The source's behaviour on a missing step (a TypeError, or creating a property on a primitive) is not modelled.
- The shot card's `activePlan` state is modelled only at its initial value, `planKeys[0]`. A plan that disappears after the card has opened is not modelled.
- The clock is a parameter. `getSafeFileName` receives the ISO text of the current time.
- The audio studio's `onAudioGenerated` callback is modelled as the `notified` output of the handler that calls it.
- Object identity is not modelled. Comparisons use structural equality, which agrees with `===` for primitive (string, number, boolean, `null`) values. An object- or array-valued `shot_id` in the classic video studio's unvalidated entries is `===` to no other entry's, but the model groups it with structurally equal ids in the sidebar and the viewer.
