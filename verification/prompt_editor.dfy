/** The structured prompt editor: a copy-then-set-at-path mutator over JSON
    trees, the choice of the prompt object to edit, the editor's draft, and
    the field paths its form writes to. */
module PromptEditor {

  import opened Js
  import Text
  import PromptUtils

  /** One step of a path: an object property or an array index. */
  datatype Seg = Key(k: string) | Index(n: nat)

  type Path = seq<Seg>

  /** `j[s]` names an existing child. */
  predicate HasChild(j: Json, s: Seg) {
    match s
    case Key(k) => j.JObj? && k in Keys(j.members)
    case Index(n) => j.JArr? && n < |j.items|
  }

  function Child(j: Json, s: Seg): Json
    requires HasChild(j, s)
  {
    match s
    case Key(k) => Lookup(j.members, k).value
    case Index(n) => j.items[n]
  }

  /** The value at a path, or `undefined` where the path leaves the tree. */
  function GetAt(j: Json, path: Path): Value
    decreases |path|
  {
    if |path| == 0 then Some(j)
    else if HasChild(j, path[0]) then GetAt(Child(j, path[0]), path[1..])
    else None
  }

  /** `j[s] = v` can be performed on `j` and its result is a JSON value: a
      property of an object, or an index of an array up to its length
      (assigning at the length appends). */
  predicate Fits(j: Json, s: Seg) {
    match s
    case Key(_) => j.JObj?
    case Index(n) => j.JArr? && n <= |j.items|
  }

  /** `j[s] = v` on a copy. */
  function Assign(j: Json, s: Seg, v: Json): (r: Json)
    requires Fits(j, s)
    ensures HasChild(r, s) && Child(r, s) == v
  {
    match s
    case Key(k) => JObj(Put(j.members, k, v))
    case Index(n) => if n < |j.items| then JArr(j.items[n := v]) else JArr(j.items + [v])
  }

  /** The mutator's precondition: a non-empty path whose every proper prefix
      names an existing child, and whose last step can be assigned. */
  predicate ValidPath(j: Json, path: Path)
    decreases |path|
  {
    |path| >= 1
    && if |path| == 1 then Fits(j, path[0])
       else HasChild(j, path[0]) && ValidPath(Child(j, path[0]), path[1..])
  }

  /** The tree with the value at `path` replaced by `v`. */
  function SetAt(j: Json, path: Path, v: Json): Json
    requires ValidPath(j, path)
    decreases |path|
  {
    if |path| == 1 then Assign(j, path[0], v)
    else Assign(j, path[0], SetAt(Child(j, path[0]), path[1..], v))
  }

  /** Reading a path in two steps. */
  lemma {:induction false} GetAtAppend(j: Json, p: Path, q: Path)
    requires GetAt(j, p).Some?
    ensures GetAt(j, p + q) == GetAt(GetAt(j, p).value, q)
    decreases |p|
  {
    if p != [] {
      assert (p + q)[0] == p[0] && (p + q)[1..] == p[1..] + q;
      GetAtAppend(Child(j, p[0]), p[1..], q);
    } else {
      assert p + q == q;
    }
  }

  /** The ancestors the mutator walks through exist. */
  lemma {:induction false} ValidPrefix(j: Json, path: Path, i: nat)
    requires ValidPath(j, path) && i < |path|
    ensures GetAt(j, path[..i]).Some? && ValidPath(GetAt(j, path[..i]).value, path[i..])
    decreases |path|
  {
    if i > 0 {
      assert path[..i][0] == path[0] && path[..i][1..] == path[1..][..i - 1];
      ValidPrefix(Child(j, path[0]), path[1..], i - 1);
      assert path[1..][i - 1..] == path[i..];
    }
  }

  /** `setNestedValue`: the copy is walked down to the parent of the target,
      the target is assigned, and the copy is rebuilt on the way back up
      (values have no sharing, so each ancestor is rebuilt around its new
      child). */
  method SetNestedValue(obj: Json, path: Path, value: Json) returns (r: Json)
    requires ValidPath(obj, path)
    ensures r == SetAt(obj, path, value)
  {
    var ancestors: seq<Json> := [];
    var current := obj;
    var i := 0;
    while i < |path| - 1
      invariant 0 <= i <= |path| - 1
      invariant |ancestors| == i
      invariant GetAt(obj, path[..i]) == Some(current)
      invariant ValidPath(current, path[i..])
      invariant forall k :: 0 <= k < i ==> GetAt(obj, path[..k]) == Some(ancestors[k])
    {
      ValidPrefix(obj, path, i + 1);
      GetAtAppend(obj, path[..i], [path[i]]);
      assert path[..i] + [path[i]] == path[..i + 1];
      ancestors := ancestors + [current];
      current := Child(current, path[i]);
      i := i + 1;
    }
    assert path[i..] == [path[i]];
    current := Assign(current, path[i], value);
    while i > 0
      invariant 0 <= i <= |path| - 1
      invariant ValidPath(GetAt(obj, path[..i]).value, path[i..])
      invariant current == SetAt(GetAt(obj, path[..i]).value, path[i..], value)
    {
      i := i - 1;
      ValidPrefix(obj, path, i);
      var parent := ancestors[i];
      assert path[i..][0] == path[i] && path[i..][1..] == path[i + 1..];
      GetAtAppend(obj, path[..i], [path[i]]);
      assert path[..i] + [path[i]] == path[..i + 1];
      current := Assign(parent, path[i], current);
    }
    r := current;
  }

  /** Reading back at the edited path gives the assigned value. */
  lemma {:induction false} ReadBack(j: Json, path: Path, v: Json)
    requires ValidPath(j, path)
    ensures GetAt(SetAt(j, path, v), path) == Some(v)
    decreases |path|
  {
    if |path| > 1 {
      ReadBack(Child(j, path[0]), path[1..], v);
    }
  }

  /** Two paths diverge when neither is a prefix of the other. */
  predicate Diverges(p: Path, q: Path) {
    p != [] && q != [] && (p[0] != q[0] || Diverges(p[1..], q[1..]))
  }

  /** Assigning a child leaves every other child alone. */
  lemma AssignOther(j: Json, s: Seg, v: Json, t: Seg)
    requires Fits(j, s) && s != t
    ensures HasChild(Assign(j, s, v), t) == HasChild(j, t)
    ensures HasChild(j, t) ==> Child(Assign(j, s, v), t) == Child(j, t)
  {
    if s.Key? && t.Key? {
      PutOther(j.members, s.k, v, t.k);
    }
  }

  /** Non-interference: every path that diverges from the edited one reads
      the same value before and after the edit. */
  lemma {:induction false} Untouched(j: Json, p: Path, v: Json, q: Path)
    requires ValidPath(j, p) && Diverges(p, q)
    ensures GetAt(SetAt(j, p, v), q) == GetAt(j, q)
    decreases |p|
  {
    if p[0] != q[0] {
      var x := if |p| == 1 then v else SetAt(Child(j, p[0]), p[1..], v);
      AssignOther(j, p[0], x, q[0]);
    } else {
      Untouched(Child(j, p[0]), p[1..], v, q[1..]);
    }
  }

  /** Paths that extend the edited one read into the assigned value. */
  lemma ReadBelow(j: Json, p: Path, v: Json, q: Path)
    requires ValidPath(j, p)
    ensures GetAt(SetAt(j, p, v), p + q) == GetAt(v, q)
  {
    ReadBack(j, p, v);
    GetAtAppend(SetAt(j, p, v), p, q);
  }

  /** An edited tree can be edited again at the same path. */
  lemma {:induction false} StillValid(j: Json, p: Path, v: Json)
    requires ValidPath(j, p)
    ensures ValidPath(SetAt(j, p, v), p)
    decreases |p|
  {
    if |p| > 1 {
      StillValid(Child(j, p[0]), p[1..], v);
    }
  }

  /** Setting the same value at the same path twice is setting it once. */
  lemma {:induction false} SetTwice(j: Json, p: Path, v: Json)
    requires ValidPath(j, p)
    ensures ValidPath(SetAt(j, p, v), p)
    ensures SetAt(SetAt(j, p, v), p, v) == SetAt(j, p, v)
    decreases |p|
  {
    StillValid(j, p, v);
    var once := SetAt(j, p, v);
    if |p| == 1 {
      AssignTwice(j, p[0], v);
    } else {
      var c := Child(j, p[0]);
      SetTwice(c, p[1..], v);
      AssignTwice(j, p[0], SetAt(c, p[1..], v));
    }
  }

  lemma AssignTwice(j: Json, s: Seg, x: Json)
    requires Fits(j, s)
    ensures Fits(Assign(j, s, x), s) && Assign(Assign(j, s, x), s, x) == Assign(j, s, x)
  {
    if s.Key? {
      PutTwice(j.members, s.k, x);
    }
  }

  // ------------------------------------------------------ the prompt object

  /** The default structure written out inside the editor. */
  function InlineDefault(): Json {
    JObj([
      ("core_module", JObj([
        ("character", JObj([])),
        ("location_baseline", JObj([("setting", JStr("")), ("details", JStr(""))])),
        ("project_style", JStr(""))])),
      ("video_module", JObj([
        ("metadata", JObj([("duration_seconds", JInt(0))])),
        ("global", JObj([("description", JStr(""))])),
        ("sequence", JArr([]))]))])
  }

  /** `getOriginalPrompt`, given `promptData.prompts`: the object under
      `veo2`, else the direct one, else the default; the `in` tests throw
      unless the prompts are an object or an array. */
  function GetOriginalPrompt(prompts: Value): Result<Json> {
    if prompts.None? || InRejects(prompts.value) then Throw(TypeErrorMessage)
    else
      var p := prompts.value;
      var nested := OptGet(Field(p, "veo2"), "prompt_object_v6");
      if HasKey(p, "veo2") && Truthy(nested) then Ok(nested.value)
      else if HasKey(p, "prompt_object_v6") && Truthy(Field(p, "prompt_object_v6")) then Ok(Field(p, "prompt_object_v6").value)
      else Ok(InlineDefault())
  }

  /** The editor's choice agrees with `extractPromptObjectV6`, and falls back
      to exactly the structure `createDefaultPromptObjectV6` builds. */
  lemma OriginalAgreesWithExtract(prompts: Value)
    ensures GetOriginalPrompt(prompts).Throw? <==> PromptUtils.ExtractPromptObjectV6(prompts).Throw?
    ensures GetOriginalPrompt(prompts).Ok? ==>
      var e := PromptUtils.ExtractPromptObjectV6(prompts).value;
      GetOriginalPrompt(prompts).value == if e == Null then PromptUtils.CreateDefaultPromptObjectV6() else e.value
  {
  }

  // ------------------------------------------------------------ form paths

  function CharacterIdPath(key: string): Path {
    [Key("core_module"), Key("character"), Key(key), Key("id")]
  }

  const SettingPath: Path := [Key("core_module"), Key("location_baseline"), Key("setting")]
  const DetailsPath: Path := [Key("core_module"), Key("location_baseline"), Key("details")]
  const ProjectStylePath: Path := [Key("core_module"), Key("project_style")]
  const DurationPath: Path := [Key("video_module"), Key("metadata"), Key("duration_seconds")]
  const DescriptionPath: Path := [Key("video_module"), Key("global"), Key("description")]

  /** The sequence item fields the form edits. */
  predicate IsSequenceField(field: string) {
    field == "timestamp" || field == "camera" || field == "motion"
  }

  function SequencePath(index: nat, field: string): Path
    requires IsSequenceField(field)
  {
    [Key("video_module"), Key("sequence"), Index(index), Key(field)]
  }

  /** A field of sequence row `index` can be edited exactly when that row
      is an object in the `sequence` array of the `video_module`. */
  lemma SequencePathValid(j: Json, index: nat, field: string)
    requires IsSequenceField(field)
    ensures var row := GetAt(j, [Key("video_module"), Key("sequence"), Index(index)]);
      ValidPath(j, SequencePath(index, field)) <==> row.Some? && row.value.JObj?
  {
    var p := SequencePath(index, field);
    var q: Path := [Key("video_module"), Key("sequence"), Index(index)];
    assert p[1..] == [Key("sequence"), Index(index), Key(field)] && q[1..] == [Key("sequence"), Index(index)];
    if HasChild(j, Key("video_module")) {
      var m := Child(j, Key("video_module"));
      assert p[1..][1..] == [Index(index), Key(field)] && q[1..][1..] == [Index(index)];
      assert GetAt(j, q) == GetAt(m, q[1..]);
      assert ValidPath(j, p) == ValidPath(m, p[1..]);
      if HasChild(m, Key("sequence")) {
        var sq := Child(m, Key("sequence"));
        assert p[1..][1..][1..] == [Key(field)] && q[1..][1..][1..] == [];
        assert GetAt(m, q[1..]) == GetAt(sq, [Index(index)]);
        assert ValidPath(m, p[1..]) == ValidPath(sq, [Index(index), Key(field)]);
        if HasChild(sq, Index(index)) {
          var row := Child(sq, Index(index));
          assert GetAt(sq, [Index(index)]) == Some(row);
          assert ValidPath(sq, [Index(index), Key(field)]) == ValidPath(row, [Key(field)]);
        }
      }
    }
  }

  /** Every fixed field of the form can be edited on the default structure. */
  lemma DefaultFormPathsValid()
    ensures var d := InlineDefault();
      ValidPath(d, SettingPath) && ValidPath(d, DetailsPath) && ValidPath(d, ProjectStylePath)
      && ValidPath(d, DurationPath) && ValidPath(d, DescriptionPath)
  {
    var d := InlineDefault();
    assert Keys(d.members)[0] == "core_module" && Keys(d.members)[1] == "video_module";
    var core := Child(d, Key("core_module"));
    var video := Child(d, Key("video_module"));
    assert Keys(core.members)[1] == "location_baseline";
    assert Keys(video.members)[0] == "metadata" && Keys(video.members)[1] == "global";
  }

  /** A character row edits only that character's `id`: the edit reads back
      there, and every path outside `core_module.character.<key>.id` keeps its
      value. */
  lemma CharacterEditConfined(prompt: Json, key: string, text: string, q: Path)
    requires ValidPath(prompt, CharacterIdPath(key))
    requires Diverges(CharacterIdPath(key), q)
    ensures GetAt(SetAt(prompt, CharacterIdPath(key), JStr(text)), CharacterIdPath(key)) == Some(JStr(text))
    ensures GetAt(SetAt(prompt, CharacterIdPath(key), JStr(text)), q) == GetAt(prompt, q)
  {
    ReadBack(prompt, CharacterIdPath(key), JStr(text));
    Untouched(prompt, CharacterIdPath(key), JStr(text), q);
  }

  /** `Number(text)` as the editor stores it: an integer, or `null` where the
      text is not an integer numeral (`NaN`, which every later copy of the
      draft turns into `null`). */
  function DurationValue(text: string): Json {
    match Text.Number(text)
    case Some(n) => JInt(n)
    case None => JNull
  }

  /** The editor's state: the object shown in the "before" column and the
      draft being edited. */
  class EditorDraft {
    const original: Json
    var edited: Json

    /** The draft starts as a copy of the original. */
    constructor(originalPrompt: Json)
      ensures original == originalPrompt && edited == originalPrompt
    {
      original := originalPrompt;
      edited := originalPrompt;
    }

    /** `handleFieldChange`: the draft becomes a copy with one value set; the
        original is never touched. */
    method HandleFieldChange(path: Path, value: Json)
      requires ValidPath(edited, path)
      modifies this
      ensures edited == SetAt(old(edited), path, value)
      ensures GetAt(edited, path) == Some(value)
    {
      edited := SetNestedValue(edited, path, value);
      ReadBack(old(edited), path, value);
    }

    /** The duration field: the typed text is converted with `Number` and
        stored at `video_module.metadata.duration_seconds`. */
    method HandleDurationChange(text: string)
      requires ValidPath(edited, DurationPath)
      modifies this
      ensures edited == SetAt(old(edited), DurationPath, DurationValue(text))
      ensures Text.AllDigits(text) ==>
        GetAt(edited, DurationPath) == Some(JInt(if text == "" then 0 else Text.DigitsValue(text)))
    {
      HandleFieldChange(DurationPath, DurationValue(text));
      if Text.AllDigits(text) {
        Text.NumberOfDigits(text);
      }
    }
  }
}
