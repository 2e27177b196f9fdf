/** Finding, defaulting, checking and writing back the structured
    `prompt_object_v6` of a prompt entry. It lives either under
    `prompts.veo2` (video documents) or directly on `prompts` (image
    documents). */
module PromptUtils {

  import opened Js

  /** `extractPromptObjectV6`, given `promptData.prompts`. The `in` test
      throws unless the prompts are an object or an array; `Null` is the
      `null` returned when no truthy object is found. */
  function ExtractPromptObjectV6(prompts: Value): (r: Result<Value>)
    ensures r.Throw? <==> prompts.None? || InRejects(prompts.value)
    ensures r.Ok? ==> r.value == Null || Truthy(r.value)
  {
    if prompts.None? || InRejects(prompts.value) then Throw(TypeErrorMessage)
    else
      var p := prompts.value;
      var nested := OptGet(Field(p, "veo2"), "prompt_object_v6");
      if HasKey(p, "veo2") && Truthy(nested) then Ok(nested)
      else if HasKey(p, "prompt_object_v6") && Truthy(Field(p, "prompt_object_v6")) then Ok(Field(p, "prompt_object_v6"))
      else Ok(Null)
  }

  /** The object under `veo2` wins over a direct one; a direct one is used
      only when `veo2` has none; otherwise the result is `null`. */
  lemma ExtractPriority(p: Json)
    requires !InRejects(p)
    ensures var nested := OptGet(Field(p, "veo2"), "prompt_object_v6");
      var direct := Field(p, "prompt_object_v6");
      var r := ExtractPromptObjectV6(Some(p)).value;
      (HasKey(p, "veo2") && Truthy(nested) ==> r == nested)
      && (!(HasKey(p, "veo2") && Truthy(nested)) && HasKey(p, "prompt_object_v6") && Truthy(direct) ==> r == direct)
      && (r == Null <==> !(HasKey(p, "veo2") && Truthy(nested)) && !Truthy(direct))
  {
  }

  /** `createDefaultPromptObjectV6`. */
  function CreateDefaultPromptObjectV6(): Json {
    JObj([
      ("core_module", JObj([
        ("character", JObj([])),
        ("location_baseline", JObj([("setting", JStr("")), ("details", JStr(""))])),
        ("project_style", JStr(""))])),
      ("video_module", JObj([
        ("metadata", JObj([("duration_seconds", JInt(0))])),
        ("global", JObj([("description", JStr(""))])),
        ("sequence", JArr([]))]))])
  }

  /** `isValidPromptObjectV6`: truthy, of type object, with both modules. */
  predicate IsValidPromptObjectV6(v: Value) {
    Truthy(v) && (v.value.JObj? || v.value.JArr?)
    && HasKey(v.value, "core_module") && HasKey(v.value, "video_module")
  }

  /** Validity means exactly: an object carrying both module keys. */
  lemma ValidMeansModules(v: Value)
    ensures IsValidPromptObjectV6(v) <==>
      v.Some? && v.value.JObj? && "core_module" in Keys(v.value.members) && "video_module" in Keys(v.value.members)
  {
  }

  /** The default has an empty character map, empty texts, a zero duration
      and an empty sequence, and it passes the validity check. */
  lemma DefaultShape()
    ensures var d := CreateDefaultPromptObjectV6();
      IsValidPromptObjectV6(Some(d))
      && OptGet(Field(d, "core_module"), "character") == Some(JObj([]))
      && OptGet(OptGet(Field(d, "core_module"), "location_baseline"), "setting") == Some(JStr(""))
      && OptGet(OptGet(Field(d, "core_module"), "location_baseline"), "details") == Some(JStr(""))
      && OptGet(Field(d, "core_module"), "project_style") == Some(JStr(""))
      && OptGet(OptGet(Field(d, "video_module"), "metadata"), "duration_seconds") == Some(JInt(0))
      && OptGet(OptGet(Field(d, "video_module"), "global"), "description") == Some(JStr(""))
      && OptGet(Field(d, "video_module"), "sequence") == Some(JArr([]))
  {
    var d := CreateDefaultPromptObjectV6();
    assert Keys(d.members)[0] == "core_module" && Keys(d.members)[1] == "video_module";
  }

  /** `updatePromptObjectV6InNormalizedPrompt`, on a copy of the entry.
      Assigning into a `veo2` that is `null` or a primitive throws (module
      code is strict). */
  function UpdatePromptObjectV6(entry: Json, updated: Json): (r: Result<Json>)
    requires var v := Field(entry, "prompts");
      v.Some? && HasKey(v.value, "veo2") ==> !Field(v.value, "veo2").value.JArr?
    ensures r.Throw? <==>
      var v := Field(entry, "prompts");
      v.None? || InRejects(v.value) || (HasKey(v.value, "veo2") && !Field(v.value, "veo2").value.JObj?)
  {
    var prompts := Field(entry, "prompts");
    if prompts.None? || InRejects(prompts.value) then Throw(TypeErrorMessage)
    else
      var p := prompts.value;
      if HasKey(p, "veo2") then
        var veo2 := Field(p, "veo2").value;
        if !veo2.JObj? then Throw(TypeErrorMessage)
        else
          var newVeo2 := JObj(Put(veo2.members, "prompt_object_v6", updated));
          Ok(JObj(Put(entry.members, "prompts", JObj(Put(p.members, "veo2", newVeo2)))))
      else if HasKey(p, "prompt_object_v6") then
        Ok(JObj(Put(entry.members, "prompts", JObj(Put(p.members, "prompt_object_v6", updated)))))
      else Ok(entry)
  }

  /** Round trip: after writing a truthy object back into an entry that has
      a `veo2` object or a direct key, extracting finds that object. */
  lemma UpdateThenExtract(entry: Json, updated: Json)
    requires var v := Field(entry, "prompts");
      v.Some? && HasKey(v.value, "veo2") ==> !Field(v.value, "veo2").value.JArr?
    requires UpdatePromptObjectV6(entry, updated).Ok? && Truthy(Some(updated))
    requires HasKey(Field(entry, "prompts").value, "veo2") || HasKey(Field(entry, "prompts").value, "prompt_object_v6")
    ensures ExtractPromptObjectV6(Field(UpdatePromptObjectV6(entry, updated).value, "prompts")) == Ok(Some(updated))
  {
    var p := Field(entry, "prompts").value;
    var e2 := UpdatePromptObjectV6(entry, updated).value;
    var p2 := Field(e2, "prompts").value;
    if HasKey(p, "veo2") {
      var veo2 := Field(p, "veo2").value;
      var newVeo2 := JObj(Put(veo2.members, "prompt_object_v6", updated));
      assert p2 == JObj(Put(p.members, "veo2", newVeo2));
      assert HasKey(p2, "veo2");
      assert OptGet(Field(p2, "veo2"), "prompt_object_v6") == Some(updated);
    } else {
      assert p2 == JObj(Put(p.members, "prompt_object_v6", updated));
      assert !HasKey(p2, "veo2");
    }
  }

  /** Writing back touches only the target: every other property of the
      entry, of `prompts` and of `veo2` keeps its value, and an entry with
      neither key comes back unchanged. */
  lemma UpdateLeavesRest(entry: Json, updated: Json, k: string)
    requires var v := Field(entry, "prompts");
      v.Some? && HasKey(v.value, "veo2") ==> !Field(v.value, "veo2").value.JArr?
    requires UpdatePromptObjectV6(entry, updated).Ok?
    ensures var e2 := UpdatePromptObjectV6(entry, updated).value;
      var p := Field(entry, "prompts").value;
      var p2 := Field(e2, "prompts").value;
      (k != "prompts" ==> Field(e2, k) == Field(entry, k))
      && (HasKey(p, "veo2") && k != "veo2" ==> Field(p2, k) == Field(p, k))
      && (HasKey(p, "veo2") && k != "prompt_object_v6" ==> OptGet(Field(p2, "veo2"), k) == OptGet(Field(p, "veo2"), k))
      && (!HasKey(p, "veo2") && k != "prompt_object_v6" ==> Field(p2, k) == Field(p, k))
      && (!HasKey(p, "veo2") && !HasKey(p, "prompt_object_v6") ==> e2 == entry)
  {
    var p := Field(entry, "prompts").value;
    if HasKey(p, "veo2") {
      var veo2 := Field(p, "veo2").value;
      var newVeo2 := JObj(Put(veo2.members, "prompt_object_v6", updated));
      var p2 := JObj(Put(p.members, "veo2", newVeo2));
      if k != "prompts" { PutOther(entry.members, "prompts", p2, k); }
      if k != "veo2" { PutOther(p.members, "veo2", newVeo2, k); }
      if k != "prompt_object_v6" { PutOther(veo2.members, "prompt_object_v6", updated, k); }
    } else if HasKey(p, "prompt_object_v6") {
      var p2 := JObj(Put(p.members, "prompt_object_v6", updated));
      if k != "prompts" { PutOther(entry.members, "prompts", p2, k); }
      if k != "prompt_object_v6" { PutOther(p.members, "prompt_object_v6", updated, k); }
    }
  }
}
