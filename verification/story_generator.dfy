/** The story generator: a storyboard document generated from an idea, to
    which shots can be added and from which shots can be removed, with the
    scene's `shot_count` and `total_images` recomputed after each change,
    the total duration shown, and the next shot id derived from the last. */
module StoryGenerator {

  import opened Js
  import opened Text
  import opened Studio

  const EmptyIdeaMessage := "Please enter a story idea."
  const MissingKeyMessage := "API key is not configured."
  const GenerateFailedPrefix := "Failed to generate storyboard: "
  const AddShotFailedPrefix := "Failed to add new shot: "
  const DefaultLastShotId := "S01.00"
  const StoryFileName := "AI-Generated-Story.json"

  // ---------------------------------------------------------------- sums

  /** The number a JSON value adds as: an integer as itself, `null` as 0,
      `true` as 1 and `false` as 0; `None` for `undefined` (which adds as
      NaN) and for a string, array or object (which turn the sum into a
      string). */
  function NumberValue(v: Value): (n: Option<int>)
    ensures v == Null ==> n == Some(0)
    ensures v == Some(JBool(true)) ==> n == Some(1)
    ensures v == Some(JBool(false)) ==> n == Some(0)
    ensures n.Some? <==> v.Some? && (v.value.JInt? || v.value.JNull? || v.value.JBool?)
  {
    match v
    case Some(JInt(b)) => Some(b)
    case Some(JNull) => Some(0)
    case Some(JBool(b)) => Some(if b then 1 else 0)
    case _ => None
  }

  /** `sum + shot[field]`: a number while both sides are numbers, and
      `None` once the sum is no longer a number. */
  function AddNumber(sum: Option<int>, v: Value): Option<int> {
    if sum.Some? && NumberValue(v).Some? then Some(sum.value + NumberValue(v).value) else None
  }

  /** `shots.reduce((sum, shot) => sum + shot[field], 0)`; reading a
      property of a `null` shot throws. */
  function SumField(shots: seq<Json>, field: string): Result<Option<int>>
    decreases |shots|
  {
    if |shots| == 0 then Ok(Some(0))
    else
      var n := |shots| - 1;
      match SumField(shots[..n], field)
      case Throw(m) => Throw(m)
      case Ok(sum) =>
        if shots[n] == JNull then Throw(TypeErrorMessage) else Ok(AddNumber(sum, Field(shots[n], field)))
  }

  lemma SumFieldSnoc(shots: seq<Json>, s: Json, field: string)
    ensures SumField(shots + [s], field) ==
      match SumField(shots, field)
      case Throw(m) => Throw(m)
      case Ok(sum) => if s == JNull then Throw(TypeErrorMessage) else Ok(AddNumber(sum, Field(s, field)))
  {
    assert (shots + [s])[..|shots|] == shots;
  }

  /** The reduce itself. */
  method SumOf(shots: seq<Json>, field: string) returns (r: Result<Option<int>>)
    ensures r == SumField(shots, field)
  {
    var sum: Option<int> := Some(0);
    var k := 0;
    while k < |shots|
      invariant 0 <= k <= |shots|
      invariant SumField(shots[..k], field) == Ok(sum)
    {
      assert shots[..k + 1] == shots[..k] + [shots[k]];
      SumFieldSnoc(shots[..k], shots[k], field);
      if shots[k] == JNull {
        SumThrowExtends(shots, k + 1, field);
        return Throw(TypeErrorMessage);
      }
      sum := AddNumber(sum, Field(shots[k], field));
      k := k + 1;
    }
    assert shots[..|shots|] == shots;
    r := Ok(sum);
  }

  lemma {:induction false} SumThrowExtends(shots: seq<Json>, k: nat, field: string)
    requires k <= |shots| && SumField(shots[..k], field).Throw?
    ensures SumField(shots, field) == SumField(shots[..k], field)
    decreases |shots| - k
  {
    if k < |shots| {
      assert shots[..k + 1] == shots[..k] + [shots[k]];
      SumFieldSnoc(shots[..k], shots[k], field);
      SumThrowExtends(shots, k + 1, field);
    } else {
      assert shots[..k] == shots;
    }
  }

  /** Every shot is present and its `field` adds as a number. */
  predicate AllNumbers(shots: seq<Json>, field: string) {
    forall i :: 0 <= i < |shots| ==> shots[i] != JNull && NumberValue(Field(shots[i], field)).Some?
  }

  /** Reference definition: the total of the numbers `field` adds as. */
  function NumberSum(shots: seq<Json>, field: string): int
    requires AllNumbers(shots, field)
    decreases |shots|
  {
    if |shots| == 0 then 0
    else
      var n := |shots| - 1;
      assert AllNumbers(shots[..n], field);
      NumberSum(shots[..n], field) + NumberValue(Field(shots[n], field)).value
  }

  /** The reduce succeeds exactly when no shot is `null`. */
  lemma {:induction false} SumFieldOk(shots: seq<Json>, field: string)
    ensures SumField(shots, field).Ok? <==> NoNullEntries(shots)
  {
    if shots != [] {
      var n := |shots| - 1;
      assert shots == shots[..n] + [shots[n]];
      SumFieldOk(shots[..n], field);
      assert NoNullEntries(shots) <==> NoNullEntries(shots[..n]) && shots[n] != JNull;
    }
  }

  /** When every value adds as a number the reduce gives their total. */
  lemma {:induction false} SumFieldNumbers(shots: seq<Json>, field: string)
    requires AllNumbers(shots, field)
    ensures SumField(shots, field) == Ok(Some(NumberSum(shots, field)))
    decreases |shots|
  {
    if shots != [] {
      var n := |shots| - 1;
      assert AllNumbers(shots[..n], field);
      SumFieldNumbers(shots[..n], field);
    }
  }

  /** A `null` count adds nothing: shots counting 2 and `null` images total 2. */
  lemma NullCountAddsNothing()
    ensures SumField([JObj([("image_count", JInt(2))]), JObj([("image_count", JNull)])], "image_count") == Ok(Some(2))
  {
    var a := JObj([("image_count", JInt(2))]);
    var b := JObj([("image_count", JNull)]);
    SumFieldSnoc([], a, "image_count");
    SumFieldSnoc([a], b, "image_count");
    assert [a] + [b] == [a, b];
  }

  /** Once a value does not add as a number the sum is no longer a number. */
  lemma {:induction false} SumFieldNaN(shots: seq<Json>, field: string)
    requires NoNullEntries(shots) && !AllNumbers(shots, field)
    ensures SumField(shots, field) == Ok(None)
    decreases |shots|
  {
    var n := |shots| - 1;
    var init := shots[..n];
    assert NoNullEntries(init);
    var i :| 0 <= i < |shots| && NumberValue(Field(shots[i], field)).None?;
    if i == n {
      SumFieldOk(init, field);
    } else {
      assert init[i] == shots[i];
      SumFieldNaN(init, field);
    }
  }

  // ------------------------------------------------------- recalculation

  /** A number as stored in the document; NaN is kept as `null`. */
  function NumberJson(v: Option<int>): Json {
    if v.Some? then JInt(v.value) else JNull
  }

  /** The members `{...v}` copies: an object's own members, none for
      `undefined` or `null`. */
  function SpreadMembers(v: Value): seq<(string, Json)> {
    if v.Some? && v.value.JObj? then v.value.members else []
  }

  /** `{...scene_info, shot_count, total_images}`. */
  function SceneTotals(info: Value, count: nat, total: Option<int>): Json {
    JObj(Put(Put(SpreadMembers(info), "shot_count", JInt(count)), "total_images", NumberJson(total)))
  }

  /** `recalculateTotals`: `null` for a falsy document; otherwise a copy
      whose `scene_info` carries the shot count and the sum of the shots'
      `image_count`. It throws when the document is not an object with an
      array of non-null shots. */
  function Recalculated(current: Value): Result<Value> {
    if !Truthy(current) then Ok(Null)
    else
      var j := current.value;
      var shots := Field(j, "shots");
      if !IsArray(shots) then Throw(TypeErrorMessage)
      else
        match SumField(shots.value.items, "image_count")
        case Throw(m) => Throw(m)
        case Ok(total) =>
          Ok(Some(JObj(Put(j.members, "scene_info", SceneTotals(Field(j, "scene_info"), |shots.value.items|, total)))))
  }

  /** The function itself, with its reduce as a loop. */
  method RecalculateTotals(current: Value) returns (r: Result<Value>)
    ensures r == Recalculated(current)
  {
    if !Truthy(current) {
      return Ok(Null);
    }
    var j := current.value;
    var shots := Field(j, "shots");
    if !IsArray(shots) {
      return Throw(TypeErrorMessage);
    }
    var total := SumOf(shots.value.items, "image_count");
    if total.Throw? {
      return Throw(total.message);
    }
    var info := SceneTotals(Field(j, "scene_info"), |shots.value.items|, total.value);
    r := Ok(Some(JObj(Put(j.members, "scene_info", info))));
  }

  /** After recalculation the shots are unchanged, `scene_info` carries the
      shot count and the image total, and every other property of the
      document and of its scene is kept. */
  lemma RecalculatedFields(j: Json, k: string)
    requires Recalculated(Some(j)).Ok? && Truthy(Some(j))
    ensures var r := Recalculated(Some(j)).value;
      var shots := Field(j, "shots").value.items;
      var info := OptGet(r, "scene_info");
      r.Some? && r.value.JObj? && Field(r.value, "shots") == Field(j, "shots")
      && OptGet(info, "shot_count") == Some(JInt(|shots|))
      && OptGet(info, "total_images") == Some(NumberJson(SumField(shots, "image_count").value))
      && (k != "scene_info" ==> Field(r.value, k) == Field(j, k))
      && (k != "shot_count" && k != "total_images" ==> OptGet(info, k) == Lookup(SpreadMembers(Field(j, "scene_info")), k))
  {
    var shots := Field(j, "shots").value.items;
    var total := SumField(shots, "image_count").value;
    var base := SpreadMembers(Field(j, "scene_info"));
    var s1 := Put(base, "shot_count", JInt(|shots|));
    var s2 := Put(s1, "total_images", NumberJson(total));
    PutOther(j.members, "scene_info", JObj(s2), "shots");
    PutOther(s1, "total_images", NumberJson(total), "shot_count");
    if k != "scene_info" {
      PutOther(j.members, "scene_info", JObj(s2), k);
    }
    if k != "shot_count" && k != "total_images" {
      PutOther(s1, "total_images", NumberJson(total), k);
      PutOther(base, "shot_count", JInt(|shots|), k);
    }
  }

  /** Recalculating twice is recalculating once. */
  lemma RecalculateIdempotent(current: Value)
    requires Recalculated(current).Ok?
    ensures Recalculated(Recalculated(current).value) == Recalculated(current)
  {
    if Truthy(current) {
      var j := current.value;
      var shots := Field(j, "shots").value.items;
      var total := SumField(shots, "image_count").value;
      var base := SpreadMembers(Field(j, "scene_info"));
      var s1 := Put(base, "shot_count", JInt(|shots|));
      var s2 := Put(s1, "total_images", NumberJson(total));
      var m := Put(j.members, "scene_info", JObj(s2));
      PutOther(j.members, "scene_info", JObj(s2), "shots");
      PutOther(s1, "total_images", NumberJson(total), "shot_count");
      PutSame(s2, "shot_count", JInt(|shots|));
      PutSame(s2, "total_images", NumberJson(total));
      PutTwice(j.members, "scene_info", JObj(s2));
      assert Recalculated(Some(JObj(m))) == Ok(Some(JObj(Put(m, "scene_info", JObj(s2)))));
    }
  }

  // ----------------------------------------------------- shot edits

  /** `{...json, shots: [...json.shots, newShot]}`; spreading a non-array
      throws. */
  function AppendShot(j: Json, newShot: Json): Result<Json> {
    var shots := Field(j, "shots");
    if !IsArray(shots) then Throw(TypeErrorMessage)
    else Ok(JObj(Put(j.members, "shots", JArr(shots.value.items + [newShot]))))
  }

  /** The add-shot state update: `null` stays `null`; otherwise the shot is
      appended and the totals recomputed. */
  function Added(current: Value, newShot: Json): Result<Value> {
    if !Truthy(current) then Ok(Null)
    else
      match AppendShot(current.value, newShot)
      case Throw(m) => Throw(m)
      case Ok(j) => Recalculated(Some(j))
  }

  /** `shots.filter(shot => shot.shot_id !== id)`; reading the id of a
      `null` shot throws. */
  function KeepOthers(shots: seq<Json>, id: string): (r: Result<seq<Json>>)
    ensures r.Ok? <==> NoNullEntries(shots)
  {
    if |shots| == 0 then Ok([])
    else if shots[0] == JNull then Throw(TypeErrorMessage)
    else
      match KeepOthers(shots[1..], id)
      case Throw(m) => Throw(m)
      case Ok(rest) =>
        assert forall i :: 1 <= i < |shots| ==> shots[i] == shots[1..][i - 1];
        Ok((if ShotIdOf(shots[0]) != Some(JStr(id)) then [shots[0]] else []) + rest)
  }

  /** The filter keeps every shot with another id as often as it occurs,
      and no shot with the id. */
  lemma {:induction false} KeepOthersCounts(shots: seq<Json>, id: string)
    requires KeepOthers(shots, id).Ok?
    ensures forall x :: multiset(KeepOthers(shots, id).value)[x] ==
                        (if ShotIdOf(x) == Some(JStr(id)) then 0 else multiset(shots)[x])
  {
    if |shots| > 0 {
      var rest := shots[1..];
      assert shots == [shots[0]] + rest;
      KeepOthersCounts(rest, id);
      KeepCons(shots[0], rest, id);
      var head: seq<Json> := if ShotIdOf(shots[0]) != Some(JStr(id)) then [shots[0]] else [];
      assert multiset(head + KeepOthers(rest, id).value) == multiset(head) + multiset(KeepOthers(rest, id).value);
      assert multiset(shots) == multiset([shots[0]]) + multiset(rest);
    }
  }

  /** Hence a shot is kept exactly when it is in the list with another id. */
  lemma KeepOthersMembers(shots: seq<Json>, id: string)
    requires KeepOthers(shots, id).Ok?
    ensures forall x :: x in KeepOthers(shots, id).value <==> x in shots && ShotIdOf(x) != Some(JStr(id))
  {
    KeepOthersCounts(shots, id);
    var kept := KeepOthers(shots, id).value;
    forall x ensures x in kept <==> x in shots && ShotIdOf(x) != Some(JStr(id)) {
      assert x in kept <==> multiset(kept)[x] > 0;
      assert x in shots <==> multiset(shots)[x] > 0;
    }
  }

  /** The filter works shot by shot: filtering two runs of shots one after
      the other is filtering each, so the kept shots stay in input order. */
  lemma {:induction false} KeepOthersAppend(a: seq<Json>, b: seq<Json>, id: string)
    requires NoNullEntries(a) && NoNullEntries(b)
    ensures KeepOthers(a + b, id) == Ok(KeepOthers(a, id).value + KeepOthers(b, id).value)
  {
    if |a| > 0 {
      var rest := a[1..];
      assert a == [a[0]] + rest && a + b == [a[0]] + (rest + b);
      assert NoNullEntries(rest) by {
        forall i | 0 <= i < |rest| ensures rest[i] != JNull {
          assert rest[i] == a[i + 1];
        }
      }
      KeepOthersAppend(rest, b, id);
      KeepCons(a[0], rest, id);
      KeepCons(a[0], rest + b, id);
      var head: seq<Json> := if ShotIdOf(a[0]) != Some(JStr(id)) then [a[0]] else [];
      var ka := KeepOthers(rest, id).value;
      var kb := KeepOthers(b, id).value;
      assert head + (ka + kb) == (head + ka) + kb;
    } else {
      assert a + b == b;
      var kb := KeepOthers(b, id).value;
      assert [] + kb == kb;
    }
  }

  /** Filtering a shot put in front of others. */
  lemma KeepCons(x: Json, rest: seq<Json>, id: string)
    requires x != JNull && KeepOthers(rest, id).Ok?
    ensures KeepOthers([x] + rest, id) ==
      Ok((if ShotIdOf(x) != Some(JStr(id)) then [x] else []) + KeepOthers(rest, id).value)
  {
    assert ([x] + rest)[0] == x && ([x] + rest)[1..] == rest;
  }

  /** With no shot carrying the id, the filter keeps the list as it is. */
  lemma {:induction false} KeepOthersAbsent(shots: seq<Json>, id: string)
    requires forall i :: 0 <= i < |shots| ==> ShotIdOf(shots[i]) != Some(JStr(id))
    ensures KeepOthers(shots, id).Ok? ==> KeepOthers(shots, id).value == shots
  {
    if |shots| > 0 && shots[0] != JNull {
      KeepOthersAbsent(shots[1..], id);
    }
  }

  /** The remove-shot state update. */
  function Removed(current: Value, id: string): Result<Value> {
    if !Truthy(current) then Ok(Null)
    else
      var j := current.value;
      var shots := Field(j, "shots");
      if !IsArray(shots) then Throw(TypeErrorMessage)
      else
        match KeepOthers(shots.value.items, id)
        case Throw(m) => Throw(m)
        case Ok(kept) => Recalculated(Some(JObj(Put(j.members, "shots", JArr(kept)))))
  }

  /** Adding a shot to a document appends it after the existing shots, adds
      one to the shot count and its `image_count` to the image total. */
  lemma AddedShot(j: Json, newShot: Json)
    requires Truthy(Some(j)) && Added(Some(j), newShot).Ok?
    ensures var shots := Field(j, "shots").value.items;
      var r := Added(Some(j), newShot).value;
      var info := OptGet(r, "scene_info");
      Field(r.value, "shots") == Some(JArr(shots + [newShot]))
      && OptGet(info, "shot_count") == Some(JInt(|shots| + 1))
      && SumField(shots, "image_count").Ok?
      && OptGet(info, "total_images")
         == Some(NumberJson(AddNumber(SumField(shots, "image_count").value, Field(newShot, "image_count"))))
  {
    var shots := Field(j, "shots").value.items;
    var a := AppendShot(j, newShot).value;
    RecalculatedFields(a, "shots");
    SumFieldSnoc(shots, newShot, "image_count");
  }

  /** Removing a shot leaves the filtered shots: exactly the shots with
      another id, each as often as before, in input order (see
      `KeepOthersAppend`); the shot count is their number; and when no shot
      has the id, the shots are unchanged. */
  lemma RemovedShot(j: Json, id: string)
    requires Truthy(Some(j)) && Removed(Some(j), id).Ok?
    ensures var shots := Field(j, "shots").value.items;
      var r := Removed(Some(j), id).value;
      var kept := Field(r.value, "shots");
      IsArray(kept)
      && KeepOthers(shots, id) == Ok(kept.value.items)
      && (forall x :: x in kept.value.items ==> x in shots && ShotIdOf(x) != Some(JStr(id)))
      && (forall i :: 0 <= i < |shots| && ShotIdOf(shots[i]) != Some(JStr(id)) ==> shots[i] in kept.value.items)
      && (forall x :: multiset(kept.value.items)[x] ==
                      (if ShotIdOf(x) == Some(JStr(id)) then 0 else multiset(shots)[x]))
      && OptGet(OptGet(r, "scene_info"), "shot_count") == Some(JInt(|kept.value.items|))
      && ((forall i :: 0 <= i < |shots| ==> ShotIdOf(shots[i]) != Some(JStr(id))) ==> kept == Field(j, "shots"))
  {
    var shots := Field(j, "shots").value.items;
    var k := KeepOthers(shots, id).value;
    var a := JObj(Put(j.members, "shots", JArr(k)));
    RecalculatedFields(a, "shots");
    KeepOthersMembers(shots, id);
    KeepOthersCounts(shots, id);
    if forall i :: 0 <= i < |shots| ==> ShotIdOf(shots[i]) != Some(JStr(id)) {
      KeepOthersAbsent(shots, id);
    }
  }

  // ------------------------------------------------------- next shot id

  /** The id asked for when adding a shot: the last shot's id (or
      "S01.00"), split at '.', with the number after the first '.' plus one,
      zero-padded to two digits. A missing or non-numeric number gives
      "NaN". Listing the existing shots throws unless `shots` is an array
      of non-null shots, and splitting throws unless the id is a string. */
  function NextShotId(j: Json): Result<string> {
    var shots := Field(j, "shots");
    if !IsArray(shots) || !NoNullEntries(shots.value.items) then Throw(TypeErrorMessage)
    else
      var lastId := LastShotId(shots.value.items);
      if !lastId.value.JStr? then Throw(TypeErrorMessage)
      else NextFrom(lastId.value.s)
  }

  /** `lastShot?.shot_id || 'S01.00'`. */
  function LastShotId(items: seq<Json>): (id: Value)
    ensures id.Some?
  {
    Or(if |items| == 0 then None else ShotIdOf(items[|items| - 1]), Some(JStr(DefaultLastShotId)))
  }

  /** A shot id `PREFIX.NN`: the number zero-padded to two digits. */
  function ShotId(prefix: string, n: nat): string {
    prefix + "." + PadStart(NatToString(n), 2, '0')
  }

  /** The default id is the zeroth shot of scene S01. */
  lemma DefaultLastShotIdNumbered()
    ensures DefaultLastShotId == ShotId("S01", 0)
  {
    assert NatToString(0) == "0";
  }

  lemma FirstShotIdText()
    ensures ShotId("S01", 1) == "S01.01"
  {
    assert NatToString(1) == "1";
  }

  lemma FirstShotIdNext()
    ensures NextFrom(ShotId("S01", 0)) == Ok(ShotId("S01", 1))
  {
    NextFromNumbered("S01", 0);
  }

  /** Split at '.', and the part after the first '.' made the next number. */
  function NextFrom(lastShotId: string): Result<string> {
    var parts := Split(lastShotId, '.');
    Ok(parts[0] + "." + NextNumber(if |parts| > 1 then Some(parts[1]) else None))
  }

  /** `String(parseInt(part) + 1).padStart(2, '0')`; "NaN" when there is no
      part or it does not start with a number. */
  function NextNumber(part: Option<string>): string {
    var n := if part.Some? then ParseInt(part.value) else None;
    if n.None? then "NaN" else PadStart(IntToString(n.value + 1), 2, '0')
  }

  /** Shot ids of the form `PREFIX.NN` continue in sequence. */
  lemma {:induction false} NextFromNumbered(prefix: string, n: nat)
    requires '.' !in prefix
    ensures NextFrom(ShotId(prefix, n)) == Ok(ShotId(prefix, n + 1))
  {
    var digits := PadStart(NatToString(n), 2, '0');
    NumberedParts(prefix, n);
    ParseIntPadded(n, 2);
    NextNumberOf(digits, n);
  }

  lemma {:induction false} NumberedParts(prefix: string, n: nat)
    requires '.' !in prefix
    ensures Split(ShotId(prefix, n), '.') == [prefix, PadStart(NatToString(n), 2, '0')]
  {
    var digits := PadStart(NatToString(n), 2, '0');
    PaddedDigits(NatToString(n), digits);
    assert '.' !in digits;
    assert ShotId(prefix, n) == prefix + ['.'] + digits;
    SplitPrefix(prefix, digits, '.');
    SplitFree(digits, '.');
  }

  lemma {:induction false} NextNumberOf(digits: string, n: nat)
    requires ParseInt(digits) == Some(n)
    ensures NextNumber(Some(digits)) == PadStart(NatToString(n + 1), 2, '0')
  {
    var m: nat := n + 1;
    NonNegativeText(m);
    assert NextNumber(Some(digits)) == PadStart(IntToString(m), 2, '0');
  }

  lemma NonNegativeText(m: nat)
    ensures IntToString(m) == NatToString(m)
  {
  }

  lemma NextShotIdIs(j: Json)
    requires IsArray(Field(j, "shots")) && NoNullEntries(Field(j, "shots").value.items)
    requires LastShotId(Field(j, "shots").value.items).value.JStr?
    ensures NextShotId(j) == NextFrom(LastShotId(Field(j, "shots").value.items).value.s)
  {
  }

  lemma LastShotIdOf(items: seq<Json>, id: string)
    requires items != [] && ShotIdOf(items[|items| - 1]) == Some(JStr(id)) && id != ""
    ensures LastShotId(items) == Some(JStr(id))
  {
  }

  /** With no shots yet, the first shot asked for is "S01.01". */
  lemma NextShotIdFirst(j: Json)
    requires IsArray(Field(j, "shots")) && Field(j, "shots").value.items == []
    ensures NextShotId(j) == Ok("S01.01")
  {
    assert LastShotId([]) == Some(JStr(DefaultLastShotId));
    NextShotIdIs(j);
    DefaultLastShotIdNumbered();
    FirstShotIdNext();
    FirstShotIdText();
  }

  /** After a shot `PREFIX.NN` comes `PREFIX.NN+1`. */
  lemma NextShotIdContinues(j: Json, prefix: string, n: nat)
    requires IsArray(Field(j, "shots")) && NoNullEntries(Field(j, "shots").value.items)
    requires var items := Field(j, "shots").value.items;
      items != [] && ShotIdOf(items[|items| - 1]) == Some(JStr(ShotId(prefix, n)))
    requires '.' !in prefix
    ensures NextShotId(j) == Ok(ShotId(prefix, n + 1))
  {
    var items := Field(j, "shots").value.items;
    assert |ShotId(prefix, n)| > 0;
    LastShotIdOf(items, ShotId(prefix, n));
    NextShotIdIs(j);
    NextFromNumbered(prefix, n);
  }

  /** `totalDuration`: 0 without a document, else the sum of the shots'
      `estimated_duration_seconds`. */
  function TotalDurationOf(current: Value): Result<Option<int>> {
    if !Truthy(current) then Ok(Some(0))
    else
      var shots := Field(current.value, "shots");
      if !IsArray(shots) then Throw(TypeErrorMessage)
      else SumField(shots.value.items, "estimated_duration_seconds")
  }

  /** The shown duration: 0 without a document; a TypeError when the
      document's `shots` is not an array or holds a `null` shot; and the
      total of the durations when each adds as a number. */
  lemma TotalDurationTotals(current: Value)
    ensures !Truthy(current) ==> TotalDurationOf(current) == Ok(Some(0))
    ensures Truthy(current) && !IsArray(Field(current.value, "shots")) ==>
      TotalDurationOf(current) == Throw(TypeErrorMessage)
    ensures Truthy(current) && IsArray(Field(current.value, "shots")) ==>
      var shots := Field(current.value, "shots").value.items;
      (TotalDurationOf(current).Ok? <==> NoNullEntries(shots))
      && (AllNumbers(shots, "estimated_duration_seconds") ==>
            TotalDurationOf(current) == Ok(Some(NumberSum(shots, "estimated_duration_seconds"))))
  {
    if Truthy(current) && IsArray(Field(current.value, "shots")) {
      var shots := Field(current.value, "shots").value.items;
      SumFieldOk(shots, "estimated_duration_seconds");
      if AllNumbers(shots, "estimated_duration_seconds") {
        SumFieldNumbers(shots, "estimated_duration_seconds");
      }
    }
  }

  /** `handleLoadInStudio`: the document and the file name handed to the
      studio, when there is a document. */
  function LoadInStudio(current: Value): (r: Option<(Json, string)>)
    ensures r.Some? <==> Truthy(current)
    ensures r.Some? ==> r.value == (current.value, StoryFileName)
  {
    if Truthy(current) then Some((current.value, StoryFileName)) else None
  }

  // ----------------------------------------------------------- the state

  class StoryGeneratorState {
    var storyIdea: string
    var isLoading: bool
    var isAddingShot: bool
    var error: Option<string>
    var generatedJson: Value

    constructor()
      ensures storyIdea == "" && !isLoading && !isAddingShot && error.None? && generatedJson == Null
    {
      storyIdea := "";
      isLoading := false;
      isAddingShot := false;
      error := None;
      generatedJson := Null;
    }

    method SetStoryIdea(idea: string)
      modifies this
      ensures storyIdea == idea
      ensures isLoading == old(isLoading) && isAddingShot == old(isAddingShot)
      ensures error == old(error) && generatedJson == old(generatedJson)
    {
      storyIdea := idea;
    }

    /** `handleGenerate`, with whether an API key is configured and the
        outcome of the generation call (and of parsing its text) given. */
    method HandleGenerate(apiKeyConfigured: bool, outcome: Result<Json>)
      modifies this
      ensures storyIdea == old(storyIdea) && isAddingShot == old(isAddingShot)
      ensures Trim(storyIdea) == "" ==>
        error == Some(EmptyIdeaMessage) && isLoading == old(isLoading) && generatedJson == old(generatedJson)
      ensures Trim(storyIdea) != "" ==> !isLoading
      ensures Trim(storyIdea) != "" && !apiKeyConfigured ==>
        error == Some(GenerateFailedPrefix + MissingKeyMessage) && generatedJson == Null
      ensures Trim(storyIdea) != "" && apiKeyConfigured && outcome.Throw? ==>
        error == Some(GenerateFailedPrefix + outcome.message) && generatedJson == Null
      ensures Trim(storyIdea) != "" && apiKeyConfigured && outcome.Ok? ==>
        error.None? && generatedJson == Some(outcome.value)
    {
      if Trim(storyIdea) == "" {
        error := Some(EmptyIdeaMessage);
        return;
      }
      isLoading := true;
      error := None;
      generatedJson := Null;
      if !apiKeyConfigured {
        error := Some(GenerateFailedPrefix + MissingKeyMessage);
        generatedJson := Null;
      } else if outcome.Throw? {
        error := Some(GenerateFailedPrefix + outcome.message);
        generatedJson := Null;
      } else {
        generatedJson := Some(outcome.value);
      }
      isLoading := false;
    }

    /** `handleAddShot`, with the configured key and the outcome of the
        call given. `completed` is false when the state update itself
        throws (the new shot is `null`), which React reports as a render
        error; the model then leaves the document as it was. */
    method HandleAddShot(apiKeyConfigured: bool, outcome: Result<Json>) returns (completed: bool)
      modifies this
      ensures storyIdea == old(storyIdea) && isLoading == old(isLoading)
      ensures !Truthy(old(generatedJson)) ==> completed && unchanged(this)
      ensures Truthy(old(generatedJson)) ==> !isAddingShot
      ensures Truthy(old(generatedJson)) && !apiKeyConfigured ==>
        completed && error == Some(AddShotFailedPrefix + MissingKeyMessage) && generatedJson == old(generatedJson)
      ensures Truthy(old(generatedJson)) && apiKeyConfigured && NextShotId(old(generatedJson).value).Throw? ==>
        completed && error == Some(AddShotFailedPrefix + TypeErrorMessage) && generatedJson == old(generatedJson)
      ensures (Truthy(old(generatedJson)) && apiKeyConfigured && NextShotId(old(generatedJson).value).Ok?
        && outcome.Throw?) ==>
        completed && error == Some(AddShotFailedPrefix + outcome.message) && generatedJson == old(generatedJson)
      ensures (Truthy(old(generatedJson)) && apiKeyConfigured && NextShotId(old(generatedJson).value).Ok?
        && outcome.Ok?) ==>
        error.None?
        && (completed <==> Added(old(generatedJson), outcome.value).Ok?)
        && generatedJson == (if completed then Added(old(generatedJson), outcome.value).value else old(generatedJson))
    {
      completed := true;
      if !Truthy(generatedJson) {
        return;
      }
      isAddingShot := true;
      error := None;
      if !apiKeyConfigured {
        error := Some(AddShotFailedPrefix + MissingKeyMessage);
      } else {
        var next := NextShotId(generatedJson.value);
        if next.Throw? {
          error := Some(AddShotFailedPrefix + next.message);
        } else if outcome.Throw? {
          error := Some(AddShotFailedPrefix + outcome.message);
        } else {
          var appended := AppendShot(generatedJson.value, outcome.value);
          if appended.Throw? {
            completed := false;
          } else {
            var r := RecalculateTotals(Some(appended.value));
            if r.Throw? {
              completed := false;
            } else {
              generatedJson := r.value;
            }
          }
        }
      }
      isAddingShot := false;
    }

    /** `handleRemoveShot`: `completed` is false when the update throws. */
    method HandleRemoveShot(id: string) returns (completed: bool)
      modifies this
      ensures storyIdea == old(storyIdea) && isLoading == old(isLoading)
      ensures isAddingShot == old(isAddingShot) && error == old(error)
      ensures completed <==> Removed(old(generatedJson), id).Ok?
      ensures generatedJson == if completed then Removed(old(generatedJson), id).value else old(generatedJson)
    {
      completed := true;
      if !Truthy(generatedJson) {
        generatedJson := Null;
        return;
      }
      var j := generatedJson.value;
      var shots := Field(j, "shots");
      if !IsArray(shots) {
        return false;
      }
      var kept := KeepOthers(shots.value.items, id);
      if kept.Throw? {
        return false;
      }
      var r := RecalculateTotals(Some(JObj(Put(j.members, "shots", JArr(kept.value)))));
      if r.Throw? {
        return false;
      }
      generatedJson := r.value;
    }

    /** `totalDuration`, with its reduce as a loop. */
    method TotalDuration() returns (d: Result<Option<int>>)
      ensures d == TotalDurationOf(generatedJson)
    {
      if !Truthy(generatedJson) {
        return Ok(Some(0));
      }
      var shots := Field(generatedJson.value, "shots");
      if !IsArray(shots) {
        return Throw(TypeErrorMessage);
      }
      d := SumOf(shots.value.items, "estimated_duration_seconds");
    }
  }
}
