/** A shot card: the entries of one shot bucketed by plan (the second
    dash-separated part of `image_id`, "A" when there is none), the plan
    keys in ascending string order, the first of them active, and plan
    tabs shown only when there is more than one plan. */
module ShotCard {

  import opened Js
  import opened Text

  // ------------------------------------------------------------ plan keys

  /** `parts.length > 1 ? parts[1] : 'A'` with `parts = imageId.split('-')`. */
  function PlanKey(imageId: string): (k: string)
    ensures '-' !in k
  {
    var parts := Split(imageId, '-');
    if |parts| > 1 then parts[1] else "A"
  }

  /** An id without a dash falls back to plan "A". */
  lemma PlanKeyNoDash(imageId: string)
    requires '-' !in imageId
    ensures PlanKey(imageId) == "A"
  {
    SplitFree(imageId, '-');
  }

  /** An id of the form `SHOT-PLAN` or `SHOT-PLAN-...` has plan `PLAN`. */
  lemma PlanKeyOfId(shot: string, plan: string, tail: string)
    requires '-' !in shot && '-' !in plan
    requires tail == [] || tail[0] == '-'
    ensures PlanKey(shot + ['-'] + plan + tail) == plan
  {
    SplitPrefix(shot, plan + tail, '-');
    assert shot + ['-'] + plan + tail == shot + ['-'] + (plan + tail);
    if |tail| == 0 {
      SplitFree(plan, '-');
      assert plan + tail == plan;
    } else {
      SplitPrefix(plan, tail[1..], '-');
      assert plan + tail == plan + ['-'] + tail[1..];
    }
  }

  /** The id format the card expects: `S01.01-A-01` is plan `A`. */
  lemma PlanKeyExample()
    ensures PlanKey("S01.01-A-01") == "A"
  {
    PlanKeyOfId("S01.01", "A", "-01");
    assert "S01.01" + ['-'] + "A" + "-01" == "S01.01-A-01";
  }

  // ----------------------------------------------------------- bucketing

  /** One member of the `plans` record: a plan key and its entries. */
  datatype Plan = Plan(key: string, prompts: seq<Json>)

  /** `prompt.image_id` when it is a string; `split` on anything else throws. */
  function ImageIdText(e: Json): Option<string> {
    match Field(e, "image_id")
    case Some(JStr(s)) => Some(s)
    case _ => None
  }

  function PlanKeys(plans: seq<Plan>): (ks: seq<string>)
    ensures |ks| == |plans|
    ensures forall i :: 0 <= i < |plans| ==> ks[i] == plans[i].key
  {
    seq(|plans|, i requires 0 <= i < |plans| => plans[i].key)
  }

  /** Where `acc[planKey]` lives: its index, or the number of plans. */
  function FindPlan(plans: seq<Plan>, key: string): (i: nat)
    ensures i <= |plans|
    ensures i < |plans| ==> plans[i].key == key
    ensures forall j :: 0 <= j < i ==> plans[j].key != key
  {
    FindPlanFrom(plans, key, 0)
  }

  /** The search from index `k` on, every earlier key being different. */
  function FindPlanFrom(plans: seq<Plan>, key: string, k: nat): (i: nat)
    requires k <= |plans|
    requires forall j :: 0 <= j < k ==> plans[j].key != key
    ensures k <= i <= |plans|
    ensures i < |plans| ==> plans[i].key == key
    ensures forall j :: 0 <= j < i ==> plans[j].key != key
    decreases |plans| - k
  {
    if k == |plans| then k
    else if plans[k].key == key then k
    else FindPlanFrom(plans, key, k + 1)
  }

  /** `if (!acc[k]) acc[k] = []; acc[k].push(e)`. */
  function AddToPlan(plans: seq<Plan>, key: string, e: Json): seq<Plan> {
    var i := FindPlan(plans, key);
    if i == |plans| then plans + [Plan(key, [e])]
    else plans[i := plans[i].(prompts := plans[i].prompts + [e])]
  }

  /** The `plans` reduce as a left fold; it throws at the first entry whose
      `image_id` is not a string. */
  function PlansOf(entries: seq<Json>): Result<seq<Plan>>
    decreases |entries|
  {
    if |entries| == 0 then Ok([])
    else
      var n := |entries| - 1;
      match PlansOf(entries[..n])
      case Throw(m) => Throw(m)
      case Ok(plans) =>
        match ImageIdText(entries[n])
        case None => Throw(TypeErrorMessage)
        case Some(id) => Ok(AddToPlan(plans, PlanKey(id), entries[n]))
  }

  lemma PlansOfStep(entries: seq<Json>, k: nat)
    requires k < |entries|
    ensures PlansOf(entries[..k + 1]) ==
      match PlansOf(entries[..k])
      case Throw(m) => Throw(m)
      case Ok(plans) =>
        match ImageIdText(entries[k])
        case None => Throw(TypeErrorMessage)
        case Some(id) => Ok(AddToPlan(plans, PlanKey(id), entries[k]))
  {
    assert entries[..k + 1][..k] == entries[..k];
  }

  /** The reduce itself. */
  method BuildPlans(prompts: seq<Json>) returns (r: Result<seq<Plan>>)
    ensures r == PlansOf(prompts)
  {
    var acc: seq<Plan> := [];
    var k := 0;
    while k < |prompts|
      invariant 0 <= k <= |prompts|
      invariant PlansOf(prompts[..k]) == Ok(acc)
    {
      var prompt := prompts[k];
      var imageId := ImageIdText(prompt);
      if imageId.None? {
        PlansOfStops(prompts, k);
        return Throw(TypeErrorMessage);
      }
      var planKey := PlanKey(imageId.value);
      PlansOfPushes(prompts, k, acc);
      var i := FindPlan(acc, planKey);
      ghost var before := acc;
      if i == |acc| {
        acc := acc + [Plan(planKey, [])];
      }
      acc := acc[i := acc[i].(prompts := acc[i].prompts + [prompt])];
      OpenThenPush(before, planKey, prompt);
      k := k + 1;
    }
    assert prompts[..|prompts|] == prompts;
    r := Ok(acc);
  }

  lemma {:induction false} PlansOfPushes(entries: seq<Json>, k: nat, acc: seq<Plan>)
    requires k < |entries| && PlansOf(entries[..k]) == Ok(acc) && ImageIdText(entries[k]).Some?
    ensures PlansOf(entries[..k + 1]) == Ok(AddToPlan(acc, PlanKey(ImageIdText(entries[k]).value), entries[k]))
  {
    var prefix := entries[..k + 1];
    assert prefix[..k] == entries[..k] && prefix[k] == entries[k];
  }

  lemma {:induction false} PlansOfStops(entries: seq<Json>, k: nat)
    requires k < |entries| && PlansOf(entries[..k]).Ok? && ImageIdText(entries[k]).None?
    ensures PlansOf(entries) == Throw(TypeErrorMessage)
  {
    assert entries[..k + 1][..k] == entries[..k] && entries[..k + 1][k] == entries[k];
    PlansOfStopsAt(entries[..k + 1], k);
    PlansThrowExtends(entries, k + 1);
  }

  lemma {:induction false} PlansOfStopsAt(prefix: seq<Json>, k: nat)
    requires |prefix| == k + 1 && PlansOf(prefix[..k]).Ok? && ImageIdText(prefix[k]).None?
    ensures PlansOf(prefix) == Throw(TypeErrorMessage)
  {
  }

  /** Opening the plan when it is missing and then pushing is `AddToPlan`. */
  lemma OpenThenPush(acc: seq<Plan>, key: string, e: Json)
    ensures var i := FindPlan(acc, key);
      var ready := if i == |acc| then acc + [Plan(key, [])] else acc;
      ready[i := ready[i].(prompts := ready[i].prompts + [e])] == AddToPlan(acc, key, e)
  {
    var i := FindPlan(acc, key);
    if i == |acc| {
      assert [] + [e] == [e];
    }
  }

  /** Once the reduce has thrown, it has thrown for every longer prefix. */
  lemma {:induction false} PlansThrowExtends(entries: seq<Json>, k: nat)
    requires k <= |entries| && PlansOf(entries[..k]).Throw?
    ensures PlansOf(entries) == PlansOf(entries[..k])
    decreases |entries| - k
  {
    if k < |entries| {
      PlansOfStep(entries, k);
      PlansThrowExtends(entries, k + 1);
    } else {
      assert entries[..k] == entries;
    }
  }

  /** Every `image_id` is a string. */
  predicate IdsAreText(entries: seq<Json>) {
    forall i :: 0 <= i < |entries| ==> ImageIdText(entries[i]).Some?
  }

  /** The plan key of an entry whose `image_id` is a string. */
  function KeyOf(e: Json): string
    requires ImageIdText(e).Some?
  {
    PlanKey(ImageIdText(e).value)
  }

  /** Reference definition: the entries whose plan key is `key`. */
  function FilterByPlan(entries: seq<Json>, key: string): seq<Json>
    requires IdsAreText(entries)
    decreases |entries|
  {
    if |entries| == 0 then []
    else
      var n := |entries| - 1;
      FilterByPlan(entries[..n], key) + (if KeyOf(entries[n]) == key then [entries[n]] else [])
  }

  lemma FilterByPlanSnoc(init: seq<Json>, e: Json, key: string)
    requires IdsAreText(init) && ImageIdText(e).Some?
    ensures IdsAreText(init + [e])
    ensures FilterByPlan(init + [e], key) == FilterByPlan(init, key) + (if KeyOf(e) == key then [e] else [])
  {
    assert forall i :: 0 <= i < |init| ==> (init + [e])[i] == init[i];
    assert (init + [e])[..|init|] == init;
  }

  predicate KeysDistinct(plans: seq<Plan>) {
    forall i, j :: 0 <= i < j < |plans| ==> plans[i].key != plans[j].key
  }

  predicate KeysCover(entries: seq<Json>, plans: seq<Plan>)
    requires IdsAreText(entries)
  {
    forall i :: 0 <= i < |entries| ==> KeyOf(entries[i]) in PlanKeys(plans)
  }

  predicate PlansFiltered(entries: seq<Json>, plans: seq<Plan>)
    requires IdsAreText(entries)
  {
    forall i :: 0 <= i < |plans| ==>
      plans[i].prompts == FilterByPlan(entries, plans[i].key) && plans[i].prompts != []
  }

  /** What the `plans` record holds: distinct keys, one per plan key that
      occurs, each with exactly the entries of that plan in input order. */
  predicate PlansHold(entries: seq<Json>, plans: seq<Plan>)
    requires IdsAreText(entries)
  {
    KeysDistinct(plans) && KeysCover(entries, plans) && PlansFiltered(entries, plans)
  }

  lemma {:induction false} FilterByPlanAbsent(entries: seq<Json>, key: string)
    requires IdsAreText(entries)
    requires forall i :: 0 <= i < |entries| ==> KeyOf(entries[i]) != key
    ensures FilterByPlan(entries, key) == []
  {
    if entries != [] {
      FilterByPlanAbsent(entries[..|entries| - 1], key);
    }
  }

  /** Bucketing succeeds exactly when every `image_id` is a string, and then
      the record holds every entry under its plan key. */
  lemma {:induction false} PlansOfCorrect(entries: seq<Json>)
    ensures PlansOf(entries).Ok? <==> IdsAreText(entries)
    ensures PlansOf(entries).Ok? ==> PlansHold(entries, PlansOf(entries).value)
  {
    if entries != [] {
      var n := |entries| - 1;
      var init := entries[..n];
      var e := entries[n];
      assert entries == init + [e];
      PlansOfCorrect(init);
      assert IdsAreText(entries) <==> IdsAreText(init) && ImageIdText(e).Some?;
      if IdsAreText(entries) {
        var plans := PlansOf(init).value;
        assert PlansOf(entries) == Ok(AddToPlan(plans, KeyOf(e), e));
        if FindPlan(plans, KeyOf(e)) == |plans| {
          AddNewPlan(init, e, plans);
        } else {
          AddToExistingPlan(init, e, plans);
        }
      }
    }
  }

  /** The step that opens a plan: the new plan holds just the new entry. */
  lemma AddNewPlan(init: seq<Json>, e: Json, plans: seq<Plan>)
    requires IdsAreText(init) && ImageIdText(e).Some? && PlansHold(init, plans)
    requires FindPlan(plans, KeyOf(e)) == |plans|
    ensures PlansHold(init + [e], plans + [Plan(KeyOf(e), [e])])
  {
    var key := KeyOf(e);
    var entries := init + [e];
    FilterByPlanSnoc(init, e, key);
    var p2 := plans + [Plan(key, [e])];
    assert key !in PlanKeys(plans);
    forall i | 0 <= i < |init| ensures KeyOf(init[i]) != key {
      assert KeyOf(init[i]) in PlanKeys(plans);
    }
    FilterByPlanAbsent(init, key);
    forall i | 0 <= i < |p2|
      ensures p2[i].prompts == FilterByPlan(entries, p2[i].key) && p2[i].prompts != []
    {
      FilterByPlanSnoc(init, e, p2[i].key);
      if i < |plans| {
        assert PlanKeys(plans)[i] == plans[i].key;
      }
    }
    assert PlanKeys(p2) == PlanKeys(plans) + [key];
    forall i | 0 <= i < |entries| ensures KeyOf(entries[i]) in PlanKeys(p2) {
      if i < |init| {
        assert entries[i] == init[i];
      }
    }
  }

  /** The step that extends a plan: only the plan of the entry's key grows. */
  lemma AddToExistingPlan(init: seq<Json>, e: Json, plans: seq<Plan>)
    requires IdsAreText(init) && ImageIdText(e).Some? && PlansHold(init, plans)
    requires FindPlan(plans, KeyOf(e)) < |plans|
    ensures var i0 := FindPlan(plans, KeyOf(e));
      PlansHold(init + [e], plans[i0 := plans[i0].(prompts := plans[i0].prompts + [e])])
  {
    var key := KeyOf(e);
    var entries := init + [e];
    FilterByPlanSnoc(init, e, key);
    var i0 := FindPlan(plans, key);
    var p2 := plans[i0 := plans[i0].(prompts := plans[i0].prompts + [e])];
    assert PlanKeys(p2) == PlanKeys(plans);
    forall i | 0 <= i < |p2|
      ensures p2[i].prompts == FilterByPlan(entries, p2[i].key) && p2[i].prompts != []
    {
      FilterByPlanSnoc(init, e, p2[i].key);
      if i == i0 {
        assert p2[i].prompts == plans[i0].prompts + [e];
      } else {
        assert p2[i] == plans[i];
        assert plans[i].key != key by {
          if i < i0 {
          } else {
            assert plans[i0].key != plans[i].key;
          }
        }
      }
    }
    forall i | 0 <= i < |entries| ensures KeyOf(entries[i]) in PlanKeys(p2) {
      if i < |init| {
        assert entries[i] == init[i];
      } else {
        assert PlanKeys(p2)[i0] == key;
      }
    }
  }

  // ------------------------------------------------------------- ordering

  /** `a <= b` in the order `Array.prototype.sort` uses for strings:
      character by character, a proper prefix first. Characters are code
      points, where `sort` compares UTF-16 code units; the two orders agree
      below U+D800. */
  predicate Below(a: string, b: string) {
    a == [] || (b != [] && (a[0] < b[0] || (a[0] == b[0] && Below(a[1..], b[1..]))))
  }

  lemma {:induction false} BelowTotal(a: string, b: string)
    ensures Below(a, b) || Below(b, a)
  {
    if a != [] && b != [] && a[0] == b[0] {
      BelowTotal(a[1..], b[1..]);
    }
  }

  lemma {:induction false} BelowTransitive(a: string, b: string, c: string)
    requires Below(a, b) && Below(b, c)
    ensures Below(a, c)
  {
    if a != [] && b != [] && c != [] && a[0] == b[0] && b[0] == c[0] {
      BelowTransitive(a[1..], b[1..], c[1..]);
    }
  }

  lemma {:induction false} BelowAntisymmetric(a: string, b: string)
    requires Below(a, b) && Below(b, a)
    ensures a == b
  {
    if a != [] && b != [] {
      BelowAntisymmetric(a[1..], b[1..]);
      assert a == [a[0]] + a[1..] && b == [b[0]] + b[1..];
    }
  }

  predicate Sorted(s: seq<string>) {
    forall i, j :: 0 <= i < j < |s| ==> Below(s[i], s[j])
  }

  /** Insert `k` before the first element it is below. */
  function Insert(s: seq<string>, k: string): seq<string> {
    if |s| == 0 then [k]
    else if Below(k, s[0]) then [k] + s
    else [s[0]] + Insert(s[1..], k)
  }

  /** `keys.sort()` with the default comparison. */
  function SortKeys(keys: seq<string>): seq<string> {
    if |keys| == 0 then [] else Insert(SortKeys(keys[1..]), keys[0])
  }

  lemma {:induction false} InsertPermutes(s: seq<string>, k: string)
    ensures multiset(Insert(s, k)) == multiset(s) + multiset{k}
  {
    if s != [] && !Below(k, s[0]) {
      InsertPermutes(s[1..], k);
      assert s == [s[0]] + s[1..];
    }
  }

  lemma {:induction false} InsertSorted(s: seq<string>, k: string)
    requires Sorted(s)
    ensures Sorted(Insert(s, k))
  {
    if |s| == 0 {
    } else if Below(k, s[0]) {
      forall j | 0 <= j < |s| ensures Below(k, s[j]) {
        if j > 0 {
          BelowTransitive(k, s[0], s[j]);
        }
      }
      var r := [k] + s;
      forall i, j | 0 <= i < j < |r| ensures Below(r[i], r[j]) {
        if i > 0 {
          assert r[i] == s[i - 1] && r[j] == s[j - 1];
        } else {
          assert r[j] == s[j - 1];
        }
      }
    } else {
      BelowTotal(k, s[0]);
      InsertSorted(s[1..], k);
      InsertPermutes(s[1..], k);
      var r := Insert(s[1..], k);
      forall i | 0 <= i < |r| ensures Below(s[0], r[i]) {
        assert r[i] in multiset(r);
        assert r[i] in multiset(s[1..]) + multiset{k};
        if r[i] != k {
          assert r[i] in s[1..];
          var m :| 0 <= m < |s[1..]| && s[1..][m] == r[i];
          assert s[m + 1] == r[i];
        }
      }
      var t := [s[0]] + r;
      assert Insert(s, k) == t;
      forall i, j | 0 <= i < j < |t| ensures Below(t[i], t[j]) {
        if i > 0 {
          assert t[i] == r[i - 1] && t[j] == r[j - 1];
        } else {
          assert t[j] == r[j - 1];
        }
      }
    }
  }

  /** The sorted keys are in order and are a permutation of the keys. */
  lemma {:induction false} SortKeysCorrect(keys: seq<string>)
    ensures Sorted(SortKeys(keys))
    ensures multiset(SortKeys(keys)) == multiset(keys)
  {
    if keys != [] {
      SortKeysCorrect(keys[1..]);
      InsertSorted(SortKeys(keys[1..]), keys[0]);
      InsertPermutes(SortKeys(keys[1..]), keys[0]);
      assert keys == [keys[0]] + keys[1..];
    }
  }

  // ------------------------------------------------------------ the card

  /** The card's plan keys, its initially active plan and the entries shown
      for it. A card whose bucketing throws is not modelled further. */
  datatype CardView = CardView(planKeys: seq<string>, activePlan: Option<string>, shown: seq<Json>, showTabs: bool)

  function ViewOf(plans: seq<Plan>): (v: CardView)
    ensures multiset(v.planKeys) == multiset(PlanKeys(plans)) && Sorted(v.planKeys)
    ensures v.showTabs <==> |plans| > 1
  {
    var keys := SortKeys(PlanKeys(plans));
    SortKeysCorrect(PlanKeys(plans));
    assert |keys| == |multiset(keys)| == |PlanKeys(plans)|;
    var active := if |keys| == 0 then None else Some(keys[0]);
    var i := if active.None? then |plans| else FindPlan(plans, active.value);
    CardView(keys, active, if i < |plans| then plans[i].prompts else [], |keys| > 1)
  }

  /** A card opens on the smallest plan key and shows exactly the entries of
      that plan; every plan key is a key of the record. */
  lemma ActivePlanShown(entries: seq<Json>)
    requires entries != [] && IdsAreText(entries)
    ensures PlansOf(entries).Ok?
    ensures var v := ViewOf(PlansOf(entries).value);
      v.activePlan.Some?
      && (forall k :: k in v.planKeys ==> Below(v.activePlan.value, k))
      && v.shown == FilterByPlan(entries, v.activePlan.value)
      && v.shown != []
  {
    PlansOfCorrect(entries);
    var plans := PlansOf(entries).value;
    assert KeyOf(entries[0]) in PlanKeys(plans);
    ViewOfActive(plans);
  }

  /** A card with a plan opens on its least key, which is one of the plans,
      and shows that plan's entries. */
  lemma ViewOfActive(plans: seq<Plan>)
    requires plans != []
    ensures var v := ViewOf(plans);
      v.activePlan.Some?
      && (forall k :: k in v.planKeys ==> Below(v.activePlan.value, k))
      && FindPlan(plans, v.activePlan.value) < |plans|
      && v.shown == plans[FindPlan(plans, v.activePlan.value)].prompts
  {
    var keys := SortKeys(PlanKeys(plans));
    SortKeysCorrect(PlanKeys(plans));
    assert |keys| == |multiset(keys)| == |PlanKeys(plans)|;
    assert keys[0] in multiset(PlanKeys(plans));
    assert FindPlan(plans, keys[0]) < |plans| by {
      var m :| 0 <= m < |PlanKeys(plans)| && PlanKeys(plans)[m] == keys[0];
    }
    SortedHeadLeast(keys);
  }

  lemma SortedHeadLeast(keys: seq<string>)
    requires Sorted(keys)
    ensures forall k :: k in keys ==> Below(keys[0], k)
  {
    forall k | k in keys ensures Below(keys[0], k) {
      var m :| 0 <= m < |keys| && keys[m] == k;
      if m == 0 {
        BelowTotal(k, k);
      }
    }
  }
}
