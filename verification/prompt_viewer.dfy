/** The prompt viewer's grouping of the normalized entries into shot cards:
    one card per distinct `shot_id`, in order of first appearance, holding
    every entry of that shot in input order and the description of the
    shot's first entry. */
module PromptViewer {

  import opened Js
  import opened Studio
  import Sidebar

  /** `ShotGroup`: a card's shot id, description and entries. */
  datatype ShotGroup = ShotGroup(shotId: Value, shotDescription: Value, prompts: seq<Json>)

  function GroupIds(groups: seq<ShotGroup>): (ids: seq<Value>)
    ensures |ids| == |groups|
    ensures forall i :: 0 <= i < |groups| ==> ids[i] == groups[i].shotId
  {
    seq(|groups|, i requires 0 <= i < |groups| => groups[i].shotId)
  }

  /** The index `acc.find` stops at: the first group with the id, or the
      number of groups when there is none. */
  function FindGroup(groups: seq<ShotGroup>, id: Value): (i: nat)
    ensures i <= |groups|
    ensures i < |groups| ==> groups[i].shotId == id
    ensures forall j :: 0 <= j < i ==> groups[j].shotId != id
  {
    FindGroupFrom(groups, id, 0)
  }

  /** The search from index `k` on, every earlier group being another shot's. */
  function FindGroupFrom(groups: seq<ShotGroup>, id: Value, k: nat): (i: nat)
    requires k <= |groups|
    requires forall j :: 0 <= j < k ==> groups[j].shotId != id
    ensures k <= i <= |groups|
    ensures i < |groups| ==> groups[i].shotId == id
    ensures forall j :: 0 <= j < i ==> groups[j].shotId != id
    decreases |groups| - k
  {
    if k == |groups| then k
    else if groups[k].shotId == id then k
    else FindGroupFrom(groups, id, k + 1)
  }

  /** One step of the reduce: push the entry onto its shot's group, opening
      a group (with the entry's description) when the shot has none. */
  function AddToGroup(groups: seq<ShotGroup>, e: Json): seq<ShotGroup> {
    var id := ShotIdOf(e);
    var i := FindGroup(groups, id);
    if i == |groups| then groups + [ShotGroup(id, Field(e, "shot_description"), [e])]
    else groups[i := groups[i].(prompts := groups[i].prompts + [e])]
  }

  /** The value of `groupedPrompts` when the reduce does not throw, as a
      left fold of `AddToGroup` (see `GroupedThrows`). */
  function Grouped(entries: seq<Json>): seq<ShotGroup>
    decreases |entries|
  {
    if |entries| == 0 then []
    else
      var n := |entries| - 1;
      AddToGroup(Grouped(entries[..n]), entries[n])
  }

  lemma GroupedStep(entries: seq<Json>, k: nat)
    requires k < |entries|
    ensures Grouped(entries[..k + 1]) == AddToGroup(Grouped(entries[..k]), entries[k])
  {
    assert entries[..k + 1][..k] == entries[..k];
  }

  /** `acc.find(g => g.shot_id === prompt.shot_id)`, as a search loop
      returning the index of the group found, or the number of groups. Each
      test reads the entry's `shot_id`, which throws for a `null` entry. */
  method FindGroupIndex(acc: seq<ShotGroup>, prompt: Json) returns (r: Result<nat>)
    ensures r.Throw? <==> |acc| > 0 && prompt == JNull
    ensures r.Ok? ==> r.value == FindGroup(acc, ShotIdOf(prompt))
  {
    var i := 0;
    while i < |acc|
      invariant i <= |acc|
      invariant forall j :: 0 <= j < i ==> acc[j].shotId != ShotIdOf(prompt)
      invariant FindGroup(acc, ShotIdOf(prompt)) >= i
      invariant i > 0 ==> prompt != JNull
      decreases |acc| - i
    {
      if prompt == JNull {
        return Throw(TypeErrorMessage);
      }
      if acc[i].shotId == ShotIdOf(prompt) {
        return Ok(i);
      }
      i := i + 1;
    }
    return Ok(i);
  }

  /** One step of the reduce with its throws: the search reads the entry's
      `shot_id` when there is a group, and opening a group reads it when
      there is none, so a `null` entry throws either way. */
  function AddToGroupOf(groups: seq<ShotGroup>, e: Json): Result<seq<ShotGroup>> {
    if e == JNull then Throw(TypeErrorMessage) else Ok(AddToGroup(groups, e))
  }

  /** `groupedPrompts` with its throws. */
  function GroupedOf(entries: seq<Json>): Result<seq<ShotGroup>>
    decreases |entries|
  {
    if |entries| == 0 then Ok([])
    else
      var n := |entries| - 1;
      match GroupedOf(entries[..n])
      case Throw(m) => Throw(m)
      case Ok(groups) => AddToGroupOf(groups, entries[n])
  }

  lemma GroupedOfStep(entries: seq<Json>, k: nat)
    requires k < |entries|
    ensures GroupedOf(entries[..k + 1]) ==
      match GroupedOf(entries[..k])
      case Throw(m) => Throw(m)
      case Ok(groups) => AddToGroupOf(groups, entries[k])
  {
    assert entries[..k + 1][..k] == entries[..k];
  }

  /** Once the reduce has thrown, it has thrown for every longer prefix. */
  lemma {:induction false} GroupedThrowExtends(entries: seq<Json>, k: nat)
    requires k <= |entries| && GroupedOf(entries[..k]).Throw?
    ensures GroupedOf(entries) == GroupedOf(entries[..k])
    decreases |entries| - k
  {
    if k < |entries| {
      GroupedOfStep(entries, k);
      GroupedThrowExtends(entries, k + 1);
    } else {
      assert entries[..k] == entries;
    }
  }

  /** The reduce throws exactly when some entry is `null`, and otherwise
      computes the fold `Grouped`. */
  lemma {:induction false} GroupedThrows(entries: seq<Json>)
    ensures GroupedOf(entries).Throw? <==> !NoNullEntries(entries)
    ensures GroupedOf(entries).Ok? ==> GroupedOf(entries).value == Grouped(entries)
  {
    if |entries| > 0 {
      var n := |entries| - 1;
      var init := entries[..n];
      GroupedThrows(init);
      if GroupedOf(init).Throw? {
        var i :| 0 <= i < |init| && init[i] == JNull;
        assert entries[i] == JNull;
      } else if entries[n] != JNull {
        assert NoNullEntries(entries) by {
          forall i | 0 <= i < |entries| ensures entries[i] != JNull {
            if i < n { assert entries[i] == init[i]; }
          }
        }
      }
    }
  }

  /** The reduce itself. */
  method GroupByShot(prompts: seq<Json>) returns (r: Result<seq<ShotGroup>>)
    ensures r == GroupedOf(prompts)
  {
    var acc: seq<ShotGroup> := [];
    var k := 0;
    while k < |prompts|
      invariant 0 <= k <= |prompts|
      invariant GroupedOf(prompts[..k]) == Ok(acc)
    {
      var prompt := prompts[k];
      var found := FindGroupIndex(acc, prompt);
      GroupedOfStep(prompts, k);
      if found.Throw? {
        assert GroupedOf(prompts[..k + 1]) == Throw(TypeErrorMessage);
        GroupedThrowExtends(prompts, k + 1);
        return Throw(TypeErrorMessage);
      }
      var i := found.value;
      ghost var before := acc;
      if i == |acc| {
        if prompt == JNull {
          // opening a group reads `prompt.shot_id`
          assert GroupedOf(prompts[..k + 1]) == Throw(TypeErrorMessage);
          GroupedThrowExtends(prompts, k + 1);
          return Throw(TypeErrorMessage);
        }
        acc := acc + [ShotGroup(ShotIdOf(prompt), Field(prompt, "shot_description"), [])];
        assert acc[i].prompts + [prompt] == [prompt];
      }
      acc := acc[i := acc[i].(prompts := acc[i].prompts + [prompt])];
      assert acc == AddToGroup(before, prompt);
      k := k + 1;
    }
    assert prompts[..|prompts|] == prompts;
    r := Ok(acc);
  }

  /** Reference definition: the entries carrying `shot_id` equal to `id`. */
  function FilterById(entries: seq<Json>, id: Value): seq<Json>
    decreases |entries|
  {
    if |entries| == 0 then []
    else
      var n := |entries| - 1;
      FilterById(entries[..n], id) + (if ShotIdOf(entries[n]) == id then [entries[n]] else [])
  }

  lemma {:induction false} FilterAbsent(entries: seq<Json>, id: Value)
    requires id !in Sidebar.ShotIds(entries)
    ensures FilterById(entries, id) == []
  {
    if entries != [] {
      var n := |entries| - 1;
      assert Sidebar.ShotIds(entries)[n] == ShotIdOf(entries[n]);
      assert Sidebar.ShotIds(entries[..n]) == Sidebar.ShotIds(entries)[..n];
      FilterAbsent(entries[..n], id);
    }
  }

  /** The cards come in the same order, and with the same shot ids, as the
      sidebar's links. */
  lemma {:induction false} GroupsMatchLinks(entries: seq<Json>)
    ensures GroupIds(Grouped(entries)) == Sidebar.ShotIds(Sidebar.UniqueShots(entries))
  {
    if entries != [] {
      var n := |entries| - 1;
      GroupsMatchLinks(entries[..n]);
      GroupIdsStep(Grouped(entries[..n]), entries[n]);
      Sidebar.ShotIdsAppend(Sidebar.UniqueShots(entries[..n]), entries[n]);
    }
  }

  /** A step opens a card exactly for a shot id no card has yet. */
  lemma GroupIdsStep(g: seq<ShotGroup>, e: Json)
    ensures GroupIds(AddToGroup(g, e)) ==
      if ShotIdOf(e) in GroupIds(g) then GroupIds(g) else GroupIds(g) + [ShotIdOf(e)]
  {
    var i := FindGroup(g, ShotIdOf(e));
    if i < |g| {
      assert GroupIds(g)[i] == ShotIdOf(e);
    }
  }

  predicate Distinct(ids: seq<Value>) {
    forall i, j :: 0 <= i < j < |ids| ==> ids[i] != ids[j]
  }

  /** No two cards share a shot id, and every entry's shot has a card. */
  lemma GroupIdsDistinct(entries: seq<Json>)
    ensures Distinct(GroupIds(Grouped(entries)))
    ensures forall id :: id in GroupIds(Grouped(entries)) <==> id in Sidebar.ShotIds(entries)
  {
    GroupsMatchLinks(entries);
    Sidebar.UniqueShotsDistinct(entries);
    Sidebar.UniqueShotsAreFirstOccurrences(entries);
    var u := Sidebar.UniqueShots(entries);
    assert forall i :: 0 <= i < |u| ==> Sidebar.ShotIds(u)[i] == ShotIdOf(u[i]);
  }

  /** What a card holds. */
  predicate CardsHold(entries: seq<Json>, groups: seq<ShotGroup>) {
    forall i :: 0 <= i < |groups| ==>
      groups[i].prompts == FilterById(entries, groups[i].shotId)
      && |groups[i].prompts| > 0
      && groups[i].shotDescription == Field(groups[i].prompts[0], "shot_description")
  }

  /** Each card holds exactly the entries of its shot, in input order, never
      none of them, and shows the description of the first. */
  lemma {:induction false} GroupContents(entries: seq<Json>)
    ensures CardsHold(entries, Grouped(entries))
  {
    if entries != [] {
      var n := |entries| - 1;
      var init := entries[..n];
      var e := entries[n];
      assert entries == init + [e];
      GroupContents(init);
      GroupIdsDistinct(init);
      var g := Grouped(init);
      var i := FindGroup(g, ShotIdOf(e));
      if i == |g| {
        assert ShotIdOf(e) !in GroupIds(g);
        ContentsNewCard(init, g, e);
      } else {
        forall j | 0 <= j < |g| && j != i ensures g[j].shotId != g[i].shotId {
          assert GroupIds(g)[j] != GroupIds(g)[i];
        }
        ContentsExistingCard(init, g, e, i);
      }
    }
  }

  lemma FilterByIdSnoc(init: seq<Json>, e: Json, id: Value)
    ensures FilterById(init + [e], id) == FilterById(init, id) + (if ShotIdOf(e) == id then [e] else [])
  {
    assert (init + [e])[..|init|] == init;
  }

  /** The step that opens a card: the new card holds just the new entry. */
  lemma ContentsNewCard(init: seq<Json>, g: seq<ShotGroup>, e: Json)
    requires CardsHold(init, g)
    requires ShotIdOf(e) !in GroupIds(g) && ShotIdOf(e) !in Sidebar.ShotIds(init)
    ensures CardsHold(init + [e], AddToGroup(g, e))
  {
    var id := ShotIdOf(e);
    FilterAbsent(init, id);
    var g2 := AddToGroup(g, e);
    assert g2 == g + [ShotGroup(id, Field(e, "shot_description"), [e])];
    forall i | 0 <= i < |g2|
      ensures g2[i].prompts == FilterById(init + [e], g2[i].shotId)
    {
      FilterByIdSnoc(init, e, g2[i].shotId);
      if i < |g| {
        assert GroupIds(g)[i] == g[i].shotId;
      }
    }
  }

  /** The step that extends a card: only the card of the entry's shot grows. */
  lemma ContentsExistingCard(init: seq<Json>, g: seq<ShotGroup>, e: Json, i0: nat)
    requires CardsHold(init, g)
    requires i0 < |g| && g[i0].shotId == ShotIdOf(e)
    requires forall i :: 0 <= i < |g| && i != i0 ==> g[i].shotId != g[i0].shotId
    ensures CardsHold(init + [e], g[i0 := g[i0].(prompts := g[i0].prompts + [e])])
  {
    var g2 := g[i0 := g[i0].(prompts := g[i0].prompts + [e])];
    forall i | 0 <= i < |g2|
      ensures g2[i].prompts == FilterById(init + [e], g2[i].shotId)
    {
      FilterByIdSnoc(init, e, g2[i].shotId);
    }
  }

  /** Sum of the card sizes. */
  function Total(groups: seq<ShotGroup>): nat
    decreases |groups|
  {
    if |groups| == 0 then 0 else Total(groups[..|groups| - 1]) + |groups[|groups| - 1].prompts|
  }

  lemma {:induction false} TotalUpdate(groups: seq<ShotGroup>, i: nat, g: ShotGroup)
    requires i < |groups|
    ensures Total(groups[i := g]) + |groups[i].prompts| == Total(groups) + |g.prompts|
    decreases |groups|
  {
    var n := |groups| - 1;
    var h := groups[i := g];
    assert h[..n] == if i == n then groups[..n] else groups[..n][i := g];
    if i < n {
      TotalUpdate(groups[..n], i, g);
    }
  }

  /** No entry is lost or shown twice: the cards hold as many entries as
      the input has. */
  lemma {:induction false} GroupedTotal(entries: seq<Json>)
    ensures Total(Grouped(entries)) == |entries|
  {
    if entries != [] {
      var n := |entries| - 1;
      var g := Grouped(entries[..n]);
      var e := entries[n];
      GroupedTotal(entries[..n]);
      var i := FindGroup(g, ShotIdOf(e));
      if i == |g| {
        var g2 := g + [ShotGroup(ShotIdOf(e), Field(e, "shot_description"), [e])];
        assert g2[..|g2| - 1] == g;
      } else {
        TotalUpdate(g, i, g[i].(prompts := g[i].prompts + [e]));
      }
    }
  }
}
