/** The sidebar's shot navigation: one link per distinct `shot_id`, taken
    from the first entry that carries it, labelled with the image title or,
    failing that, the image id. */
module Sidebar {

  import opened Js
  import opened Studio

  /** The `shot_id` of every entry, in order. */
  function ShotIds(entries: seq<Json>): (ids: seq<Value>)
    ensures |ids| == |entries|
    ensures forall i :: 0 <= i < |entries| ==> ids[i] == ShotIdOf(entries[i])
  {
    seq(|entries|, i requires 0 <= i < |entries| => ShotIdOf(entries[i]))
  }

  /** Whether entry `k` is the first one carrying its `shot_id`. */
  predicate IsFirst(entries: seq<Json>, k: nat)
    requires k < |entries|
  {
    forall m :: 0 <= m < k ==> ShotIdOf(entries[m]) != ShotIdOf(entries[k])
  }

  /** Reference definition: the entries that are the first with their
      `shot_id`, in the order they appear. */
  function FirstOccurrences(entries: seq<Json>): seq<Json>
    decreases |entries|
  {
    if |entries| == 0 then []
    else
      var n := |entries| - 1;
      FirstOccurrences(entries[..n]) + (if IsFirst(entries, n) then [entries[n]] else [])
  }

  /** The value of the `uniqueShots` reduce when it does not throw, as a
      left fold: an entry is kept unless an entry already kept has the same
      `shot_id` (see `UniqueShotsThrows`). */
  function UniqueShots(entries: seq<Json>): seq<Json>
    decreases |entries|
  {
    if |entries| == 0 then []
    else
      var n := |entries| - 1;
      var acc := UniqueShots(entries[..n]);
      if ShotIdOf(entries[n]) in ShotIds(acc) then acc else acc + [entries[n]]
  }

  /** `acc.some(item => item.shot_id === current.shot_id)` from item `k`
      on: each test reads the item's `shot_id` and then the current entry's,
      and reading a property of `null` throws. */
  function SomeFrom(acc: seq<Json>, current: Json, k: nat): Result<bool>
    requires k <= |acc|
    decreases |acc| - k
  {
    if k == |acc| then Ok(false)
    else if acc[k] == JNull || current == JNull then Throw(TypeErrorMessage)
    else if ShotIdOf(acc[k]) == ShotIdOf(current) then Ok(true)
    else SomeFrom(acc, current, k + 1)
  }

  function SomeShotId(acc: seq<Json>, current: Json): Result<bool> {
    SomeFrom(acc, current, 0)
  }

  /** The search answers `false` on no items without reading anything; it
      throws at once when the first item or the current entry is `null`;
      and without `null`s it tells whether a kept entry has the id. */
  lemma SomeShotIdOf(acc: seq<Json>, current: Json)
    ensures |acc| == 0 ==> SomeShotId(acc, current) == Ok(false)
    ensures |acc| > 0 && (acc[0] == JNull || current == JNull) ==> SomeShotId(acc, current) == Throw(TypeErrorMessage)
    ensures NoNullEntries(acc) && current != JNull ==>
      SomeShotId(acc, current) == Ok(ShotIdOf(current) in ShotIds(acc))
  {
    if NoNullEntries(acc) && current != JNull {
      SomeFromFinds(acc, current, 0);
    }
  }

  lemma {:induction false} SomeFromFinds(acc: seq<Json>, current: Json, k: nat)
    requires k <= |acc| && NoNullEntries(acc) && current != JNull
    requires forall m :: 0 <= m < k ==> ShotIdOf(acc[m]) != ShotIdOf(current)
    ensures SomeFrom(acc, current, k) == Ok(ShotIdOf(current) in ShotIds(acc))
    decreases |acc| - k
  {
    var ids := ShotIds(acc);
    if k == |acc| {
      assert forall m :: 0 <= m < |acc| ==> ids[m] != ShotIdOf(current);
    } else if ShotIdOf(acc[k]) == ShotIdOf(current) {
      assert ids[k] == ShotIdOf(current);
    } else {
      SomeFromFinds(acc, current, k + 1);
    }
  }

  /** The search loop of `acc.some(...)`. */
  method SomeHasShotId(acc: seq<Json>, current: Json) returns (r: Result<bool>)
    ensures r == SomeShotId(acc, current)
  {
    var j := 0;
    while j < |acc|
      invariant 0 <= j <= |acc|
      invariant SomeFrom(acc, current, j) == SomeShotId(acc, current)
      decreases |acc| - j
    {
      if acc[j] == JNull || current == JNull {
        return Throw(TypeErrorMessage);
      }
      if ShotIdOf(acc[j]) == ShotIdOf(current) {
        return Ok(true);
      }
      j := j + 1;
    }
    return Ok(false);
  }

  /** The `uniqueShots` reduce with its throws: a step throws when its
      search does, and otherwise pushes the entry unless it was seen. */
  function UniqueShotsOf(entries: seq<Json>): Result<seq<Json>>
    decreases |entries|
  {
    if |entries| == 0 then Ok([])
    else
      var n := |entries| - 1;
      match UniqueShotsOf(entries[..n])
      case Throw(m) => Throw(m)
      case Ok(acc) =>
        match SomeShotId(acc, entries[n])
        case Throw(m) => Throw(m)
        case Ok(seen) => Ok(if seen then acc else acc + [entries[n]])
  }

  /** The reduce itself: an entry is pushed when no kept entry has its id. */
  method CollectUniqueShots(prompts: seq<Json>) returns (r: Result<seq<Json>>)
    ensures r == UniqueShotsOf(prompts)
  {
    var acc: seq<Json> := [];
    var k := 0;
    while k < |prompts|
      invariant 0 <= k <= |prompts|
      invariant UniqueShotsOf(prompts[..k]) == Ok(acc)
    {
      var current := prompts[k];
      var seen := SomeHasShotId(acc, current);
      UniqueShotsOfStep(prompts, k);
      if seen.Throw? {
        UniqueShotsThrowExtends(prompts, k + 1);
        return Throw(seen.message);
      }
      if !seen.value {
        acc := acc + [current];
      }
      k := k + 1;
    }
    assert prompts[..|prompts|] == prompts;
    r := Ok(acc);
  }

  lemma UniqueShotsOfStep(entries: seq<Json>, k: nat)
    requires k < |entries|
    ensures UniqueShotsOf(entries[..k + 1]) ==
      match UniqueShotsOf(entries[..k])
      case Throw(m) => Throw(m)
      case Ok(acc) =>
        match SomeShotId(acc, entries[k])
        case Throw(m) => Throw(m)
        case Ok(seen) => Ok(if seen then acc else acc + [entries[k]])
  {
    assert entries[..k + 1][..k] == entries[..k];
  }

  /** Once the reduce has thrown, it has thrown for every longer prefix. */
  lemma {:induction false} UniqueShotsThrowExtends(entries: seq<Json>, k: nat)
    requires k <= |entries| && UniqueShotsOf(entries[..k]).Throw?
    ensures UniqueShotsOf(entries) == UniqueShotsOf(entries[..k])
    decreases |entries| - k
  {
    if k < |entries| {
      UniqueShotsOfStep(entries, k);
      UniqueShotsThrowExtends(entries, k + 1);
    } else {
      assert entries[..k] == entries;
    }
  }

  /** The reduce throws exactly for two or more entries of which one is
      `null` (the first step searches no items, so a lone `null` is kept),
      and otherwise it keeps the first entry of each shot id. */
  lemma {:induction false} UniqueShotsThrows(entries: seq<Json>)
    ensures UniqueShotsOf(entries).Throw? <==> |entries| >= 2 && !NoNullEntries(entries)
    ensures UniqueShotsOf(entries).Ok? ==> UniqueShotsOf(entries).value == UniqueShots(entries)
  {
    if |entries| > 0 {
      var n := |entries| - 1;
      var init := entries[..n];
      var e := entries[n];
      assert entries == init + [e];
      UniqueShotsThrows(init);
      if UniqueShotsOf(init).Ok? {
        var acc := UniqueShots(init);
        SomeShotIdOf(acc, e);
        if n == 0 {
          assert acc == [];
        } else {
          UniqueShotsHead(init);
          UniqueShotsFromInput(init);
          if init[0] == JNull || e == JNull {
            assert !NoNullEntries(entries) by {
              if init[0] == JNull { assert entries[0] == JNull; } else { assert entries[n] == JNull; }
            }
          } else {
            assert NoNullEntries(init) by {
              if n == 1 {
                assert forall i :: 0 <= i < |init| ==> init[i] == init[0];
              }
            }
            assert NoNullEntries(acc) by {
              forall i | 0 <= i < |acc| ensures acc[i] != JNull {
                assert acc[i] in init;
              }
            }
            assert NoNullEntries(entries) by {
              forall i | 0 <= i < |entries| ensures entries[i] != JNull {
                if i < n { assert entries[i] == init[i]; }
              }
            }
          }
        }
      } else {
        assert !NoNullEntries(entries) by {
          var i :| 0 <= i < |init| && init[i] == JNull;
          assert entries[i] == JNull;
        }
      }
    }
  }

  /** The first entry is always kept, first. */
  lemma UniqueShotsHead(entries: seq<Json>)
    requires |entries| > 0
    ensures |UniqueShots(entries)| > 0 && UniqueShots(entries)[0] == entries[0]
  {
    UniqueShotsAreFirstOccurrences(entries);
    FirstOccurrencesHead(entries);
  }

  lemma {:induction false} FirstOccurrencesHead(entries: seq<Json>)
    requires |entries| > 0
    ensures |FirstOccurrences(entries)| > 0 && FirstOccurrences(entries)[0] == entries[0]
    decreases |entries|
  {
    var n := |entries| - 1;
    if n > 0 {
      assert entries[..n][0] == entries[0];
      FirstOccurrencesHead(entries[..n]);
    } else {
      assert IsFirst(entries, 0);
    }
  }

  /** One step of the fold over a prefix. */
  lemma UniqueShotsStep(entries: seq<Json>, k: nat)
    requires k < |entries|
    ensures var acc := UniqueShots(entries[..k]);
      UniqueShots(entries[..k + 1]) == if ShotIdOf(entries[k]) in ShotIds(acc) then acc else acc + [entries[k]]
  {
    assert entries[..k + 1][..k] == entries[..k];
  }

  lemma ShotIdsAppend(a: seq<Json>, e: Json)
    ensures ShotIds(a + [e]) == ShotIds(a) + [ShotIdOf(e)]
  {
  }

  /** The kept entries are exactly the first occurrences, and they cover
      every `shot_id` of the input and no other. */
  lemma {:induction false} UniqueShotsAreFirstOccurrences(entries: seq<Json>)
    ensures UniqueShots(entries) == FirstOccurrences(entries)
    ensures forall id :: id in ShotIds(UniqueShots(entries)) <==> id in ShotIds(entries)
  {
    if entries != [] {
      var n := |entries| - 1;
      var init := entries[..n];
      var e := entries[n];
      var acc := UniqueShots(init);
      UniqueShotsAreFirstOccurrences(init);
      assert entries == init + [e];
      ShotIdsAppend(init, e);
      ShotIdsAppend(acc, e);
      assert IsFirst(entries, n) <==> ShotIdOf(e) !in ShotIds(init) by {
        if ShotIdOf(e) in ShotIds(init) {
          var m :| 0 <= m < n && ShotIds(init)[m] == ShotIdOf(e);
          assert ShotIdOf(entries[m]) == ShotIdOf(entries[n]);
        }
      }
    }
  }

  predicate DistinctShotIds(u: seq<Json>) {
    forall i, j :: 0 <= i < j < |u| ==> ShotIdOf(u[i]) != ShotIdOf(u[j])
  }

  /** No two links share a `shot_id`, and every `shot_id` of the input has
      a link. */
  lemma {:induction false} UniqueShotsDistinct(entries: seq<Json>)
    ensures DistinctShotIds(UniqueShots(entries))
    ensures forall id :: id in ShotIds(entries) ==> id in ShotIds(UniqueShots(entries))
  {
    UniqueShotsAreFirstOccurrences(entries);
    if entries != [] {
      var n := |entries| - 1;
      var acc := UniqueShots(entries[..n]);
      UniqueShotsDistinct(entries[..n]);
      if ShotIdOf(entries[n]) !in ShotIds(acc) {
        var u := acc + [entries[n]];
        assert UniqueShots(entries) == u;
        forall i, j | 0 <= i < j < |u| ensures ShotIdOf(u[i]) != ShotIdOf(u[j]) {
          assert u[i] == acc[i];
          if j == |acc| {
            assert ShotIds(acc)[i] == ShotIdOf(u[i]);
          } else {
            assert u[j] == acc[j];
          }
        }
      }
    }
  }

  /** Every link is an entry of the input, and there are no more links than
      entries. */
  lemma {:induction false} UniqueShotsFromInput(entries: seq<Json>)
    ensures |UniqueShots(entries)| <= |entries|
    ensures forall x :: x in UniqueShots(entries) ==> x in entries
  {
    if entries != [] {
      var n := |entries| - 1;
      UniqueShotsFromInput(entries[..n]);
      assert entries == entries[..n] + [entries[n]];
    }
  }

  /** The link text `image_title || image_id`. */
  function LinkLabel(entry: Json): (text: Value)
    ensures Truthy(Field(entry, "image_title")) ==> text == Field(entry, "image_title")
    ensures !Truthy(Field(entry, "image_title")) ==> text == Field(entry, "image_id")
  {
    Or(Field(entry, "image_title"), Field(entry, "image_id"))
  }

  /** A link is highlighted when its `shot_id` is the active one. */
  predicate IsActiveLink(activeShotId: Value, entry: Json) {
    activeShotId == ShotIdOf(entry)
  }

  /** At most one link is highlighted. */
  lemma AtMostOneActive(entries: seq<Json>, activeShotId: Value, i: nat, j: nat)
    requires var u := UniqueShots(entries); i < |u| && j < |u|
    requires IsActiveLink(activeShotId, UniqueShots(entries)[i]) && IsActiveLink(activeShotId, UniqueShots(entries)[j])
    ensures i == j
  {
    UniqueShotsDistinct(entries);
  }
}
