/** Vocabulary shared by the studio's controllers: the studio modes, the
    normalized display model, the outcome of picking a file, and the
    flattening of an image document's `shots[].images[]` into one ordered
    list of entries, which both normalisers perform. */
module Studio {

  import opened Js

  datatype Mode = ImageMode | VideoMode | StoryMode | AudioMode

  /** `NormalizedData`: the scene header and the ordered prompt entries the
      viewer shows. */
  datatype NormalizedData = NormalizedData(sceneInfo: Value, prompts: seq<Json>, version: Value, timestamp: Value)

  /** What reading the picked file produced: a read error, text that
      `JSON.parse` rejected with the given message, or a parsed document. */
  datatype ReadOutcome = ReadError | SyntaxError(message: string) | Parsed(doc: Json)

  /** The file input's change event: no file picked, or a file with its name
      and the outcome of reading and parsing it. */
  datatype Upload = NoFile | Picked(name: string, read: ReadOutcome)

  /** `entry.shot_id` for an entry that is neither `null` nor `undefined`. */
  function ShotIdOf(entry: Json): Value {
    Field(entry, "shot_id")
  }

  /** Whether every entry can have its properties read. */
  predicate NoNullEntries(entries: seq<Json>) {
    forall i :: 0 <= i < |entries| ==> entries[i] != JNull
  }

  // ------------------------------------------------------------ flattening

  /** `shot.images.map(...)` succeeds: the shot is not `null`, its `images`
      is an array, and no image is `null` (reading a property of a `null`
      image throws). */
  predicate ShotOk(shot: Json) {
    shot != JNull && IsArray(Field(shot, "images"))
    && NoNullEntries(Field(shot, "images").value.items)
  }

  function ImagesOf(shot: Json): seq<Json>
    requires ShotOk(shot)
  {
    Field(shot, "images").value.items
  }

  /** The number of entries a shot contributes. */
  function ImageCount(shot: Json): nat {
    if ShotOk(shot) then |ImagesOf(shot)| else 0
  }

  /** The number of entries the shots before index `i` contribute. */
  function Offset(shots: seq<Json>, i: nat): nat
    requires i <= |shots|
  {
    if i == 0 then 0 else Offset(shots, i - 1) + ImageCount(shots[i - 1])
  }

  /** The entries of one shot, each made by `build(shot, image)`. */
  function MapImages(shot: Json, images: seq<Json>, build: (Json, Json) -> Json): (es: seq<Json>)
    ensures |es| == |images|
    ensures forall j :: 0 <= j < |images| ==> es[j] == build(shot, images[j])
  {
    seq(|images|, j requires 0 <= j < |images| => build(shot, images[j]))
  }

  /** `shots.flatMap(shot => shot.images.map(image => build(shot, image)))`. */
  function FlattenShots(shots: seq<Json>, build: (Json, Json) -> Json): (r: Result<seq<Json>>)
    ensures r.Throw? ==> r.message == TypeErrorMessage
  {
    if |shots| == 0 then Ok([])
    else if !ShotOk(shots[0]) then Throw(TypeErrorMessage)
    else
      match FlattenShots(shots[1..], build)
      case Throw(m) => Throw(m)
      case Ok(rest) => Ok(MapImages(shots[0], ImagesOf(shots[0]), build) + rest)
  }

  /** Flattening succeeds exactly when every shot is well formed, and then
      yields one entry per image. */
  lemma FlattenShotsOk(shots: seq<Json>, build: (Json, Json) -> Json)
    ensures FlattenShots(shots, build).Ok? <==> forall i :: 0 <= i < |shots| ==> ShotOk(shots[i])
    ensures FlattenShots(shots, build).Ok? ==> |FlattenShots(shots, build).value| == Offset(shots, |shots|)
  {
    FlattenShotsOkIff(shots, build);
    if FlattenShots(shots, build).Ok? {
      FlattenShotsLength(shots, build);
    }
  }

  lemma {:induction false} FlattenShotsOkIff(shots: seq<Json>, build: (Json, Json) -> Json)
    ensures FlattenShots(shots, build).Ok? <==> forall i :: 0 <= i < |shots| ==> ShotOk(shots[i])
  {
    if shots != [] {
      FlattenShotsOkIff(shots[1..], build);
      if ShotOk(shots[0]) {
        forall i | 1 <= i < |shots| ensures ShotOk(shots[i]) <==> ShotOk(shots[1..][i - 1]) {
        }
      }
    }
  }

  lemma {:induction false} FlattenShotsLength(shots: seq<Json>, build: (Json, Json) -> Json)
    requires FlattenShots(shots, build).Ok?
    ensures |FlattenShots(shots, build).value| == Offset(shots, |shots|)
  {
    if shots != [] {
      FlattenShotsLength(shots[1..], build);
      OffsetCons(shots, |shots|);
    }
  }

  /** Dropping the first shot shifts every offset down by its count. */
  lemma {:induction false} OffsetCons(shots: seq<Json>, i: nat)
    requires 1 <= i <= |shots|
    ensures Offset(shots, i) == ImageCount(shots[0]) + Offset(shots[1..], i - 1)
  {
    if i > 1 {
      OffsetCons(shots, i - 1);
    }
  }

  /** Entry order: image `j` of shot `i` sits at `Offset(shots, i) + j`, so the
      entries are the images of shot 0, then those of shot 1, and so on, each
      built together with its parent shot. */
  lemma {:induction false} FlattenShotsAt(shots: seq<Json>, build: (Json, Json) -> Json, i: nat, j: nat)
    requires FlattenShots(shots, build).Ok?
    requires i < |shots| && ShotOk(shots[i]) && j < |ImagesOf(shots[i])|
    ensures Offset(shots, i) + j < |FlattenShots(shots, build).value|
    ensures FlattenShots(shots, build).value[Offset(shots, i) + j] == build(shots[i], ImagesOf(shots[i])[j])
  {
    var rest := FlattenShots(shots[1..], build).value;
    var head := MapImages(shots[0], ImagesOf(shots[0]), build);
    assert FlattenShots(shots, build).value == head + rest;
    if i == 0 {
    } else {
      assert shots[1..][i - 1] == shots[i];
      FlattenShotsAt(shots[1..], build, i - 1, j);
      OffsetCons(shots, i);
    }
  }

  /** Flattening distributes over concatenation of shot lists. */
  lemma {:induction false} FlattenShotsAppend(a: seq<Json>, b: seq<Json>, build: (Json, Json) -> Json)
    requires FlattenShots(a, build).Ok? && FlattenShots(b, build).Ok?
    ensures FlattenShots(a + b, build) == Ok(FlattenShots(a, build).value + FlattenShots(b, build).value)
  {
    if |a| == 0 {
      assert a + b == b;
      assert FlattenShots(a, build).value == [];
      assert [] + FlattenShots(b, build).value == FlattenShots(b, build).value;
    } else {
      var ab := a + b;
      assert ab[0] == a[0] && ab[1..] == a[1..] + b;
      var head := MapImages(a[0], ImagesOf(a[0]), build);
      var tailA := FlattenShots(a[1..], build).value;
      var fb := FlattenShots(b, build).value;
      assert FlattenShots(a, build).value == head + tailA;
      FlattenShotsAppend(a[1..], b, build);
      assert FlattenShots(ab[1..], build) == Ok(tailA + fb);
      assert FlattenShots(ab, build) == Ok(head + (tailA + fb));
      AppendAssoc(head, tailA, fb);
    }
  }

  lemma AppendAssoc<T>(x: seq<T>, y: seq<T>, z: seq<T>)
    ensures x + (y + z) == (x + y) + z
  {
  }
}
