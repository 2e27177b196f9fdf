/** The file service's two pure helpers: whether a picked file counts as a
    JSON file, and the safe, time-stamped name a download is saved under.
    The clock is a parameter: the ISO-8601 text of the current time. */
module FileService {

  import opened Text

  /** `isJsonFile`: the JSON media type, or a name ending in ".json". */
  predicate IsJsonFile(mediaType: string, name: string) {
    mediaType == "application/json" || EndsWith(name, ".json")
  }

  /** A character `/[^a-z0-9_-]/gi` leaves alone. */
  predicate SafeChar(c: char) {
    'a' <= c <= 'z' || 'A' <= c <= 'Z' || '0' <= c <= '9' || c == '_' || c == '-'
  }

  /** `baseName.replace(/[^a-z0-9_-]/gi, '_')`. */
  function SafeName(baseName: string): (safe: string)
    ensures |safe| == |baseName|
    ensures forall i :: 0 <= i < |baseName| ==> safe[i] == if SafeChar(baseName[i]) then baseName[i] else '_'
  {
    seq(|baseName|, i requires 0 <= i < |baseName| => if SafeChar(baseName[i]) then baseName[i] else '_')
  }

  /** A safe name holds only safe characters, keeps every safe character of
      the base name where it stands, and making it safe again changes
      nothing. */
  lemma SafeNameProperties(baseName: string)
    ensures forall i :: 0 <= i < |SafeName(baseName)| ==> SafeChar(SafeName(baseName)[i])
    ensures SafeName(SafeName(baseName)) == SafeName(baseName)
    ensures (forall i :: 0 <= i < |baseName| ==> SafeChar(baseName[i])) ==> SafeName(baseName) == baseName
  {
  }

  /** `new Date().toISOString().replace(/[:.]/g, '-').slice(0, -5)`, on the
      ISO text `iso`. */
  function Stamp(iso: string): (stamp: string)
    ensures |stamp| == if |iso| >= 5 then |iso| - 5 else 0
    ensures forall i :: 0 <= i < |stamp| ==> stamp[i] == if iso[i] == ':' || iso[i] == '.' then '-' else iso[i]
  {
    var dashed := Dashes(iso);
    if |dashed| >= 5 then dashed[..|dashed| - 5] else []
  }

  function Dashes(s: string): (t: string)
    ensures |t| == |s|
    ensures forall i :: 0 <= i < |s| ==> t[i] == if s[i] == ':' || s[i] == '.' then '-' else s[i]
  {
    seq(|s|, i requires 0 <= i < |s| => if s[i] == ':' || s[i] == '.' then '-' else s[i])
  }

  /** For the 24-character form `YYYY-MM-DDTHH:mm:ss.sssZ`, the stamp is
      the date and the time to the second, `YYYY-MM-DDTHH-mm-ss`: the
      milliseconds and the zone marker are cut and the colons become
      dashes. */
  lemma StampOfIsoTime(iso: string)
    requires |iso| == 24 && iso[13] == ':' && iso[16] == ':'
    requires forall i :: 0 <= i < 19 && i != 13 && i != 16 ==> iso[i] != ':' && iso[i] != '.'
    ensures Stamp(iso) == iso[..13] + "-" + iso[14..16] + "-" + iso[17..19]
  {
    var s := Stamp(iso);
    var r := iso[..13] + "-" + iso[14..16] + "-" + iso[17..19];
    assert |r| == 19;
    forall i | 0 <= i < 19
      ensures s[i] == r[i]
    {
      if i < 13 {
        assert r[i] == iso[i];
      } else if i == 13 || i == 16 {
      } else if i < 16 {
        assert r[i] == iso[i];
      } else {
        assert r[i] == iso[i];
      }
    }
  }

  /** `getSafeFileName(baseName, extension)`, at the time `iso`. */
  function GetSafeFileName(baseName: string, extension: string, iso: string): string {
    SafeName(baseName) + "_" + Stamp(iso) + "." + extension
  }

  /** The name starts with the safe base name and an underscore, and ends
      with a dot and the extension. */
  lemma SafeFileNameShape(baseName: string, extension: string, iso: string)
    ensures var n := GetSafeFileName(baseName, extension, iso);
      n[..|baseName| + 1] == SafeName(baseName) + "_" && EndsWith(n, "." + extension)
  {
    var head := SafeName(baseName) + "_";
    assert |head| == |baseName| + 1;
    Framed(head, Stamp(iso), "." + extension);
  }

  lemma Framed(head: string, mid: string, tail: string)
    ensures (head + mid + tail)[..|head|] == head
    ensures EndsWith(head + mid + tail, tail)
  {
    var n := head + mid + tail;
    assert n[|n| - |tail|..] == tail;
  }

  /** With the default extension, a file of that name counts as a JSON file. */
  lemma SafeJsonFileName(baseName: string, iso: string)
    ensures IsJsonFile("", GetSafeFileName(baseName, "json", iso))
  {
    SafeFileNameShape(baseName, "json", iso);
    assert "." + "json" == ".json";
  }
}
