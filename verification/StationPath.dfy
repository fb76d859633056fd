/** The station id in a WebSocket path: /ocpp/<stationId>, or /<stationId>. */
module StationPath {
  import opened Wrappers

  /** split('/') and filter(Boolean): the non-empty pieces between slashes. */
  function Parts(path: string): seq<string> {
    if path == "" then []
    else if path[0] == '/' then Parts(path[1..])
    else [Piece(path)] + Parts(path[|Piece(path)|..])
  }

  /** The text up to the first slash. */
  function Piece(s: string): (p: string)
    ensures |p| <= |s| && p == s[..|p|] && (s != "" && s[0] != '/' ==> p != "")
  {
    if s == "" || s[0] == '/' then "" else [s[0]] + Piece(s[1..])
  }

  function ExtractStationId(url: Option<string>): Option<string> {
    var path := url.GetOr("");
    var parts := Parts(path);
    if "/ocpp/" <= path then
      if parts != [] && parts[|parts| - 1] != "ocpp" then Some(parts[|parts| - 1]) else None
    else if |parts| == 1 then Some(parts[0])
    else None
  }

  predicate PlainId(id: string) {
    id != "" && '/' !in id
  }

  lemma {:induction false} PieceStops(id: string, rest: string)
    requires '/' !in id && (rest != "" ==> rest[0] == '/')
    ensures Piece(id + rest) == id
  {
    if id == "" {
      assert id + rest == rest;
    } else {
      assert (id + rest)[1..] == id[1..] + rest;
      PieceStops(id[1..], rest);
    }
  }

  lemma PartsOfPlain(id: string)
    requires PlainId(id)
    ensures Parts(id) == [id]
  {
    PieceStops(id, "");
    assert id + "" == id;
    assert id[|id|..] == "";
  }

  lemma {:induction false} PartsArePlain(path: string, k: nat)
    requires k < |Parts(path)|
    ensures PlainId(Parts(path)[k])
    decreases |path|
  {
    if path[0] == '/' {
      PartsArePlain(path[1..], k);
    } else if k == 0 {
      PieceHasNoSlash(path);
    } else {
      PartsArePlain(path[|Piece(path)|..], k - 1);
    }
  }

  lemma {:induction false} PieceHasNoSlash(s: string)
    ensures '/' !in Piece(s)
  {
    if s != "" && s[0] != '/' { PieceHasNoSlash(s[1..]); }
  }

  // ----- Which id a path names -----

  predicate Slashes(s: string) {
    forall k :: 0 <= k < |s| ==> s[k] == '/'
  }

  /** The text is empty or ends before a piece. */
  predicate Ends(a: string) {
    a == "" || a[|a| - 1] == '/'
  }

  lemma {:induction false} NoParts(path: string)
    ensures Parts(path) == [] <==> Slashes(path)
    decreases |path|
  {
    if path != "" && path[0] == '/' { NoParts(path[1..]); }
  }

  lemma {:induction false} PieceOfConcat(a: string, b: string)
    requires a != "" && Ends(a)
    ensures Piece(a + b) == Piece(a) && |Piece(a)| < |a|
  {
    if a[0] != '/' {
      assert (a + b)[1..] == a[1..] + b;
      PieceOfConcat(a[1..], b);
    }
  }

  lemma {:induction false} PartsConcat(a: string, b: string)
    requires Ends(a)
    ensures Parts(a + b) == Parts(a) + Parts(b)
    decreases |a|
  {
    if a == "" {
      assert a + b == b;
    } else if a[0] == '/' {
      assert (a + b)[1..] == a[1..] + b;
      PartsConcat(a[1..], b);
    } else {
      PieceOfConcat(a, b);
      var n := |Piece(a)|;
      assert (a + b)[n..] == a[n..] + b;
      PartsConcat(a[n..], b);
    }
  }

  /** The path is this id, with something that ends before it, and slashes after it. */
  predicate Around(path: string, a: string, id: string, z: string) {
    path == a + id + z && Ends(a) && Slashes(z)
  }

  lemma AfterSlash(path: string, a: string, id: string, z: string)
    requires path != "" && path[0] == '/' && Around(path[1..], a, id, z)
    ensures Around(path, "/" + a, id, z) && (Slashes(a) ==> Slashes("/" + a))
  {
    assert path == "/" + path[1..];
    assert "/" + (a + id + z) == ("/" + a) + id + z;
  }

  lemma AfterPiece(path: string, a: string, id: string, z: string)
    requires PlainId(id) && Around(path[|Piece(path)|..], a, id, z)
    ensures Around(path, Piece(path) + a, id, z)
  {
    var p := Piece(path);
    PieceEnds(path);
    assert id[0] in id && (id + z)[0] == id[0];
    assert a == "" ==> a + id + z == id + z;
    hide Piece;
    assert path == p + path[|p|..];
    assert p + (a + id + z) == (p + a) + id + z;
  }

  /** Where the last piece of a path is. */
  lemma {:induction false} Locate(path: string) returns (a: string, z: string)
    requires Parts(path) != []
    ensures Around(path, a, Parts(path)[|Parts(path)| - 1], z)
    ensures |Parts(path)| == 1 ==> Slashes(a)
    decreases |path|
  {
    if path[0] == '/' {
      a, z := Locate(path[1..]);
      AfterSlash(path, a, Parts(path)[|Parts(path)| - 1], z);
      a := "/" + a;
      hide Around;
    } else {
      var rest := path[|Piece(path)|..];
      assert Parts(path) == [Piece(path)] + Parts(rest);
      NoParts(rest);
      if Parts(rest) == [] {
        a, z := "", rest;
      } else {
        hide Around;
        a, z := Locate(rest);
        PartsArePlain(rest, |Parts(rest)| - 1);
        AfterPiece(path, a, Parts(rest)[|Parts(rest)| - 1], z);
        a := Piece(path) + a;
      }
    }
  }

  lemma {:induction false} PieceEnds(path: string)
    ensures var rest := path[|Piece(path)|..]; rest == "" || rest[0] == '/'
  {
    if path != "" && path[0] != '/' { PieceEnds(path[1..]); }
  }

  lemma PartsAround(a: string, id: string, z: string)
    requires Ends(a) && PlainId(id) && Slashes(z)
    ensures Parts(a + id + z) == Parts(a) + [id]
  {
    assert a + id + z == a + (id + z);
    PartsConcat(a, id + z);
    PieceStops(id, z);
    assert (id + z)[|id|..] == z;
    NoParts(z);
  }

  /** The path ends with this piece, and perhaps slashes. */
  ghost predicate EndsWith(path: string, id: string) {
    exists a, z :: Around(path, a, id, z)
  }

  /** The path is this piece, and perhaps slashes around it. */
  ghost predicate IsOnly(path: string, id: string) {
    exists a, z :: Slashes(a) && Slashes(z) && path == a + id + z
  }

  /**
   * A path under /ocpp/ names its last piece, unless that is "ocpp" itself; any other path names its only
   * piece, and nothing if it has several.
   */
  lemma ExtractIff(path: string, id: string)
    requires PlainId(id)
    ensures ExtractStationId(Some(path)) == Some(id)
            <==> if "/ocpp/" <= path then EndsWith(path, id) && id != "ocpp" else IsOnly(path, id)
  {
    if ExtractStationId(Some(path)) == Some(id) {
      var a, z := Locate(path);
    }
    if a, z :| Around(path, a, id, z) { PartsAround(a, id, z); }
    if a, z :| Slashes(a) && Slashes(z) && path == a + id + z {
      PartsAround(a, id, z);
      NoParts(a);
    }
  }

  /** An extracted id is never empty and never contains a slash. */
  lemma ExtractedIsPlain(url: Option<string>)
    requires ExtractStationId(url).Some?
    ensures PlainId(ExtractStationId(url).value)
  {
    var parts := Parts(url.GetOr(""));
    PartsArePlain(url.GetOr(""), |parts| - 1);
    PartsArePlain(url.GetOr(""), 0);
  }

  /** Both path forms give back their id; the legacy form only unless the id is "ocpp" itself. */
  lemma PathsRoundTrip(id: string)
    requires PlainId(id)
    ensures ExtractStationId(Some("/" + id)) == Some(id)
    ensures ExtractStationId(Some("/ocpp/" + id)) == if id == "ocpp" then None else Some(id)
  {
    PartsOfPlain(id);
    assert ("/" + id)[1..] == id;
    assert !("/ocpp/" <= "/" + id) by {
      assert |id| > 4 ==> id[4] in id && ("/" + id)[5] == id[4];
      assert "/ocpp/"[5] == '/';
    }
    var path := "/ocpp/" + id;
    assert path[1..] == "ocpp" + ("/" + id);
    PieceStops("ocpp", "/" + id);
    assert path[1..][4..] == "/" + id;
    assert Parts("/" + id) == [id];
    assert Parts(path[1..]) == ["ocpp"] + [id];
  }
}
