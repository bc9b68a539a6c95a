// The favourite-location store of the server: the request normalisation of
// `POST` and `DELETE /api/favorites`, the `sameLoc` comparison, and the
// upsert and removal it drives, with the invariant they keep: no two
// entries share a location.

module Favorites {
  import opened JsValues

  /** A coordinate pair that survived the `Number.isFinite` filter. */
  datatype Coord = Coord(x: real, y: real)

  /** A stored favourite: `{ name, mode, coords }`. */
  datatype Fav = Fav(name: Json, mode: string, coords: seq<Coord>)

  /** The mode of a `POST`: anything but the two known modes is `single`. */
  function PostMode(raw: Json): (m: string)
    ensures m == "mosaic" || m == "single"
    ensures m == "mosaic" <==> raw == JStr("mosaic")
  {
    if raw == JStr("mosaic") || raw == JStr("single") then raw.s else "single"
  }

  /** The mode of a `DELETE`: anything but the two known modes is `''`,
      which the handler refuses. */
  function DeleteMode(raw: Json): (m: string)
    ensures m == "" <==> raw != JStr("mosaic") && raw != JStr("single")
    ensures m != "" ==> raw == JStr(m)
  {
    if raw == JStr("mosaic") || raw == JStr("single") then raw.s else ""
  }

  /** `Number(c && c.x)`: a falsy element converts as itself (`null` and
      `0` give 0), a truthy one through its `x` (missing is NaN). */
  function CoordPart(c: Json, key: string): Num
  {
    if !Truthy(c) then ToNumber(c) else ToNumberOpt(Get(c, key))
  }

  /** One element through the `map` and the `filter`. */
  function ToCoord(c: Json): (r: Option<Coord>)
    ensures r.Some? <==> IsFinite(CoordPart(c, "x")) && IsFinite(CoordPart(c, "y"))
    ensures r.Some? ==> r.value == Coord(CoordPart(c, "x").v, CoordPart(c, "y").v)
  {
    var x, y := CoordPart(c, "x"), CoordPart(c, "y");
    if x.Finite? && y.Finite? then Some(Coord(x.v, y.v)) else None
  }

  /** The `map`/`filter` over the coordinate array, in order. */
  function FiniteCoords(items: seq<Json>): (r: seq<Coord>)
    ensures |r| <= |items|
    ensures forall k :: 0 <= k < |r| ==> exists i :: 0 <= i < |items| && ToCoord(items[i]) == Some(r[k])
    ensures r == [] <==> forall i :: 0 <= i < |items| ==> ToCoord(items[i]).None?
  {
    if items == [] then []
    else
      var rest := FiniteCoords(items[1..]);
      assert forall i :: 0 <= i < |items[1..]| ==> items[1..][i] == items[i + 1];
      match ToCoord(items[0])
      case Some(c) => [c] + rest
      case None => rest
  }

  /** The coordinates of a request: an array is mapped and filtered; any
      other value has no `map`, so the handler throws. */
  function Coords(raw: Json): (r: Option<seq<Coord>>)
    ensures r.Some? <==> raw.JArr?
  {
    if raw.JArr? then Some(FiniteCoords(raw.items)) else None
  }

  /** `sameLoc`: equal modes and equal `JSON.stringify` of the coordinates.
      On lists of finite numbers the serialisation is injective, so it is
      equality of the lists. */
  predicate SameLoc(a: Fav, b: Fav)
  {
    a.mode == b.mode && a.coords == b.coords
  }

  /** `findIndex` with `sameLoc`. */
  function FindLoc(favs: seq<Fav>, f: Fav): (r: int)
    ensures -1 <= r < |favs|
    ensures r >= 0 ==> SameLoc(favs[r], f) && forall j :: 0 <= j < r ==> !SameLoc(favs[j], f)
    ensures r == -1 <==> forall j :: 0 <= j < |favs| ==> !SameLoc(favs[j], f)
  {
    if favs == [] then -1
    else if SameLoc(favs[0], f) then 0
    else
      var r := FindLoc(favs[1..], f);
      assert forall j :: 0 <= j < |favs[1..]| ==> favs[1..][j] == favs[j + 1];
      if r < 0 then -1 else r + 1
  }

  /** The `filter` of `DELETE`: every entry at a different location, in
      order. */
  function RemoveLoc(favs: seq<Fav>, t: Fav): (r: seq<Fav>)
    ensures |r| <= |favs|
    ensures forall f :: f in r <==> f in favs && !SameLoc(f, t)
  {
    if favs == [] then []
    else
      var rest := RemoveLoc(favs[1..], t);
      assert forall f :: f in favs <==> f == favs[0] || f in favs[1..];
      if SameLoc(favs[0], t) then rest else [favs[0]] + rest
  }

  /** The name an upsert stores: `name || current.name || ''`. */
  function MergedName(name: Json, current: Json): (r: Json)
    ensures Truthy(name) ==> r == name
    ensures !Truthy(name) && Truthy(current) ==> r == current
    ensures !Truthy(name) && !Truthy(current) ==> r == JStr("")
  {
    if Truthy(name) then name else if Truthy(current) then current else JStr("")
  }

  /** Posting the same name again changes nothing more, and a stored
      truthy name is never blanked by a rename. */
  lemma RenameKeepsName(name: Json, current: Json)
    ensures MergedName(name, MergedName(name, current)) == MergedName(name, current)
    ensures Truthy(MergedName(name, current)) <==> Truthy(name) || Truthy(current)
  {
  }

  /** No two entries share a location. */
  predicate NoDupLocs(favs: seq<Fav>)
  {
    forall i, j :: 0 <= i < j < |favs| ==> !SameLoc(favs[i], favs[j])
  }

  /** What the handlers store: a known mode and at least one coordinate. */
  predicate WellFormed(f: Fav)
  {
    (f.mode == "mosaic" || f.mode == "single") && f.coords != []
  }

  predicate ValidStore(favs: seq<Fav>)
  {
    NoDupLocs(favs) && forall i :: 0 <= i < |favs| ==> WellFormed(favs[i])
  }

  // --- Properties ---------------------------------------------------------

  /** The `map`/`filter` distributes over concatenation. */
  lemma {:induction false} FiniteCoordsAppend(a: seq<Json>, b: seq<Json>)
    ensures FiniteCoords(a + b) == FiniteCoords(a) + FiniteCoords(b)
  {
    if a == [] {
      assert a + b == b;
    } else {
      assert (a + b)[1..] == a[1..] + b;
      assert (a + b)[0] == a[0];
      FiniteCoordsAppend(a[1..], b);
      if ToCoord(a[0]).Some? {
        var c := [ToCoord(a[0]).value];
        assert c + (FiniteCoords(a[1..]) + FiniteCoords(b)) == (c + FiniteCoords(a[1..])) + FiniteCoords(b);
      }
    }
  }

  /** A coordinate list as the store writes it back. */
  function CoordsJson(cs: seq<Coord>): (r: seq<Json>)
    ensures |r| == |cs|
  {
    if cs == [] then []
    else [JObj([("x", JNum(Finite(cs[0].x))), ("y", JNum(Finite(cs[0].y)))])] + CoordsJson(cs[1..])
  }

  /** Normalising stored coordinates gives them back: the `map`/`filter`
      loses nothing of a list it produced. */
  lemma {:induction false} CoordsRoundTrip(cs: seq<Coord>)
    ensures FiniteCoords(CoordsJson(cs)) == cs
  {
    if cs != [] {
      var o := JObj([("x", JNum(Finite(cs[0].x))), ("y", JNum(Finite(cs[0].y)))]);
      StoredCoord(cs[0]);
      assert CoordsJson(cs)[0] == o && CoordsJson(cs)[1..] == CoordsJson(cs[1..]);
      CoordsRoundTrip(cs[1..]);
    }
  }

  /** One stored coordinate normalises to itself. */
  lemma StoredCoord(c: Coord)
    ensures ToCoord(JObj([("x", JNum(Finite(c.x))), ("y", JNum(Finite(c.y)))])) == Some(c)
  {
    var o := JObj([("x", JNum(Finite(c.x))), ("y", JNum(Finite(c.y)))]);
    assert o.members[1].0 != "x" && o.members[..1] == [("x", JNum(Finite(c.x)))];
    assert LastMember(o.members[..1], "x") == Some(JNum(Finite(c.x)));
    assert Get(o, "x") == Some(JNum(Finite(c.x)));
    assert Get(o, "y") == Some(JNum(Finite(c.y)));
  }

  /** The removal distributes over concatenation, so it keeps the order of
      the entries it keeps. */
  lemma {:induction false} RemoveLocAppend(a: seq<Fav>, b: seq<Fav>, t: Fav)
    ensures RemoveLoc(a + b, t) == RemoveLoc(a, t) + RemoveLoc(b, t)
  {
    if a == [] {
      assert a + b == b;
    } else {
      assert (a + b)[1..] == a[1..] + b;
      assert (a + b)[0] == a[0];
      RemoveLocAppend(a[1..], b, t);
      if !SameLoc(a[0], t) {
        assert [a[0]] + (RemoveLoc(a[1..], t) + RemoveLoc(b, t)) == ([a[0]] + RemoveLoc(a[1..], t)) + RemoveLoc(b, t);
      }
    }
  }

  /** An entry at another location is kept; one at the location is
      dropped. */
  lemma RemoveLocOne(f: Fav, t: Fav)
    ensures RemoveLoc([f], t) == if SameLoc(f, t) then [] else [f]
  {
    assert [f][1..] == [];
  }

  /** Deleting a location that is not stored changes nothing. */
  lemma {:induction false} RemoveAbsent(favs: seq<Fav>, t: Fav)
    requires FindLoc(favs, t) == -1
    ensures RemoveLoc(favs, t) == favs
  {
    if favs != [] {
      assert forall j :: 0 <= j < |favs[1..]| ==> favs[1..][j] == favs[j + 1];
      RemoveAbsent(favs[1..], t);
    }
  }

  /** After a removal the location is gone. */
  lemma RemovedGone(favs: seq<Fav>, t: Fav)
    ensures FindLoc(RemoveLoc(favs, t), t) == -1
  {
    var r := RemoveLoc(favs, t);
    forall j | 0 <= j < |r|
      ensures !SameLoc(r[j], t)
    {
      assert r[j] in r;
    }
  }

  /** Adding a location and deleting it again leaves the entries that were
      there. */
  lemma AppendThenRemove(favs: seq<Fav>, f: Fav)
    requires FindLoc(favs, f) == -1
    ensures RemoveLoc(favs + [f], f) == favs
  {
    RemoveLocAppend(favs, [f], f);
    RemoveLocOne(f, f);
    RemoveAbsent(favs, f);
  }

  /** Appending a location that is not stored keeps the store valid. */
  lemma AppendValid(favs: seq<Fav>, f: Fav)
    requires ValidStore(favs) && WellFormed(f) && FindLoc(favs, f) == -1
    ensures ValidStore(favs + [f])
  {
    var r := favs + [f];
    forall i, j | 0 <= i < j < |r|
      ensures !SameLoc(r[i], r[j])
    {
      if j == |favs| {
        assert r[i] == favs[i] && r[j] == f;
      } else {
        assert r[i] == favs[i] && r[j] == favs[j];
      }
    }
  }

  /** Renaming an entry keeps the store valid: the location is unchanged. */
  lemma RenameValid(favs: seq<Fav>, i: nat, name: Json)
    requires ValidStore(favs) && i < |favs|
    ensures ValidStore(favs[i := favs[i].(name := name)])
  {
  }

  /** A removal keeps the store valid. */
  lemma {:induction false} RemoveValid(favs: seq<Fav>, t: Fav)
    requires ValidStore(favs)
    ensures ValidStore(RemoveLoc(favs, t))
  {
    if favs != [] {
      var tail := favs[1..];
      assert forall j :: 0 <= j < |tail| ==> tail[j] == favs[j + 1];
      assert ValidStore(tail);
      RemoveValid(tail, t);
      var rest := RemoveLoc(tail, t);
      if !SameLoc(favs[0], t) {
        var r := [favs[0]] + rest;
        forall i, j | 0 <= i < j < |r|
          ensures !SameLoc(r[i], r[j])
        {
          if i == 0 {
            assert r[j] == rest[j - 1] && rest[j - 1] in rest;
            assert r[j] in tail;
          } else {
            assert r[i] == rest[i - 1] && r[j] == rest[j - 1];
          }
        }
        forall i | 0 <= i < |r|
          ensures WellFormed(r[i])
        {
          if i > 0 {
            assert r[i] == rest[i - 1];
          }
        }
      }
    }
  }
}
