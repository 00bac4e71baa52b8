/**
 * The album proxy route (`GET /api/icloud`): it checks the configured token,
 * asks the album service for the shared album, reduces every photo record to
 * the derivative with the largest height key, projects it onto the flat
 * `AlbumPhoto` shape and drops every photo that ends up without a URL.
 *
 * The album service call and the random fallback ids are inputs: `getImages`
 * is what the service returns (or throws) for a token, and `randomId(i)` is the
 * string `Math.random` would have produced for the record at position `i`.
 */
module Album {
  import opened Wrappers

  /** One resolution variant of a photo. */
  datatype Derivative = Derivative(url: Option<string>, width: Option<int>, height: Option<int>)

  /**
   * A property of the record's `derivatives` object: its key, the height of the
   * variant, is the canonical decimal form of a natural number, so that
   * `parseInt(key, 10)` gives back `key` and `String` of that number names the
   * property again.
   */
  datatype DerivativeEntry = DerivativeEntry(key: nat, derivative: Derivative)

  /**
   * A photo record as the album service delivers it. `derivatives` lists the
   * object's properties in enumeration order; a JavaScript object has distinct
   * keys, and `Lookup` returns the first entry of a key either way.
   */
  datatype PhotoRecord = PhotoRecord(
    derivatives: Option<seq<DerivativeEntry>>,
    caption: Option<string>,
    guid: Option<string>,
    ts: Option<int>)

  /** The album's own description, passed through to the client untouched. */
  datatype Metadata = Metadata(fields: map<string, string>)

  datatype AlbumData = AlbumData(metadata: Metadata, photos: Option<seq<PhotoRecord>>)

  /** What the album service call did: delivered the album, or threw an exception with an optional message. */
  datatype FetchOutcome = Fetched(data: AlbumData) | Threw(message: Option<string>)

  /** The flat photo shape the route answers with. */
  datatype AlbumPhoto = AlbumPhoto(
    url: Option<string>,
    width: Option<int>,
    height: Option<int>,
    caption: string,
    id: string,
    ts: Option<int>)

  datatype Body = AlbumBody(metadata: Metadata, photos: seq<AlbumPhoto>) | ErrorBody(error: string)

  datatype Response = Response(status: nat, body: Body)

  const MissingTokenMessage: string := "Missing ICLOUD_SHARED_ALBUM_TOKEN"
  const FetchFailedMessage: string := "Failed to fetch iCloud album"

  /** JavaScript truthiness of an optional string: present and not empty. */
  predicate Truthy(s: Option<string>)
  {
    s.Some? && s.value != ""
  }

  /** `s || null` on an optional string. */
  function StringOrNull(s: Option<string>): (r: Option<string>)
    ensures Truthy(s) ==> r == s
    ensures !Truthy(s) ==> r.None?
  {
    if Truthy(s) then s else None
  }

  /** `n || null` on an optional number: 0 is falsy too. */
  function NumberOrNull(n: Option<int>): (r: Option<int>)
    ensures n.Some? && n.value != 0 ==> r == n
    ensures n.None? || n.value == 0 ==> r.None?
  {
    if n.Some? && n.value != 0 then n else None
  }

  /** `s || fallback` on an optional string. */
  function StringOr(s: Option<string>, fallback: string): (r: string)
    ensures Truthy(s) ==> r == s.value
    ensures !Truthy(s) ==> r == fallback
  {
    if Truthy(s) then s.value else fallback
  }

  // ---------------------------------------------------------------------------
  // Derivative selection
  // ---------------------------------------------------------------------------

  /** Every element is at least as large as every later one. */
  predicate Descending(s: seq<nat>)
  {
    forall i, j :: 0 <= i < j < |s| ==> s[i] >= s[j]
  }

  /** `Object.keys(...).map(h => parseInt(h, 10))`: the heights in enumeration order. */
  function Heights(es: seq<DerivativeEntry>): (r: seq<nat>)
    ensures |r| == |es|
    ensures forall i :: 0 <= i < |es| ==> r[i] == es[i].key
  {
    if es == [] then [] else [es[0].key] + Heights(es[1..])
  }

  /** Insert `x` into a descending sequence. */
  function InsertDescending(x: nat, s: seq<nat>): (r: seq<nat>)
    requires Descending(s)
    ensures Descending(r)
    ensures multiset(r) == multiset(s) + multiset{x}
  {
    if s == [] || x >= s[0] then
      [x] + s
    else
      var rest := InsertDescending(x, s[1..]);
      assert s == [s[0]] + s[1..];
      PrependDescending(s[0], x, s[1..], rest);
      [s[0]] + rest
  }

  /** A head at least as large as every element of a descending tail keeps the sequence descending. */
  lemma PrependDescending(head: nat, x: nat, tail: seq<nat>, rest: seq<nat>)
    requires Descending(rest) && multiset(rest) == multiset(tail) + multiset{x}
    requires head >= x && forall k :: 0 <= k < |tail| ==> head >= tail[k]
    ensures Descending([head] + rest)
  {
    forall k | 0 <= k < |rest| ensures head >= rest[k] {
      assert rest[k] in multiset(tail) + multiset{x};
      if rest[k] != x {
        assert rest[k] in tail;
      }
    }
    var r := [head] + rest;
    forall i, j | 0 <= i < j < |r| ensures r[i] >= r[j] {
      if i > 0 {
        assert r[i] == rest[i - 1] && r[j] == rest[j - 1];
      } else {
        assert r[j] == rest[j - 1];
      }
    }
  }

  /** `.sort((a, b) => b - a)`: the heights in descending order. */
  function SortDescending(s: seq<nat>): (r: seq<nat>)
    ensures Descending(r)
    ensures multiset(r) == multiset(s)
  {
    if s == [] then []
    else
      assert s == [s[0]] + s[1..];
      InsertDescending(s[0], SortDescending(s[1..]))
  }

  /**
   * The key the route looks up: the first of the heights sorted in descending
   * order. When there is no height, or the largest is 0, `heights[0] || ""`
   * yields the empty string, which is no canonical key: then nothing is selected.
   */
  function SelectedKey(es: seq<DerivativeEntry>): (r: Option<nat>)
    ensures r.Some? ==> r.value > 0
    ensures r.Some? ==> exists i :: 0 <= i < |es| && es[i].key == r.value
    ensures r.Some? ==> forall i :: 0 <= i < |es| ==> es[i].key <= r.value
    ensures r.None? <==> forall i :: 0 <= i < |es| ==> es[i].key == 0
  {
    var heights := SortDescending(Heights(es));
    LargestHeightFirst(es);
    if |heights| == 0 || heights[0] == 0 then None else Some(heights[0])
  }

  /** After sorting, the first height is the largest key and is itself a key. */
  lemma LargestHeightFirst(es: seq<DerivativeEntry>)
    ensures |SortDescending(Heights(es))| == |es|
    ensures |es| > 0 ==> exists i :: 0 <= i < |es| && es[i].key == SortDescending(Heights(es))[0]
    ensures |es| > 0 ==> forall i :: 0 <= i < |es| ==> es[i].key <= SortDescending(Heights(es))[0]
  {
    var hs := Heights(es);
    var sorted := SortDescending(hs);
    assert |sorted| == |multiset(sorted)| == |multiset(hs)| == |es|;
    if |es| > 0 {
      assert sorted[0] in multiset(hs);
      forall i | 0 <= i < |es| ensures es[i].key <= sorted[0] {
        assert hs[i] in multiset(sorted);
        var k :| 0 <= k < |sorted| && sorted[k] == hs[i];
      }
    }
  }

  /** `p.derivatives[key]`: the derivative stored under `key`, if any. */
  function Lookup(es: seq<DerivativeEntry>, key: nat): (r: Option<Derivative>)
    ensures r.Some? ==> exists i :: 0 <= i < |es| && es[i] == DerivativeEntry(key, r.value)
    ensures r.None? <==> forall i :: 0 <= i < |es| ==> es[i].key != key
  {
    if es == [] then None
    else if es[0].key == key then Some(es[0].derivative)
    else
      var r := Lookup(es[1..], key);
      assert forall i :: 1 <= i < |es| ==> es[i] == es[1..][i - 1];
      r
  }

  /** The entries of a record; a missing `derivatives` object behaves as an empty one. */
  function Entries(p: PhotoRecord): (r: seq<DerivativeEntry>)
  {
    p.derivatives.GetOr([])
  }

  /** The derivative `d` the route projects a record from. */
  function Selected(p: PhotoRecord): (r: Option<Derivative>)
    ensures r.Some? ==> exists i :: 0 <= i < |Entries(p)| && Entries(p)[i].derivative == r.value
                                    && Entries(p)[i].key > 0
                                    && forall j :: 0 <= j < |Entries(p)| ==> Entries(p)[j].key <= Entries(p)[i].key
    ensures r.None? <==> forall i :: 0 <= i < |Entries(p)| ==> Entries(p)[i].key == 0
  {
    var es := Entries(p);
    match SelectedKey(es)
    case None => None
    case Some(k) => Lookup(es, k)
  }

  /** A record whose selected derivative has a usable URL: the ones the route keeps. */
  predicate Displayable(p: PhotoRecord)
  {
    Selected(p).Some? && Truthy(Selected(p).value.url)
  }

  /** The projection onto the flat shape, with `fallbackId` as the random id. */
  function Project(p: PhotoRecord, fallbackId: string): (r: AlbumPhoto)
    ensures r.url.Some? <==> Displayable(p)
    ensures r.url.Some? ==> r.url.value != "" && r.url == Selected(p).value.url
    ensures p.caption.None? ==> r.caption == ""
    ensures p.caption.Some? ==> r.caption == p.caption.value
    ensures Truthy(p.guid) ==> r.id == p.guid.value
    ensures !Truthy(p.guid) ==> r.id == fallbackId
    ensures Selected(p).Some? ==> r.width == NumberOrNull(Selected(p).value.width)
    ensures Selected(p).Some? ==> r.height == NumberOrNull(Selected(p).value.height)
    ensures Selected(p).None? ==> r.width.None? && r.height.None?
    ensures r.ts == NumberOrNull(p.ts)
  {
    var d := Selected(p);
    AlbumPhoto(
      url := if d.Some? then StringOrNull(d.value.url) else None,
      width := if d.Some? then NumberOrNull(d.value.width) else None,
      height := if d.Some? then NumberOrNull(d.value.height) else None,
      caption := StringOr(p.caption, ""),
      id := StringOr(p.guid, fallbackId),
      ts := NumberOrNull(p.ts))
  }

  /** `.map(...)`: every record projected, the record at position `i` with `randomId(i)`. */
  function ProjectAll(ps: seq<PhotoRecord>, randomId: nat -> string): (r: seq<AlbumPhoto>)
    ensures |r| == |ps|
    ensures forall i :: 0 <= i < |ps| ==> r[i] == Project(ps[i], randomId(i))
  {
    seq(|ps|, i requires 0 <= i < |ps| => Project(ps[i], randomId(i)))
  }

  /** `.filter(x => !!x.url)`. */
  function KeepWithUrl(xs: seq<AlbumPhoto>): (r: seq<AlbumPhoto>)
    ensures |r| <= |xs|
    ensures forall k :: 0 <= k < |r| ==> Truthy(r[k].url)
  {
    if xs == [] then []
    else
      var rest := KeepWithUrl(xs[..|xs| - 1]);
      var last := xs[|xs| - 1];
      if Truthy(last.url) then rest + [last] else rest
  }

  /** The route's photo list for the records `ps`. */
  function Normalise(ps: seq<PhotoRecord>, randomId: nat -> string): (r: seq<AlbumPhoto>)
    ensures |r| <= |ps|
    ensures forall k :: 0 <= k < |r| ==> r[k].url.Some? && r[k].url.value != ""
  {
    KeepWithUrl(ProjectAll(ps, randomId))
  }

  // ---------------------------------------------------------------------------
  // Which records survive: an index-based reference description
  // ---------------------------------------------------------------------------

  /** Whether each record is displayable, position by position. */
  function DisplayFlags(ps: seq<PhotoRecord>): (r: seq<bool>)
    ensures |r| == |ps|
    ensures forall i :: 0 <= i < |ps| ==> (r[i] <==> Displayable(ps[i]))
  {
    seq(|ps|, i requires 0 <= i < |ps| => Displayable(ps[i]))
  }

  /** The positions, in increasing order, of the set flags among the first `n`. */
  function KeptBelow(flags: seq<bool>, n: nat): (r: seq<nat>)
    requires n <= |flags|
    ensures forall j :: 0 <= j < |r| ==> r[j] < n
    ensures forall j, k :: 0 <= j < k < |r| ==> r[j] < r[k]
    ensures forall i :: 0 <= i < n ==> (i in r <==> flags[i])
  {
    if n == 0 then []
    else
      var rest := KeptBelow(flags, n - 1);
      if flags[n - 1] then rest + [n - 1] else rest
  }

  /** The positions, in increasing order, of the displayable records. */
  function Kept(ps: seq<PhotoRecord>): (r: seq<nat>)
    ensures forall j :: 0 <= j < |r| ==> r[j] < |ps|
    ensures forall j, k :: 0 <= j < k < |r| ==> r[j] < r[k]
    ensures forall i :: 0 <= i < |ps| ==> (i in r <==> Displayable(ps[i]))
  {
    KeptBelow(DisplayFlags(ps), |ps|)
  }

  /** The filter keeps, in order, the photos at the positions `KeptBelow` lists. */
  lemma {:induction false} KeepWithUrlPrefix(xs: seq<AlbumPhoto>, flags: seq<bool>, n: nat)
    requires |flags| == |xs| && n <= |xs|
    requires forall i :: 0 <= i < |xs| ==> (flags[i] <==> Truthy(xs[i].url))
    ensures |KeepWithUrl(xs[..n])| == |KeptBelow(flags, n)|
    ensures forall j :: 0 <= j < |KeptBelow(flags, n)| ==> KeepWithUrl(xs[..n])[j] == xs[KeptBelow(flags, n)[j]]
  {
    if n > 0 {
      KeepWithUrlPrefix(xs, flags, n - 1);
      var ys := xs[..n];
      assert ys[..|ys| - 1] == xs[..n - 1];
      assert ys[|ys| - 1] == xs[n - 1];
      var rest := KeepWithUrl(xs[..n - 1]);
      var kept := KeptBelow(flags, n - 1);
      if flags[n - 1] {
        assert KeepWithUrl(ys) == rest + [xs[n - 1]];
        assert KeptBelow(flags, n) == kept + [n - 1];
      } else {
        assert KeepWithUrl(ys) == rest;
        assert KeptBelow(flags, n) == kept;
      }
    }
  }

  /**
   * The route's list is the input in input order minus exactly the records
   * that are not displayable: its `j`-th photo is the projection of the `j`-th
   * displayable record.
   */
  lemma NormaliseKeepsExactlyDisplayable(ps: seq<PhotoRecord>, randomId: nat -> string)
    ensures |Normalise(ps, randomId)| == |Kept(ps)|
    ensures forall j :: 0 <= j < |Kept(ps)| ==>
              Normalise(ps, randomId)[j] == Project(ps[Kept(ps)[j]], randomId(Kept(ps)[j]))
  {
    var all := ProjectAll(ps, randomId);
    KeepWithUrlPrefix(all, DisplayFlags(ps), |ps|);
    assert all[..|ps|] == all;
    assert Kept(ps) == KeptBelow(DisplayFlags(ps), |ps|);
  }

  /** A record without derivatives has no selected derivative and is dropped. */
  lemma NoDerivativesIsDropped(ps: seq<PhotoRecord>, i: nat)
    requires i < |ps|
    requires ps[i].derivatives.None? || ps[i].derivatives == Some([])
    ensures Selected(ps[i]).None?
    ensures i !in Kept(ps)
  {
  }

  /**
   * The selection example: whatever order the record lists the heights 100,
   * 200 and 400 in, the 400 variant is chosen.
   */
  lemma SelectsLargestOfThree(p: PhotoRecord, small: Derivative, medium: Derivative, large: Derivative)
    requires multiset(Entries(p)) == multiset{DerivativeEntry(100, small), DerivativeEntry(200, medium), DerivativeEntry(400, large)}
    ensures SelectedKey(Entries(p)) == Some(400)
    ensures Selected(p) == Some(large)
  {
    var es := Entries(p);
    ThreeEntries(es, small, medium, large);
    var k := SelectedKey(es);
    assert k.Some? && k.value == 400;
  }

  /** Each entry of the three has one of their keys; the one holding 400 is the large variant. */
  lemma ThreeEntries(es: seq<DerivativeEntry>, small: Derivative, medium: Derivative, large: Derivative)
    requires multiset(es) == multiset{DerivativeEntry(100, small), DerivativeEntry(200, medium), DerivativeEntry(400, large)}
    ensures forall i :: 0 <= i < |es| ==> es[i].key <= 400 && (es[i].key == 400 ==> es[i].derivative == large)
    ensures exists i :: 0 <= i < |es| && es[i] == DerivativeEntry(400, large)
  {
    forall i | 0 <= i < |es|
      ensures es[i].key <= 400 && (es[i].key == 400 ==> es[i].derivative == large)
    {
      assert es[i] in multiset(es);
    }
    assert DerivativeEntry(400, large) in multiset(es);
  }

  // ---------------------------------------------------------------------------
  // The route
  // ---------------------------------------------------------------------------

  /** `!token`: no token configured, or an empty one. */
  predicate TokenMissing(token: Option<string>)
  {
    !Truthy(token)
  }

  /** `GET /api/icloud` with the configured `token`. */
  function Get(token: Option<string>, getImages: string -> FetchOutcome, randomId: nat -> string): (r: Response)
    ensures r.status == 200 || r.status == 500
    ensures r.status == 500 <==> r.body.ErrorBody?
    ensures r.body.ErrorBody? ==> r.body.error != ""
    ensures TokenMissing(token) ==> r == Response(500, ErrorBody(MissingTokenMessage))
    ensures r.body.AlbumBody? ==> forall k :: 0 <= k < |r.body.photos| ==> Truthy(r.body.photos[k].url)
  {
    if TokenMissing(token) then
      Response(500, ErrorBody(MissingTokenMessage))
    else
      match getImages(token.value)
      case Threw(message) => Response(500, ErrorBody(StringOr(message, FetchFailedMessage)))
      case Fetched(data) => Response(200, AlbumBody(data.metadata, Normalise(data.photos.GetOr([]), randomId)))
  }

  /** Without a token the album service is never asked: the answer does not depend on it. */
  lemma MissingTokenNeverFetches(token: Option<string>, f: string -> FetchOutcome, g: string -> FetchOutcome,
                                 randomId: nat -> string)
    requires TokenMissing(token)
    ensures Get(token, f, randomId) == Get(token, g, randomId)
    ensures Get(token, f, randomId).body == ErrorBody("Missing ICLOUD_SHARED_ALBUM_TOKEN")
  {
  }

  /** With a token, the answer is the album service's answer for that very token, reshaped. */
  lemma TokenIsPassedOn(token: string, getImages: string -> FetchOutcome, randomId: nat -> string)
    requires token != ""
    ensures getImages(token).Fetched? ==>
              Get(Some(token), getImages, randomId)
              == Response(200, AlbumBody(getImages(token).data.metadata,
                                         Normalise(getImages(token).data.photos.GetOr([]), randomId)))
  {
  }

  /** An album without a `photos` field is answered with an empty photo list, not an error. */
  lemma MissingPhotosIsEmptyList(token: string, metadata: Metadata, getImages: string -> FetchOutcome,
                                 randomId: nat -> string)
    requires token != ""
    requires getImages(token) == Fetched(AlbumData(metadata, None))
    ensures Get(Some(token), getImages, randomId) == Response(200, AlbumBody(metadata, []))
  {
  }

  /** A thrown exception becomes status 500 with its message, or the generic text when it has none. */
  lemma ExceptionIsStatus500(token: string, message: Option<string>, getImages: string -> FetchOutcome,
                             randomId: nat -> string)
    requires token != ""
    requires getImages(token) == Threw(message)
    ensures Truthy(message) ==> Get(Some(token), getImages, randomId) == Response(500, ErrorBody(message.value))
    ensures !Truthy(message) ==>
              Get(Some(token), getImages, randomId) == Response(500, ErrorBody("Failed to fetch iCloud album"))
  {
  }
}
