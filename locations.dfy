/** The location loader `get_locations` (src/main.py): one place lookup per
    comma-separated location id, failing the whole call on the first id whose
    lookup fails, and collecting the places in a dict keyed by their `@id`. */
module Locations {
  import opened Wrappers
  import opened Text
  import opened Json
  import opened Resolver
  import OrderedDict

  /** One resolved place, with the fields the feed uses. */
  datatype Location = Location(
    name: Option<string>,
    streetAddress: Option<string>,
    locality: Option<string>,
    email: Option<string>,
    infoUrl: Option<string>)

  /** The outcome of `httpx.get` on a place URL: no response at all, or a
      status code with a body that is either decoded JSON or not JSON. */
  datatype PlaceResponse = Unreachable | Response(status: int, body: Option<Json>)

  /** `HTTPException(status_code=404, detail=f"Place not found: {loc}")`. */
  datatype PlaceNotFound = PlaceNotFound(loc: string)

  /** The places found so far, keyed by `@id` (which may itself be None). */
  type Locations = OrderedDict.Entries<Option<string>, Location>

  function PlaceUrl(baseUrl: string, loc: string): string {
    baseUrl + "/place/" + loc + "/"
  }

  function DetailOf(e: PlaceNotFound): string {
    "Place not found: " + e.loc
  }

  /** The `@id` key and the fields of one decoded place document: the `@id`
      and the email as they stand (stripped), the other four in the preferred
      language, else the first language given. */
  function PlaceRecord(place: Json, lang: string): (Option<string>, Location)
  {
    var aid := GetPreferredOrFirst(place, "$.@id", "$.@id", "$.@id");
    var name := GetPreferredOrFirst(place, "$.name", "$.name." + lang, "$.name.*");
    var street := GetPreferredOrFirst(place, "$.street_address.*", "$.street_address." + lang, "$.street_address.*");
    var locality := GetPreferredOrFirst(place, "$.address_locality.*", "$.address_locality." + lang, "$.address_locality.*");
    var email := GetPreferredOrFirst(place, "$.email", "$.email", "$.email");
    var infoUrl := GetPreferredOrFirst(place, "$.info_url.*", "$.info_url." + lang, "$.info_url.*");
    (aid, Location(name, street, locality, email, infoUrl))
  }

  /** What each field of a place record resolves to. */
  lemma PlaceRecordFields(place: Json, lang: string)
    ensures Resolves(place, "$.@id", "$.@id", "$.@id", PlaceRecord(place, lang).0)
    ensures Resolves(place, "$.name", "$.name." + lang, "$.name.*", PlaceRecord(place, lang).1.name)
    ensures Resolves(place, "$.street_address.*", "$.street_address." + lang, "$.street_address.*", PlaceRecord(place, lang).1.streetAddress)
    ensures Resolves(place, "$.address_locality.*", "$.address_locality." + lang, "$.address_locality.*", PlaceRecord(place, lang).1.locality)
    ensures Resolves(place, "$.email", "$.email", "$.email", PlaceRecord(place, lang).1.email)
    ensures Resolves(place, "$.info_url.*", "$.info_url." + lang, "$.info_url.*", PlaceRecord(place, lang).1.infoUrl)
  {
  }

  /** The record for one lookup, or None when the lookup raises: no response,
      a status other than 200, or a body that is not JSON. */
  function Lookup(resp: PlaceResponse, lang: string): (r: Option<(Option<string>, Location)>)
    ensures r.Some? <==> resp.Response? && resp.status == 200 && resp.body.Some?
    ensures r.Some? ==> r.value == PlaceRecord(resp.body.value, lang)
  {
    match resp
    case Unreachable => None
    case Response(status, body) =>
      if status != 200 || body.None? then None else Some(PlaceRecord(body.value, lang))
  }

  /** The lookup of `id` raises: no response, a status other than 200, or a
      body that is not JSON. */
  predicate Fails(id: string, lang: string, baseUrl: string, fetch: string -> PlaceResponse) {
    var resp := fetch(PlaceUrl(baseUrl, id));
    !(resp.Response? && resp.status == 200 && resp.body.Some?)
  }

  /** The loop of `get_locations` over `ids`, starting from the dict `acc`.
      An error names one of the ids; a result keeps the keys of `acc` first,
      in their order, and adds at most one key per id. */
  function LoadFrom(ids: seq<string>, acc: Locations, lang: string, baseUrl: string, fetch: string -> PlaceResponse)
    : (r: Result<Locations, PlaceNotFound>)
    ensures r.Err? ==> r.error.loc in ids
    ensures r.Ok? ==> |acc| <= |r.value| <= |acc| + |ids|
    ensures r.Ok? ==> OrderedDict.KeysOf(r.value)[..|acc|] == OrderedDict.KeysOf(acc)
    decreases |ids|
  {
    if ids == [] then Ok(acc)
    else
      match Lookup(fetch(PlaceUrl(baseUrl, ids[0])), lang)
      case None => Err(PlaceNotFound(ids[0]))
      case Some(rec) =>
        var r := LoadFrom(ids[1..], OrderedDict.Put(acc, rec.0, rec.1), lang, baseUrl, fetch);
        LoadStep(acc, rec, r, |ids| - 1);
        assert r.Err? ==> r.error.loc in ids[1..];
        r
  }

  /** One more record in front of a load that kept its start's keys first
      keeps the keys of the dict before the record first too. */
  lemma LoadStep(acc: Locations, rec: (Option<string>, Location), r: Result<Locations, PlaceNotFound>, n: nat)
    requires var acc' := OrderedDict.Put(acc, rec.0, rec.1);
      r.Ok? ==> |acc'| <= |r.value| <= |acc'| + n && OrderedDict.KeysOf(r.value)[..|acc'|] == OrderedDict.KeysOf(acc')
    ensures r.Ok? ==> |acc| <= |r.value| <= |acc| + n + 1 && OrderedDict.KeysOf(r.value)[..|acc|] == OrderedDict.KeysOf(acc)
  {
    if r.Ok? {
      OrderedDict.PutKeys(acc, rec.0, rec.1);
      KeysPrefixTrans(acc, OrderedDict.Put(acc, rec.0, rec.1), r.value);
    }
  }

  /** Keeping the keys first is transitive. */
  lemma KeysPrefixTrans(a: Locations, b: Locations, c: Locations)
    requires |a| <= |b| && OrderedDict.KeysOf(b)[..|a|] == OrderedDict.KeysOf(a)
    requires |b| <= |c| && OrderedDict.KeysOf(c)[..|b|] == OrderedDict.KeysOf(b)
    ensures OrderedDict.KeysOf(c)[..|a|] == OrderedDict.KeysOf(a)
  {
    assert OrderedDict.KeysOf(c)[..|a|] == OrderedDict.KeysOf(c)[..|b|][..|a|];
  }

  method GetLocations(locationString: string, lang: string, baseUrl: string, fetch: string -> PlaceResponse)
    returns (r: Result<Locations, PlaceNotFound>)
    ensures r == LoadFrom(Split(locationString, ','), [], lang, baseUrl, fetch)
  {
    var ids := Split(locationString, ',');
    var locations: Locations := [];
    var i := 0;
    while i < |ids|
      invariant 0 <= i <= |ids|
      invariant LoadFrom(ids[i..], locations, lang, baseUrl, fetch) == LoadFrom(ids, [], lang, baseUrl, fetch)
    {
      var loc := ids[i];
      var resp := fetch(PlaceUrl(baseUrl, loc));
      if resp.Unreachable? || resp.status != 200 || resp.body.None? {
        return Err(PlaceNotFound(loc));
      }
      var (aid, location) := PlaceRecord(resp.body.value, lang);
      assert ids[i..][1..] == ids[i + 1..];
      locations := OrderedDict.Put(locations, aid, location);
      i := i + 1;
    }
    return Ok(locations);
  }

  /** Fail-fast: the call fails exactly when some id's lookup fails, and then
      it names the first such id. */
  lemma LoadFailsAtFirst(ids: seq<string>, acc: Locations, lang: string, baseUrl: string,
                          fetch: string -> PlaceResponse)
    ensures LoadFrom(ids, acc, lang, baseUrl, fetch).Err? <==>
      exists i :: 0 <= i < |ids| && Fails(ids[i], lang, baseUrl, fetch)
    ensures LoadFrom(ids, acc, lang, baseUrl, fetch).Err? ==>
      exists i :: 0 <= i < |ids| && Fails(ids[i], lang, baseUrl, fetch)
        && (forall j :: 0 <= j < i ==> !Fails(ids[j], lang, baseUrl, fetch))
        && LoadFrom(ids, acc, lang, baseUrl, fetch).error == PlaceNotFound(ids[i])
  {
    LoadErrIff(ids, acc, lang, baseUrl, fetch);
    if LoadFrom(ids, acc, lang, baseUrl, fetch).Err? {
      LoadErrNamesFirst(ids, acc, lang, baseUrl, fetch);
    }
  }

  /** The dict after the lookup of `id` succeeds. */
  function Next(acc: Locations, id: string, lang: string, baseUrl: string, fetch: string -> PlaceResponse): Locations
    requires !Fails(id, lang, baseUrl, fetch)
  {
    var rec := Lookup(fetch(PlaceUrl(baseUrl, id)), lang).value;
    OrderedDict.Put(acc, rec.0, rec.1)
  }

  /** The load's first step: a failing lookup stops it with a 404 naming the
      id, any other goes on with the record assigned. */
  lemma LoadUnfold(ids: seq<string>, acc: Locations, lang: string, baseUrl: string,
                   fetch: string -> PlaceResponse)
    requires ids != []
    ensures Fails(ids[0], lang, baseUrl, fetch) ==>
      LoadFrom(ids, acc, lang, baseUrl, fetch) == Err(PlaceNotFound(ids[0]))
    ensures !Fails(ids[0], lang, baseUrl, fetch) ==>
      LoadFrom(ids, acc, lang, baseUrl, fetch) ==
        LoadFrom(ids[1..], Next(acc, ids[0], lang, baseUrl, fetch), lang, baseUrl, fetch)
  {
  }

  lemma {:induction false} LoadErrIff(ids: seq<string>, acc: Locations, lang: string, baseUrl: string,
                                      fetch: string -> PlaceResponse)
    ensures LoadFrom(ids, acc, lang, baseUrl, fetch).Err? <==>
      exists i :: 0 <= i < |ids| && Fails(ids[i], lang, baseUrl, fetch)
  {
    if ids != [] {
      LoadUnfold(ids, acc, lang, baseUrl, fetch);
    }
    if ids != [] && !Fails(ids[0], lang, baseUrl, fetch) {
      var tail := ids[1..];
      LoadErrIff(tail, Next(acc, ids[0], lang, baseUrl, fetch), lang, baseUrl, fetch);
      if exists i :: 0 <= i < |ids| && Fails(ids[i], lang, baseUrl, fetch) {
        var i :| 0 <= i < |ids| && Fails(ids[i], lang, baseUrl, fetch);
        assert tail[i - 1] == ids[i];
      }
      if exists i :: 0 <= i < |tail| && Fails(tail[i], lang, baseUrl, fetch) {
        var i :| 0 <= i < |tail| && Fails(tail[i], lang, baseUrl, fetch);
        assert ids[i + 1] == tail[i];
      }
    }
  }

  lemma {:induction false} LoadErrNamesFirst(ids: seq<string>, acc: Locations, lang: string, baseUrl: string,
                                             fetch: string -> PlaceResponse)
    requires LoadFrom(ids, acc, lang, baseUrl, fetch).Err?
    ensures exists i :: (0 <= i < |ids| && Fails(ids[i], lang, baseUrl, fetch)
                         && (forall j :: 0 <= j < i ==> !Fails(ids[j], lang, baseUrl, fetch))
                         && LoadFrom(ids, acc, lang, baseUrl, fetch).error == PlaceNotFound(ids[i]))
  {
    LoadUnfold(ids, acc, lang, baseUrl, fetch);
    if !Fails(ids[0], lang, baseUrl, fetch) {
      var acc' := Next(acc, ids[0], lang, baseUrl, fetch);
      var tail := ids[1..];
      LoadErrNamesFirst(tail, acc', lang, baseUrl, fetch);
      var i :| 0 <= i < |tail| && Fails(tail[i], lang, baseUrl, fetch)
        && (forall j :: 0 <= j < i ==> !Fails(tail[j], lang, baseUrl, fetch))
        && LoadFrom(tail, acc', lang, baseUrl, fetch).error == PlaceNotFound(tail[i]);
      assert ids[i + 1] == tail[i];
      assert forall j :: 0 < j < i + 1 ==> ids[j] == tail[j - 1];
    }
  }

  /** The `@id` key and record of each id's lookup, when all succeed. */
  function Records(ids: seq<string>, lang: string, baseUrl: string, fetch: string -> PlaceResponse)
    : seq<(Option<string>, Location)>
    requires forall i :: 0 <= i < |ids| ==> !Fails(ids[i], lang, baseUrl, fetch)
  {
    if ids == [] then []
    else
      assert !Fails(ids[0], lang, baseUrl, fetch);
      [Lookup(fetch(PlaceUrl(baseUrl, ids[0])), lang).value] + Records(ids[1..], lang, baseUrl, fetch)
  }

  /** The dict built by assigning each record in turn. Assigning to a key
      that is already there keeps its place, so the keys of `acc` stay first,
      in their order, and each record adds at most one key. */
  function Assign(acc: Locations, recs: seq<(Option<string>, Location)>): (r: Locations)
    ensures |acc| <= |r| <= |acc| + |recs|
    ensures OrderedDict.KeysOf(r)[..|acc|] == OrderedDict.KeysOf(acc)
    decreases |recs|
  {
    if recs == [] then acc
    else
      var acc' := OrderedDict.Put(acc, recs[0].0, recs[0].1);
      OrderedDict.PutKeys(acc, recs[0].0, recs[0].1);
      var r := Assign(acc', recs[1..]);
      KeysPrefixTrans(acc, acc', r);
      r
  }

  lemma {:induction false} LoadSucceeds(ids: seq<string>, acc: Locations, lang: string, baseUrl: string,
                                        fetch: string -> PlaceResponse)
    requires forall i :: 0 <= i < |ids| ==> !Fails(ids[i], lang, baseUrl, fetch)
    ensures LoadFrom(ids, acc, lang, baseUrl, fetch) == Ok(Assign(acc, Records(ids, lang, baseUrl, fetch)))
  {
    if ids != [] {
      LoadSucceeds(ids[1..], OrderedDict.Put(acc, Records(ids, lang, baseUrl, fetch)[0].0,
                                              Records(ids, lang, baseUrl, fetch)[0].1), lang, baseUrl, fetch);
      assert Records(ids, lang, baseUrl, fetch)[1..] == Records(ids[1..], lang, baseUrl, fetch);
    }
  }

  /** Keyed by `@id`, later wins: after the assignments, the keys are those of
      `acc` and of the records; a key of some record maps to the location of
      the LAST record with that key; any other key keeps its value in `acc`;
      and the keys stay distinct. */
  lemma AssignSpec(acc: Locations, recs: seq<(Option<string>, Location)>, k: Option<string>)
    requires OrderedDict.DistinctKeys(acc)
    ensures OrderedDict.DistinctKeys(Assign(acc, recs))
    ensures (exists i :: 0 <= i < |recs| && recs[i].0 == k) ==>
      exists i :: 0 <= i < |recs| && recs[i].0 == k
        && (forall j :: i < j < |recs| ==> recs[j].0 != k)
        && OrderedDict.Get(Assign(acc, recs), k) == Some(recs[i].1)
    ensures (forall i :: 0 <= i < |recs| ==> recs[i].0 != k) ==>
      OrderedDict.Get(Assign(acc, recs), k) == OrderedDict.Get(acc, k)
  {
    AssignDistinct(acc, recs);
    if exists i :: 0 <= i < |recs| && recs[i].0 == k {
      AssignLastWins(acc, recs, k);
    } else {
      AssignKeepsOthers(acc, recs, k);
    }
  }

  lemma {:induction false} AssignDistinct(acc: Locations, recs: seq<(Option<string>, Location)>)
    requires OrderedDict.DistinctKeys(acc)
    ensures OrderedDict.DistinctKeys(Assign(acc, recs))
    decreases |recs|
  {
    if recs != [] {
      OrderedDict.PutDistinct(acc, recs[0].0, recs[0].1);
      AssignDistinct(OrderedDict.Put(acc, recs[0].0, recs[0].1), recs[1..]);
    }
  }

  lemma {:induction false} AssignKeepsOthers(acc: Locations, recs: seq<(Option<string>, Location)>, k: Option<string>)
    requires forall i :: 0 <= i < |recs| ==> recs[i].0 != k
    ensures OrderedDict.Get(Assign(acc, recs), k) == OrderedDict.Get(acc, k)
    decreases |recs|
  {
    if recs != [] {
      OrderedDict.PutGetOther(acc, recs[0].0, recs[0].1, k);
      assert forall j :: 0 <= j < |recs[1..]| ==> recs[1..][j] == recs[j + 1];
      AssignKeepsOthers(OrderedDict.Put(acc, recs[0].0, recs[0].1), recs[1..], k);
    }
  }

  lemma {:induction false} AssignLastWins(acc: Locations, recs: seq<(Option<string>, Location)>, k: Option<string>)
    requires exists i :: 0 <= i < |recs| && recs[i].0 == k
    ensures exists i :: (0 <= i < |recs| && recs[i].0 == k
                         && (forall j :: i < j < |recs| ==> recs[j].0 != k)
                         && OrderedDict.Get(Assign(acc, recs), k) == Some(recs[i].1))
    decreases |recs|, 1
  {
    if exists i :: 1 <= i < |recs| && recs[i].0 == k {
      AssignLastWinsLater(acc, recs, k);
    } else {
      AssignLastWinsFirst(acc, recs, k);
    }
  }

  /** The last record with the key is not the first one. */
  lemma {:induction false} AssignLastWinsLater(acc: Locations, recs: seq<(Option<string>, Location)>, k: Option<string>)
    requires exists i :: 1 <= i < |recs| && recs[i].0 == k
    ensures exists i :: (0 <= i < |recs| && recs[i].0 == k
                         && (forall j :: i < j < |recs| ==> recs[j].0 != k)
                         && OrderedDict.Get(Assign(acc, recs), k) == Some(recs[i].1))
    decreases |recs|, 0
  {
    var acc' := OrderedDict.Put(acc, recs[0].0, recs[0].1);
    var tail := recs[1..];
    assert exists i :: 0 <= i < |tail| && tail[i].0 == k by {
      var i :| 1 <= i < |recs| && recs[i].0 == k;
      assert tail[i - 1] == recs[i];
    }
    AssignLastWins(acc', tail, k);
    var i :| 0 <= i < |tail| && tail[i].0 == k
      && (forall j :: i < j < |tail| ==> tail[j].0 != k)
      && OrderedDict.Get(Assign(acc', tail), k) == Some(tail[i].1);
    assert Assign(acc, recs) == Assign(acc', tail);
    assert recs[i + 1] == tail[i];
    assert forall j :: i + 1 < j < |recs| ==> recs[j] == tail[j - 1];
  }

  /** The only record with the key is the first one. */
  lemma AssignLastWinsFirst(acc: Locations, recs: seq<(Option<string>, Location)>, k: Option<string>)
    requires recs != [] && recs[0].0 == k
    requires !exists i :: 1 <= i < |recs| && recs[i].0 == k
    ensures OrderedDict.Get(Assign(acc, recs), k) == Some(recs[0].1)
  {
    var acc' := OrderedDict.Put(acc, recs[0].0, recs[0].1);
    var tail := recs[1..];
    forall i | 0 <= i < |tail| ensures tail[i].0 != k {
      assert tail[i] == recs[i + 1];
    }
    OrderedDict.PutGetSame(acc, recs[0].0, recs[0].1);
    AssignKeepsOthers(acc', tail, k);
    assert Assign(acc, recs) == Assign(acc', tail);
  }
}
