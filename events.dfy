/** `get_linked_events_for_location` and `get_events` (src/main.py): the
    places are loaded, the event listing is fetched, each event becomes a
    feed item, and the items are wrapped in a channel named after the places.
    The call is memoised by the timed cache, and the endpoint validates its
    query before calling it. */
module Events {
  import opened Wrappers
  import opened Text
  import opened Json
  import opened Resolver
  import opened Models
  import opened EventFields
  import opened Traverse
  import Locations
  import OrderedDict
  import Rfc822
  import Validators
  import TtlCache
  import RssResponse

  /** The deployment settings. */
  datatype Config = Config(
    linkedEventsBaseUrl: string,
    feedBaseUrl: string,
    eventUrlTemplate: Option<UrlTemplate>,
    cacheTtl: int)

  /** What the call consults outside itself: the place and event APIs, the
      image host, the date parser, and the two readings of the clock taken
      for the channel's dates. */
  datatype World = World(
    fetchPlace: string -> Locations.PlaceResponse,
    fetchEvents: string -> Option<Json>,
    fetchImage: string -> ImageFetch,
    parseDate: string -> Option<Rfc822.ValidDateTime>,
    published: Rfc822.ValidDateTime,
    built: Rfc822.ValidDateTime)

  /** The arguments of `get_linked_events_for_location`, which are also the
      memo key. */
  datatype Query = Query(locationString: string, lang: string, fetchImageData: bool, includeCategories: bool)

  /** Everything one event is converted against. */
  datatype Context = Context(cfg: Config, world: World, query: Query, locations: Locations.Locations)

  // ---------------------------------------------------------------------------
  // One item (src/main.py:124-206)

  /** The title in the preferred language, else the first name given. */
  function EventTitle(event: Json, lang: string): (r: Option<string>)
    ensures Resolves(event, "$.name.*", "$.name." + lang, "$.name.*", r)
  {
    GetPreferredOrFirst(event, "$.name.*", "$.name." + lang, "$.name.*")
  }

  /** The short description in the preferred language, else the first one. */
  function ShortDescription(event: Json, lang: string): (r: Option<string>)
    ensures Resolves(event, "$.short_description", "$.short_description." + lang, "$.short_description.*", r)
  {
    GetPreferredOrFirst(event, "$.short_description", "$.short_description." + lang, "$.short_description.*")
  }

  /** The organizer's address, read from `info_url.name`: the entry in the
      preferred language, else the first one. */
  function OrganizerUrl(event: Json, lang: string): (r: Option<string>)
    ensures Resolves(event, "$.info_url.name.*", "$.info_url.name." + lang, "$.info_url.name.*", r)
  {
    GetPreferredOrFirst(event, "$.info_url.name.*", "$.info_url.name." + lang, "$.info_url.name.*")
  }

  /** `dateutil.parser.parse` of a date field: a field that is missing or not
      a string (`parse(None)`) and a text the parser rejects both raise. */
  function EventDate(world: World, event: Json, field: string): (r: Result<Rfc822.ValidDateTime, FeedError>)
    ensures var text := GetPreferredOrFirst(event, "$." + field, "$." + field, "$." + field);
      && (r.Ok? <==> text.Some? && world.parseDate(text.value).Some?)
      && (r.Ok? ==> world.parseDate(text.value) == Some(r.value))
      && (r.Err? ==> r.error == BadDate(field))
  {
    match GetPreferredOrFirst(event, "$." + field, "$." + field, "$." + field)
    case None => Err(BadDate(field))
    case Some(text) =>
      match world.parseDate(text)
      case None => Err(BadDate(field))
      case Some(dt) => Ok(dt)
  }

  /** The shape every item of the feed has: the xCal fields repeat their RSS
      counterparts, the categories appear in both places, image and
      enclosure come together, the three dates are set, and the comments and
      source are left at their defaults. */
  predicate Mirrored(it: Item) {
    && it.xcalTitle == Some(it.title)
    && it.xcalUrl == it.link
    && it.xcalContent == it.description
    && it.category.Some? && it.xcalCategories == Some(XCalCategories(it.category.value))
    && (it.enclosure.Some? <==> it.xcalFeatured.Some?)
    && it.pubDate.Some? && it.xcalDtstart.Some? && it.xcalDtend.Some?
    && it.comments.None? && it.source.None?
  }

  /** The item built from an event once its categories are known. The
      exceptions are raised in argument order: the link (an unknown place),
      the author (the same unknown place), the three dates, and finally the
      title, which `Item` requires to be a string. */
  function ItemFromEvent(ctx: Context, event: Json, categories: seq<Category>): (r: Result<Item, FeedError>)
    ensures var place := OrderedDict.Get(ctx.locations, EventLocationId(event));
      && (place.None? ==> r == Err(UnknownLocationKey(EventLocationId(event))))
      && (place.Some? && EventDate(ctx.world, event, "last_modified_time").Err? ==>
            r == Err(BadDate("last_modified_time")))
      && ((place.Some? && EventDate(ctx.world, event, "last_modified_time").Ok?
            && EventDate(ctx.world, event, "start_time").Err?) ==> r == Err(BadDate("start_time")))
      && ((place.Some? && EventDate(ctx.world, event, "last_modified_time").Ok?
            && EventDate(ctx.world, event, "start_time").Ok?
            && EventDate(ctx.world, event, "end_time").Err?) ==> r == Err(BadDate("end_time")))
      && (r.Ok? <==>
            && place.Some?
            && EventDate(ctx.world, event, "last_modified_time").Ok?
            && EventDate(ctx.world, event, "start_time").Ok?
            && EventDate(ctx.world, event, "end_time").Ok?
            && EventTitle(event, ctx.query.lang).Some?)
    ensures r.Ok? ==> Mirrored(r.value)
    ensures r.Ok? ==>
      var place := OrderedDict.Get(ctx.locations, EventLocationId(event)).value;
      && r.value.author == place.email
      && r.value.xcalLocation == place.name
      && r.value.xcalLocationAddress == place.streetAddress
      && r.value.xcalLocationCity == place.locality
    ensures r.Ok? ==>
      && r.value.title == EventTitle(event, ctx.query.lang).value
      && Ok(r.value.link) == EventUrl(ctx.cfg.eventUrlTemplate, event, ctx.query.lang, ctx.locations)
      && r.value.description == ShortDescription(event, ctx.query.lang)
      && r.value.category == Some(categories)
      && r.value.guid == Some(EventGuid(ctx.cfg.linkedEventsBaseUrl, event))
      && (r.value.enclosure, r.value.xcalFeatured) ==
           ImagePair(event, ctx.query.fetchImageData, ctx.world.fetchImage)
      && r.value.xcalOrganizer == Organizer(event, ctx.query.lang)
      && r.value.xcalOrganizerUrl == OrganizerUrl(event, ctx.query.lang)
      && r.value.xcalCost == CostAsWritten(event, ctx.query.lang)
    ensures r.Ok? ==>
      && r.value.pubDate == Some(EventDate(ctx.world, event, "last_modified_time").value)
      && r.value.xcalDtstart == Some(EventDate(ctx.world, event, "start_time").value)
      && r.value.xcalDtend == Some(EventDate(ctx.world, event, "end_time").value)
  {
    var lang := ctx.query.lang;
    var (enclosure, image) := ImagePair(event, ctx.query.fetchImageData, ctx.world.fetchImage);
    var locationId := EventLocationId(event);
    match EventUrl(ctx.cfg.eventUrlTemplate, event, lang, ctx.locations)
    case Err(e) => Err(e)
    case Ok(link) =>
      var title := EventTitle(event, lang);
      var organizer := Organizer(event, lang);
      var description := ShortDescription(event, lang);
      match OrderedDict.Get(ctx.locations, locationId)
      case None => Err(UnknownLocationKey(locationId))
      case Some(place) =>
        match EventDate(ctx.world, event, "last_modified_time")
        case Err(e) => Err(e)
        case Ok(pubDate) =>
          match EventDate(ctx.world, event, "start_time")
          case Err(e) => Err(e)
          case Ok(dtstart) =>
            match EventDate(ctx.world, event, "end_time")
            case Err(e) => Err(e)
            case Ok(dtend) =>
              match title
              case None => Err(TitleMissing)
              case Some(t) =>
                Ok(Item(
                  title := t,
                  link := link,
                  description := description,
                  author := place.email,
                  category := Some(categories),
                  comments := None,
                  enclosure := enclosure,
                  guid := Some(EventGuid(ctx.cfg.linkedEventsBaseUrl, event)),
                  pubDate := Some(pubDate),
                  source := None,
                  xcalTitle := Some(t),
                  xcalFeatured := image,
                  xcalDtstart := Some(dtstart),
                  xcalDtend := Some(dtend),
                  xcalContent := description,
                  xcalUrl := link,
                  xcalCost := CostAsWritten(event, lang),
                  xcalCategories := Some(XCalCategories(categories)),
                  xcalLocation := place.name,
                  xcalLocationAddress := place.streetAddress,
                  xcalLocationCity := place.locality,
                  xcalOrganizer := organizer,
                  xcalOrganizerUrl := OrganizerUrl(event, lang)))
  }

  function Keywords(event: Json): seq<Json> {
    AllMatches(event, "$.keywords[*]")
  }

  /** The categories of an event: none unless they were asked for, and then
      one per keyword, stopping at the first keyword that raises. */
  function EventCategories(includeCategories: bool, event: Json, lang: string): Result<seq<Category>, FeedError> {
    if includeCategories then MapResults(KeywordStep(lang), Keywords(event), []) else Ok([])
  }

  /** One pass of the event loop. */
  function TransformEvent(ctx: Context, event: Json): (r: Result<Item, FeedError>)
    ensures EventCategories(ctx.query.includeCategories, event, ctx.query.lang).Err? ==>
      r == Err(EventCategories(ctx.query.includeCategories, event, ctx.query.lang).error)
    ensures EventCategories(ctx.query.includeCategories, event, ctx.query.lang).Ok? ==>
      r == ItemFromEvent(ctx, event, EventCategories(ctx.query.includeCategories, event, ctx.query.lang).value)
    ensures r.Ok? ==> Mirrored(r.value) && r.value.xcalCost == CostAsWritten(event, ctx.query.lang)
  {
    match EventCategories(ctx.query.includeCategories, event, ctx.query.lang)
    case Err(e) => Err(e)
    case Ok(categories) => ItemFromEvent(ctx, event, categories)
  }

  /** With categories asked for, an item carries one category per keyword of
      its event, in the keywords' order, each the keyword's own category;
      without, it carries none. */
  lemma ItemCategories(ctx: Context, event: Json)
    requires TransformEvent(ctx, event).Ok?
    ensures var cs := TransformEvent(ctx, event).value.category.value;
      && (!ctx.query.includeCategories ==> cs == [])
      && (ctx.query.includeCategories ==>
            && |cs| == |Keywords(event)|
            && forall i :: 0 <= i < |cs| ==> KeywordCategory(Keywords(event)[i], ctx.query.lang) == Ok(cs[i]))
  {
    var cats := EventCategories(ctx.query.includeCategories, event, ctx.query.lang);
    assert cats.Ok?;
    assert TransformEvent(ctx, event).value.category == Some(cats.value);
    if ctx.query.includeCategories {
      KeywordCategories(Keywords(event), ctx.query.lang);
    }
  }

  /** A keyword loop that succeeds gives one category per keyword, in order. */
  lemma KeywordCategories(keywords: seq<Json>, lang: string)
    requires MapResults(KeywordStep(lang), keywords, []).Ok?
    ensures var cs := MapResults(KeywordStep(lang), keywords, []).value;
      && |cs| == |keywords|
      && forall i :: 0 <= i < |cs| ==> KeywordCategory(keywords[i], lang) == Ok(cs[i])
  {
    var step := KeywordStep(lang);
    MapResultsPointwise(step, keywords);
    var cs := MapResults(step, keywords, []).value;
    forall i | 0 <= i < |cs| ensures KeywordCategory(keywords[i], lang) == Ok(cs[i]) {
      assert step(keywords[i]) == Ok(cs[i]);
    }
  }

  /** A keyword that raises ends the call with its error, even when the event
      would otherwise make a good item. */
  lemma KeywordErrorAborts(ctx: Context, event: Json, i: nat)
    requires ctx.query.includeCategories
    requires i < |Keywords(event)| && KeywordCategory(Keywords(event)[i], ctx.query.lang).Err?
    requires forall j :: 0 <= j < i ==> KeywordCategory(Keywords(event)[j], ctx.query.lang).Ok?
    ensures TransformEvent(ctx, event) == Err(KeywordCategory(Keywords(event)[i], ctx.query.lang).error)
  {
    MapResultsErr(KeywordStep(ctx.query.lang), Keywords(event), [], i);
  }

  /** The keyword loop: `categories.append(...)` per keyword. */
  method CollectCategories(keywords: seq<Json>, lang: string) returns (r: Result<seq<Category>, FeedError>)
    ensures r == MapResults(KeywordStep(lang), keywords, [])
  {
    var categories := [];
    var i := 0;
    while i < |keywords|
      invariant 0 <= i <= |keywords|
      invariant MapResults(KeywordStep(lang), keywords[i..], categories) == MapResults(KeywordStep(lang), keywords, [])
    {
      assert keywords[i..][1..] == keywords[i + 1..];
      match KeywordCategory(keywords[i], lang)
      case Err(e) =>
        return Err(e);
      case Ok(c) =>
        categories := categories + [c];
      i := i + 1;
    }
    return Ok(categories);
  }

  /** One pass of the event loop, with the keyword loop run in place. */
  method BuildItem(ctx: Context, event: Json) returns (r: Result<Item, FeedError>)
    ensures r == TransformEvent(ctx, event)
  {
    var categories: Result<seq<Category>, FeedError> := Ok([]);
    if ctx.query.includeCategories {
      categories := CollectCategories(Keywords(event), ctx.query.lang);
    }
    if categories.Err? {
      return Err(categories.error);
    }
    r := ItemFromEvent(ctx, event, categories.value);
  }

  /** The conversion applied to each event. */
  function ItemStep(ctx: Context): Json -> Result<Item, FeedError> {
    e => TransformEvent(ctx, e)
  }

  /** The event loop: `items.append(...)` per event. */
  method BuildItems(ctx: Context, events: seq<Json>) returns (r: Result<seq<Item>, FeedError>)
    ensures r == MapResults(ItemStep(ctx), events, [])
  {
    var items := [];
    var i := 0;
    while i < |events|
      invariant 0 <= i <= |events|
      invariant MapResults(ItemStep(ctx), events[i..], items) == MapResults(ItemStep(ctx), events, [])
    {
      assert events[i..][1..] == events[i + 1..];
      var item := BuildItem(ctx, events[i]);
      if item.Err? {
        return Err(item.error);
      }
      items := items + [item.value];
      i := i + 1;
    }
    return Ok(items);
  }

  // ---------------------------------------------------------------------------
  // The channel (src/main.py:208-223)

  /** The names of the places that have a non-empty one, in dict order. */
  function LocationNames(locs: Locations.Locations): (r: seq<string>)
    ensures |r| <= |locs|
    ensures forall i :: 0 <= i < |r| ==> r[i] != []
    ensures forall n :: n in r <==> n != [] && exists i :: 0 <= i < |locs| && locs[i].1.name == Some(n)
  {
    if locs == [] then []
    else
      var rest := LocationNames(locs[1..]);
      assert forall n :: (exists i :: 0 <= i < |locs[1..]| && locs[1..][i].1.name == Some(n)) <==>
                         (exists i :: 1 <= i < |locs| && locs[i].1.name == Some(n)) by {
        forall n | exists i :: 1 <= i < |locs| && locs[i].1.name == Some(n)
          ensures exists i :: 0 <= i < |locs[1..]| && locs[1..][i].1.name == Some(n)
        {
          var i :| 1 <= i < |locs| && locs[i].1.name == Some(n);
          assert locs[1..][i - 1] == locs[i];
        }
      }
      match locs[0].1.name
      case Some(n) => if n != [] then [n] + rest else rest
      case None => rest
  }

  /** Adding a place at the end adds its name, if it has a non-empty one, at
      the end of the names: the join follows the dict's order. */
  lemma {:induction false} LocationNamesAppend(locs: Locations.Locations, k: Option<string>, place: Locations.Location)
    ensures LocationNames(locs + [(k, place)]) ==
      LocationNames(locs) + (if place.name.Some? && place.name.value != [] then [place.name.value] else [])
  {
    if locs == [] {
      assert [(k, place)][1..] == [];
    } else {
      assert (locs + [(k, place)])[1..] == locs[1..] + [(k, place)];
      LocationNamesAppend(locs[1..], k, place);
    }
  }

  function ChannelTitle(locs: Locations.Locations): string {
    Join(", ", LocationNames(locs))
  }

  /** One query parameter, `key=value`, as the URLs below write it, without
      any encoding. */
  function Param(p: (string, string)): string {
    p.0 + "=" + p.1
  }

  function Params(ps: seq<(string, string)>): (r: seq<string>)
    ensures |r| == |ps|
    ensures forall i :: 0 <= i < |ps| ==> r[i] == Param(ps[i])
  {
    if ps == [] then [] else [Param(ps[0])] + Params(ps[1..])
  }

  /** A query string: the parameters joined by `&`. */
  function QueryString(ps: seq<(string, string)>): string {
    Join("&", Params(ps))
  }

  /** The parameters after the first, each with its leading `&`. */
  function ParamsAfter(ps: seq<(string, string)>): string {
    if ps == [] then "" else "&" + Param(ps[0]) + ParamsAfter(ps[1..])
  }

  lemma {:induction false} QueryStringFirst(p: (string, string), ps: seq<(string, string)>)
    ensures QueryString([p] + ps) == Param(p) + ParamsAfter(ps)
    decreases |ps|
  {
    if ps == [] {
      assert Params([p]) == [Param(p)];
    } else {
      QueryStringFirst(ps[0], ps[1..]);
      assert [ps[0]] + ps[1..] == ps;
      assert Params([p] + ps) == [Param(p)] + Params(ps);
      assert Params([p] + ps)[1..] == Params(ps);
    }
  }

  lemma ParamsAfterOne(p: (string, string))
    ensures ParamsAfter([p]) == "&" + Param(p)
  {
    assert [p][1..] == [];
  }

  lemma ParamsAfterTwo(p: (string, string), p2: (string, string))
    ensures ParamsAfter([p, p2]) == "&" + Param(p) + ("&" + Param(p2))
  {
    assert [p, p2][1..] == [p2];
    ParamsAfterOne(p2);
  }

  /** Regrouping the pieces of a URL. */
  lemma UrlGlue(base: string, h: string, l: string, s2: string, g: string, t1: string, t2: string,
                pre: string, a: string, b: string)
    requires h + l == pre + a
    requires s2 + g == b
    ensures base + h + l + s2 + g + t1 + t2 == base + pre + (a + (b + (t1 + t2)))
  {
    calc {
      base + h + l + s2 + g + t1 + t2;
      { ConcatAssoc(base, h, l); }
      base + (pre + a) + s2 + g + t1 + t2;
      { ConcatAssoc(base + (pre + a), s2, g); }
      base + (pre + a) + b + t1 + t2;
      { ConcatAssoc(base + (pre + a) + b, t1, t2); ConcatAssoc(base + (pre + a), b, t1 + t2); }
      base + (pre + a) + (b + (t1 + t2));
      { ConcatAssoc(base, pre + a, b + (t1 + t2)); ConcatAssoc(base, pre, a);
        ConcatAssoc(base + pre, a, b + (t1 + t2)); }
      base + pre + (a + (b + (t1 + t2)));
    }
  }

  // The literal pieces of the two URLs, parameter by parameter.

  lemma FeedHeadText(lit: string, pre: string, k: string, v: string)
    requires k == "location" && lit == "/events?location=" && pre == "/events?"
    ensures lit + v == pre + Param((k, v))
  {
  }

  lemma LanguageText(lit: string, k: string, v: string)
    requires k == "preferred_language" && lit == "&preferred_language="
    ensures lit + v == "&" + Param((k, v))
  {
  }

  lemma ImageFlagText(lit: string, k: string, v: string)
    requires k == "fetch_image_data" && v == "true" && lit == "&fetch_image_data=true"
    ensures lit == "&" + Param((k, v))
  {
  }

  lemma CategoryFlagText(lit: string, k: string, v: string)
    requires k == "include_categories" && v == "true" && lit == "&include_categories=true"
    ensures lit == "&" + Param((k, v))
  {
  }

  lemma EventsHeadText(h1: string, h2: string, pre: string, k: string, v: string)
    requires k == "location" && h1 == "/event/" && h2 == "?location=" && pre == "/event/?"
    ensures h1 + h2 + v == pre + Param((k, v))
  {
  }

  lemma KeywordsText(lit: string, k: string, v: string)
    requires k == "include" && v == "keywords" && lit == "&include=keywords"
    ensures lit == "&" + Param((k, v))
  {
  }

  lemma WindowText(lit: string, k: string, v: string, k2: string, v2: string)
    requires k == "days" && v == "31" && k2 == "sort" && v2 == "start_time" && lit == "&days=31&sort=start_time"
    ensures lit == "&" + Param((k, v)) + ("&" + Param((k2, v2)))
  {
  }

  /** The parameters of the feed's own link: the place ids and the language,
      then each flag that is set. */
  function FeedParams(q: Query): seq<(string, string)> {
    [("location", q.locationString), ("preferred_language", q.lang)]
    + (if q.fetchImageData then [("fetch_image_data", "true")] else [])
    + (if q.includeCategories then [("include_categories", "true")] else [])
  }

  /** The channel's link back to this feed's own query: the feed's address
      with the query's parameters. */
  function FeedLink(feedBaseUrl: string, q: Query): (r: string)
    ensures r == feedBaseUrl + "/events?" + QueryString(FeedParams(q))
  {
    FeedLinkText(feedBaseUrl, q, "/events?location=", "&preferred_language=", "/events?",
                 "&fetch_image_data=true", "&include_categories=true");
    feedBaseUrl + "/events?location=" + q.locationString
      + "&preferred_language=" + q.lang
      + (if q.fetchImageData then "&fetch_image_data=true" else "")
      + (if q.includeCategories then "&include_categories=true" else "")
  }

  lemma FlagsText(q: Query, t1: string, t2: string)
    requires t1 == (if q.fetchImageData then "&fetch_image_data=true" else "")
    requires t2 == (if q.includeCategories then "&include_categories=true" else "")
    ensures t1 + t2 == ParamsAfter(FeedParams(q)[2..])
  {
    var img, cat := ("fetch_image_data", "true"), ("include_categories", "true");
    var t := FeedParams(q)[2..];
    assert t == (if q.fetchImageData then [img] else []) + (if q.includeCategories then [cat] else []);
    if q.fetchImageData { ImageFlagText(t1, img.0, img.1); }
    if q.includeCategories { CategoryFlagText(t2, cat.0, cat.1); }
    if q.fetchImageData && q.includeCategories {
      ParamsAfterTwo(img, cat);
    } else if q.fetchImageData {
      ParamsAfterOne(img);
      assert t1 + t2 == t1;
    } else if q.includeCategories {
      ParamsAfterOne(cat);
      assert t1 + t2 == t2;
    } else {
      assert t == [];
    }
  }

  lemma FeedLinkText(base: string, q: Query, h: string, s2: string, pre: string, f1: string, f2: string)
    requires h == "/events?location=" && s2 == "&preferred_language=" && pre == "/events?"
    requires f1 == "&fetch_image_data=true" && f2 == "&include_categories=true"
    ensures base + h + q.locationString + s2 + q.lang
      + (if q.fetchImageData then f1 else "")
      + (if q.includeCategories then f2 else "")
      == base + pre + QueryString(FeedParams(q))
  {
    var ps := FeedParams(q);
    var t1 := if q.fetchImageData then f1 else "";
    var t2 := if q.includeCategories then f2 else "";
    FlagsText(q, t1, t2);
    FeedHeadText(h, pre, ps[0].0, q.locationString);
    LanguageText(s2, ps[1].0, q.lang);
    assert ps == [ps[0]] + ps[1..];
    QueryStringFirst(ps[0], ps[1..]);
    assert ps[1..] == [ps[1]] + ps[2..];
    assert ps[1..][1..] == ps[2..];
    assert ParamsAfter(ps[1..]) == "&" + Param(ps[1]) + ParamsAfter(ps[2..]);
    UrlGlue(base, h, q.locationString, s2, q.lang, t1, t2, pre, Param(ps[0]), "&" + Param(ps[1]));
  }

  /** When neither the place ids nor the language hold an `&`, splitting the
      link's query string at `&` gives back exactly its parameters, the flags
      included. */
  lemma FeedLinkParameters(q: Query)
    requires '&' !in q.locationString && '&' !in q.lang
    ensures Split(QueryString(FeedParams(q)), '&') == Params(FeedParams(q))
  {
    var ps := Params(FeedParams(q));
    forall k | 0 <= k < |ps| ensures '&' !in ps[k] {
      var p := FeedParams(q)[k];
      assert '&' !in p.0 && '&' !in p.1;
      assert ps[k] == p.0 + "=" + p.1;
    }
    SplitJoin(ps, '&');
  }

  /** The parameters of the event listing's URL: the places, keywords when
      categories are asked for, the next 31 days, by start time. */
  function EventsParams(q: Query): seq<(string, string)> {
    [("location", q.locationString)]
    + (if q.includeCategories then [("include", "keywords")] else [])
    + [("days", "31"), ("sort", "start_time")]
  }

  /** The event listing's URL: the events endpoint with the listing's
      parameters. */
  function EventsUrl(baseUrl: string, q: Query): (r: string)
    ensures r == baseUrl + "/event/?" + QueryString(EventsParams(q))
  {
    EventsUrlText(baseUrl, q, "/event/", "?location=", "/event/?", "&include=keywords", "&days=31&sort=start_time");
    baseUrl + "/event/" + "?location=" + q.locationString
      + (if q.includeCategories then "&include=keywords" else "")
      + "&days=31&sort=start_time"
  }

  lemma EventsUrlText(base: string, q: Query, h1: string, h2: string, pre: string, inc: string, window: string)
    requires h1 == "/event/" && h2 == "?location=" && pre == "/event/?"
    requires inc == "&include=keywords" && window == "&days=31&sort=start_time"
    ensures base + h1 + h2 + q.locationString + (if q.includeCategories then inc else "") + window
      == base + pre + QueryString(EventsParams(q))
  {
    var ps := EventsParams(q);
    var t := if q.includeCategories then inc else "";
    var days, sort := ("days", "31"), ("sort", "start_time");
    EventsHeadText(h1, h2, pre, ps[0].0, q.locationString);
    WindowText(window, days.0, days.1, sort.0, sort.1);
    ParamsAfterTwo(days, sort);
    assert ps == [ps[0]] + ps[1..];
    QueryStringFirst(ps[0], ps[1..]);
    if q.includeCategories {
      KeywordsText(inc, "include", "keywords");
      assert ps[1..] == [("include", "keywords")] + [days, sort];
      assert ps[1..][1..] == [days, sort];
    } else {
      assert ps[1..] == [days, sort];
    }
    assert ParamsAfter(ps[1..]) == t + window;
    EventsGlue(base, h1, h2, q.locationString, t, window, pre, Param(ps[0]));
  }

  lemma EventsGlue(base: string, h1: string, h2: string, l: string, t: string, w: string, pre: string, a: string)
    requires h1 + h2 + l == pre + a
    ensures base + h1 + h2 + l + t + w == base + pre + (a + (t + w))
  {
    calc {
      base + h1 + h2 + l + t + w;
      { ConcatAssoc(base + h1, h2, l); ConcatAssoc(base, h1, h2 + l); ConcatAssoc(h1, h2, l); }
      base + (pre + a) + t + w;
      { ConcatAssoc(base + (pre + a), t, w); ConcatAssoc(base, pre + a, t + w);
        ConcatAssoc(base, pre, a); ConcatAssoc(base + pre, a, t + w); }
      base + pre + (a + (t + w));
    }
  }

  /** The channel dict as `Channel` validates it: the given fields, and the
      defaults for the rest. */
  function AssembleChannel(ctx: Context, items: seq<Item>): (c: Channel)
    ensures c.title == ChannelTitle(ctx.locations) && c.description == Some(c.title)
    ensures c.link == Some(FeedLink(ctx.cfg.feedBaseUrl, ctx.query))
    ensures c.language == Some("")
    ensures c.pubDate == Some(ctx.world.published) && c.lastBuildDate == Some(ctx.world.built)
    ensures c.ttl == ctx.cfg.cacheTtl && c.item == items
    ensures c.generator == DefaultChannel().generator && c.docs == DefaultChannel().docs
    ensures c.category == Some([])
    ensures c.copyright.None? && c.managingEditor.None? && c.webmaster.None? && c.cloud.None?
    ensures c.image.None? && c.rating.None? && c.textInput.None? && c.skipHours.None? && c.skipDays.None?
  {
    var title := ChannelTitle(ctx.locations);
    DefaultChannel().(
      title := title,
      link := Some(FeedLink(ctx.cfg.feedBaseUrl, ctx.query)),
      description := Some(title),
      language := Some(""),
      pubDate := Some(ctx.world.published),
      lastBuildDate := Some(ctx.world.built),
      ttl := ctx.cfg.cacheTtl,
      item := items)
  }

  // ---------------------------------------------------------------------------
  // The whole call

  function LoadPlaces(cfg: Config, world: World, q: Query): Result<Locations.Locations, Locations.PlaceNotFound> {
    Locations.LoadFrom(Split(q.locationString, ','), [], q.lang, cfg.linkedEventsBaseUrl, world.fetchPlace)
  }

  /** The event loop succeeds exactly when every event converts, and then
      holds one item per event, in the listing's order. */
  lemma EventItems(ctx: Context, events: seq<Json>)
    ensures MapResults(ItemStep(ctx), events, []).Ok? <==>
      forall i :: 0 <= i < |events| ==> TransformEvent(ctx, events[i]).Ok?
    ensures MapResults(ItemStep(ctx), events, []).Ok? ==>
      var items := MapResults(ItemStep(ctx), events, []).value;
      && |items| == |events|
      && forall i :: 0 <= i < |events| ==> TransformEvent(ctx, events[i]) == Ok(items[i])
  {
    var step := ItemStep(ctx);
    MapResultsOkIff(step, events, []);
    assert forall i :: 0 <= i < |events| ==> step(events[i]) == TransformEvent(ctx, events[i]);
    if MapResults(step, events, []).Ok? {
      MapResultsPointwise(step, events);
    }
  }

  /** One item per event, in the listing's order, each that event's
      conversion. */
  predicate ItemsOf(ctx: Context, events: seq<Json>, items: seq<Item>) {
    && |items| == |events|
    && forall i :: 0 <= i < |events| ==> TransformEvent(ctx, events[i]) == Ok(items[i])
  }

  /** The feed made from the events of the listing, or the first error
      their conversion raises. */
  function FeedOf(ctx: Context, events: seq<Json>): (r: Result<RssFeed, FeedError>)
    ensures r.Ok? <==> forall i :: 0 <= i < |events| ==> TransformEvent(ctx, events[i]).Ok?
    ensures r.Ok? ==>
      && r.value.version == "2.0"
      && r.value.content == AssembleChannel(ctx, r.value.content.item)
      && ItemsOf(ctx, events, r.value.content.item)
  {
    EventItems(ctx, events);
    match MapResults(ItemStep(ctx), events, [])
    case Err(e) => Err(e)
    case Ok(items) => Ok(NewFeed(AssembleChannel(ctx, items)))
  }

  /** The events of the listing fetched for a query: the `data` array of the
      response, or `None` when the listing cannot be read. */
  function Listing(cfg: Config, world: World, q: Query): Option<seq<Json>> {
    match world.fetchEvents(EventsUrl(cfg.linkedEventsBaseUrl, q))
    case None => None
    case Some(listing) => Some(AllMatches(listing, "$.data[*]"))
  }

  /** `get_linked_events_for_location`. */
  function LinkedEvents(cfg: Config, world: World, q: Query): (r: Result<RssFeed, FeedError>)
    ensures LoadPlaces(cfg, world, q).Err? ==> r == Err(UnknownPlace(LoadPlaces(cfg, world, q).error.loc))
    ensures LoadPlaces(cfg, world, q).Ok? && world.fetchEvents(EventsUrl(cfg.linkedEventsBaseUrl, q)).None? ==>
      r == Err(EventsUnreadable)
    ensures r.Ok? ==>
      && LoadPlaces(cfg, world, q).Ok? && Listing(cfg, world, q).Some?
      && ItemsOf(Context(cfg, world, q, LoadPlaces(cfg, world, q).value), Listing(cfg, world, q).value,
                 r.value.content.item)
      && forall i :: 0 <= i < |r.value.content.item| ==>
           r.value.content.item[i].xcalCost == CostAsWritten(Listing(cfg, world, q).value[i], q.lang)
    ensures r.Ok? ==>
      && r.value.version == "2.0"
      && r.value.content.description == Some(r.value.content.title)
      && forall i :: 0 <= i < |r.value.content.item| ==> Mirrored(r.value.content.item[i])
  {
    match LoadPlaces(cfg, world, q)
    case Err(e) => Err(UnknownPlace(e.loc))
    case Ok(locations) =>
      match world.fetchEvents(EventsUrl(cfg.linkedEventsBaseUrl, q))
      case None => Err(EventsUnreadable)
      case Some(listing) =>
        FeedOf(Context(cfg, world, q, locations), AllMatches(listing, "$.data[*]"))
  }

  /** The call fails with a 404 naming the first place whose lookup fails,
      before any event is fetched. */
  lemma PlaceFailureFirst(cfg: Config, world: World, q: Query, i: nat)
    requires var ids := Split(q.locationString, ',');
      && i < |ids| && Locations.Fails(ids[i], q.lang, cfg.linkedEventsBaseUrl, world.fetchPlace)
      && forall j :: 0 <= j < i ==> !Locations.Fails(ids[j], q.lang, cfg.linkedEventsBaseUrl, world.fetchPlace)
    ensures LinkedEvents(cfg, world, q) == Err(UnknownPlace(Split(q.locationString, ',')[i]))
  {
    var ids := Split(q.locationString, ',');
    Locations.LoadFailsAtFirst(ids, [], q.lang, cfg.linkedEventsBaseUrl, world.fetchPlace);
    var k :| 0 <= k < |ids| && Locations.Fails(ids[k], q.lang, cfg.linkedEventsBaseUrl, world.fetchPlace)
      && (forall j :: 0 <= j < k ==> !Locations.Fails(ids[j], q.lang, cfg.linkedEventsBaseUrl, world.fetchPlace))
      && LoadPlaces(cfg, world, q).error == Locations.PlaceNotFound(ids[k]);
    assert k == i;
  }

  /** An event that cannot be converted ends the call: the feed fails with
      the error of the first such event in the listing, and no feed is made
      from the others. */
  lemma BadEventAborts(cfg: Config, world: World, q: Query)
    requires LoadPlaces(cfg, world, q).Ok?
    requires world.fetchEvents(EventsUrl(cfg.linkedEventsBaseUrl, q)).Some?
    requires var ctx := Context(cfg, world, q, LoadPlaces(cfg, world, q).value);
      var events := AllMatches(world.fetchEvents(EventsUrl(cfg.linkedEventsBaseUrl, q)).value, "$.data[*]");
      exists i :: 0 <= i < |events| && TransformEvent(ctx, events[i]).Err?
    ensures var ctx := Context(cfg, world, q, LoadPlaces(cfg, world, q).value);
      var events := AllMatches(world.fetchEvents(EventsUrl(cfg.linkedEventsBaseUrl, q)).value, "$.data[*]");
      LinkedEvents(cfg, world, q) == Err(TransformEvent(ctx, events[FirstFailure(ItemStep(ctx), events)]).error)
  {
    var ctx := Context(cfg, world, q, LoadPlaces(cfg, world, q).value);
    var events := AllMatches(world.fetchEvents(EventsUrl(cfg.linkedEventsBaseUrl, q)).value, "$.data[*]");
    MapResultsErr(ItemStep(ctx), events, [], FirstFailure(ItemStep(ctx), events));
  }

  /** The call as the source runs it: the place loop, the fetch, the event
      loop. */
  method GetLinkedEventsForLocation(cfg: Config, world: World, q: Query) returns (r: Result<RssFeed, FeedError>)
    ensures r == LinkedEvents(cfg, world, q)
  {
    var places := Locations.GetLocations(q.locationString, q.lang, cfg.linkedEventsBaseUrl, world.fetchPlace);
    if places.Err? {
      return Err(UnknownPlace(places.error.loc));
    }
    var listing := world.fetchEvents(EventsUrl(cfg.linkedEventsBaseUrl, q));
    if listing.None? {
      return Err(EventsUnreadable);
    }
    var ctx := Context(cfg, world, q, places.value);
    var items := BuildItems(ctx, AllMatches(listing.value, "$.data[*]"));
    if items.Err? {
      return Err(items.error);
    }
    r := Ok(NewFeed(AssembleChannel(ctx, items.value)));
  }

  // ---------------------------------------------------------------------------
  // The endpoint (src/main.py:226-239)

  /** Why the endpoint gives no feed: the query fails validation (422), or
      the call raises. */
  datatype Refusal = Rejected(reason: Validators.Unprocessable) | Failed(error: FeedError)

  /** `GET /events`: the query is validated, then answered through the timed
      cache, and the feed is wrapped in an `RSSResponse`. The feed reaches the
      response as a model object whose XML text is `render(feed)`, and the
      response is built with the intended `render`, which serializes it; with
      `render` as written the constructor raises (`FeedBodyRaises`). */
  method GetEvents(cfg: Config, cache: TtlCache.TimedCache<World, Query, RssFeed, FeedError>,
                   clock: int, world: World, q: Query,
                   render: RssFeed -> string, sha1hex: string -> string)
    returns (r: Result<RssResponse.Response, Refusal>)
    requires cache.Valid()
    requires forall w, a :: cache.func(w, a) == LinkedEvents(cfg, w, a)
    modifies cache
    ensures cache.Valid()
    ensures Validators.ValidateQuery(q.locationString, q.lang).Some? ==>
      r == Err(Rejected(Validators.ValidateQuery(q.locationString, q.lang).value)) && unchanged(cache)
    // after expiry, or on a first call, the answer is computed afresh
    ensures (Validators.ValidateQuery(q.locationString, q.lang).None? &&
      (old(cache.expiration) <= clock || q !in old(cache.memo))) ==>
      && (r.Ok? <==> LinkedEvents(cfg, world, q).Ok?)
      && (r.Err? ==> r.error == Failed(LinkedEvents(cfg, world, q).error))
      && (r.Ok? ==> r.value.body == render(LinkedEvents(cfg, world, q).value))
    // before expiry a memoised feed is served again
    ensures (Validators.ValidateQuery(q.locationString, q.lang).None? &&
      clock < old(cache.expiration) && q in old(cache.memo)) ==>
      r.Ok? && r.value.body == render(old(cache.memo)[q])
    ensures r.Ok? ==> (fresh(r.value) &&
      r.value.headers.entries == RssResponse.MergeDefaults([], RssResponse.DefaultHeaders(sha1hex(r.value.body))))
  {
    var invalid := Validators.ValidateQuery(q.locationString, q.lang);
    if invalid.Some? {
      return Err(Rejected(invalid.value));
    }
    var feed := cache.Call(clock, world, q);
    if feed.Err? {
      return Err(Failed(feed.error));
    }
    var response := new RssResponse.Response(RssResponse.Model(render(feed.value)), null, sha1hex);
    return Ok(response);
  }
}
