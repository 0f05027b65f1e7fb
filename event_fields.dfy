/** The fields of one feed item as the event loop of
    `get_linked_events_for_location` (src/main.py) resolves them from an
    event document: the keyword categories, the image and enclosure pair, the
    event link, the organizer and the cost. */
module EventFields {
  import opened Wrappers
  import opened Text
  import opened Json
  import opened Resolver
  import opened Models
  import Locations
  import OrderedDict

  /** The exceptions that end the whole call. */
  datatype FeedError =
    | UnknownPlace(loc: string)             // 404 from `get_locations`
    | EventsUnreadable                      // the event listing is not JSON
    | KeywordWithoutName                    // `None.capitalize()`
    | KeywordWithoutId                      // `find(keyword)[0]` on no match
    | KeywordIdNotText                      // a `domain` that is neither string nor null
    | UnknownLocationKey(key: Option<string>)  // `locations[location_id]`
    | BadDate(field: string)                // `dateutil.parser.parse` fails
    | TitleMissing                          // `Item(title=None)`

  // ---------------------------------------------------------------------------
  // Categories (src/main.py:126-131)

  /** The keyword's display name in the preferred language, else its first;
      none when the keyword has no `name`. */
  function KeywordName(keyword: Json, lang: string): (r: Option<string>)
    ensures Resolves(keyword, "$.name", "$.name." + lang, "$.name.*", r)
  {
    GetPreferredOrFirst(keyword, "$.name", "$.name." + lang, "$.name.*")
  }

  /** `keyword["@id"]` as `Category.domain` accepts it: a string or null;
      no match raises `IndexError`, and any other value fails validation. */
  function KeywordDomain(keyword: Json): (r: Result<Option<string>, FeedError>)
    ensures FirstMatch(keyword, "$.@id").None? ==> r == Err(KeywordWithoutId)
    ensures r.Ok? <==>
      FirstMatch(keyword, "$.@id").Some? &&
      (FirstMatch(keyword, "$.@id").value.Str? || FirstMatch(keyword, "$.@id").value.Null?)
    // the `@id` as it stands, not stripped
    ensures r.Ok? ==> (r.value.Some? <==> FirstMatch(keyword, "$.@id").value.Str?)
    ensures r.Ok? && r.value.Some? ==> r.value.value == FirstMatch(keyword, "$.@id").value.s
  {
    match FirstMatch(keyword, "$.@id")
    case None => Err(KeywordWithoutId)
    case Some(Str(id)) => Ok(Some(id))
    case Some(Null) => Ok(None)
    case Some(_) => Err(KeywordIdNotText)
  }

  /** `Category(content=name.capitalize(), domain=keyword["@id"])`; the name
      is resolved first, so a keyword without a name fails on that. */
  function KeywordCategory(keyword: Json, lang: string): (r: Result<Category, FeedError>)
    ensures KeywordName(keyword, lang).None? ==> r == Err(KeywordWithoutName)
    ensures KeywordName(keyword, lang).Some? ==>
      && (KeywordDomain(keyword).Err? ==> r == Err(KeywordDomain(keyword).error))
      && (KeywordDomain(keyword).Ok? ==> r.Ok? && r.value.domain == KeywordDomain(keyword).value)
    // the content is the name, letter for letter up to case, in capitalized form
    ensures r.Ok? ==>
      && |r.value.content| == |KeywordName(keyword, lang).value|
      && Capitalize(r.value.content) == r.value.content
      && forall i :: 0 <= i < |r.value.content| ==>
           Lower(r.value.content[i]) == Lower(KeywordName(keyword, lang).value[i])
  {
    match KeywordName(keyword, lang)
    case None => Err(KeywordWithoutName)
    case Some(name) =>
      CapitalizeIdempotent(name);
      CapitalizeKeepsLetters(name);
      match KeywordDomain(keyword)
      case Err(e) => Err(e)
      case Ok(domain) => Ok(Category(Capitalize(name), domain))
  }

  /** The conversion applied to each keyword of an event. */
  function KeywordStep(lang: string): Json -> Result<Category, FeedError> {
    k => KeywordCategory(k, lang)
  }

  // ---------------------------------------------------------------------------
  // Image and enclosure (src/main.py:133-158)

  /** What PIL reads from the bytes: the size and the format name, if any. */
  datatype Decoded = Decoded(width: int, height: int, format: Option<string>)

  /** The outcome of `httpx.get(imageUrl)`: no response, or a status, the
      number of bytes downloaded and what PIL makes of them (None when it
      cannot open them). */
  datatype ImageFetch =
    | ImageUnreachable
    | ImageFetched(status: int, bytesDownloaded: int, decoded: Option<Decoded>)

  /** The enclosure's length and type and the image's size. */
  datatype ImageMeta = ImageMeta(length: int, width: Option<int>, height: Option<int>, mimeType: string)

  function ImageUrl(event: Json): Option<string> {
    GetPreferredOrFirst(event, "$.images[*].url", "$.images[*].url", "$.images[*].url")
  }

  function ImageName(event: Json): Option<string> {
    GetPreferredOrFirst(event, "$.images[*].name", "$.images[*].name", "$.images[*].name")
  }

  function ImageAlt(event: Json): Option<string> {
    GetPreferredOrFirst(event, "$.images[*].alt_text", "$.images[*].alt_text", "$.images[*].alt_text")
  }

  /** The metadata of a fetched image; None where the fetch branch raises (no
      response, a status other than 200, bytes PIL cannot open, or no format
      to lower-case). */
  function FetchedMeta(resp: ImageFetch): (m: Option<ImageMeta>)
    ensures m.Some? <==>
      resp.ImageFetched? && resp.status == 200 && resp.decoded.Some? && resp.decoded.value.format.Some?
    ensures m.Some? ==>
      && m.value.length == resp.bytesDownloaded
      && m.value.width == Some(resp.decoded.value.width)
      && m.value.height == Some(resp.decoded.value.height)
      && |m.value.mimeType| >= 6 && m.value.mimeType[..6] == "image/"
      && m.value.mimeType[6..] == LowerAll(resp.decoded.value.format.value)
  {
    match resp
    case ImageUnreachable => None
    case ImageFetched(status, n, decoded) =>
      if status != 200 then None
      else
        match decoded
        case None => None
        case Some(Decoded(w, h, format)) =>
          match format
          case None => None
          case Some(f) => Some(ImageMeta(n, Some(w), Some(h), "image/" + LowerAll(f)))
  }

  /** The placeholder metadata when image data is not fetched. */
  const Placeholder := ImageMeta(0, None, None, "")

  /** The enclosure and the featured image of an event. A missing `title`
      (`Image.title` is a required string) raises inside the `try`, so it
      discards both, as does any failure of the fetch. */
  function ImagePair(event: Json, fetchImageData: bool, fetchImage: string -> ImageFetch)
    : (r: (Option<Enclosure>, Option<Image>))
    // both or neither
    ensures r.0.Some? <==> r.1.Some?
    ensures r.0.Some? ==>
      && ImageUrl(event).Some? && ImageName(event).Some?
      && r.0.value.url == ImageUrl(event).value
      && r.1.value.url == ImageUrl(event).value && r.1.value.link == ImageUrl(event).value
      && r.1.value.title == ImageName(event).value
      && r.1.value.description == ImageAlt(event)
    // not fetching: the pair exists whenever there are a URL and a name, with
    // zero length, an empty type and no size
    ensures !fetchImageData ==> (r.0.Some? <==> ImageUrl(event).Some? && ImageName(event).Some?)
    ensures !fetchImageData && r.0.Some? ==>
      && r.0.value.length == 0 && r.0.value.mimeType == ""
      && r.1.value.width.None? && r.1.value.height.None?
    // fetching: the pair exists exactly when the fetch also succeeds, and
    // carries what it found
    ensures fetchImageData ==> (r.0.Some? <==>
      && ImageUrl(event).Some? && ImageName(event).Some?
      && FetchedMeta(fetchImage(ImageUrl(event).value)).Some?)
    ensures fetchImageData && r.0.Some? ==>
      var m := FetchedMeta(fetchImage(ImageUrl(event).value)).value;
      && r.0.value.length == m.length && r.0.value.mimeType == m.mimeType
      && r.1.value.width == m.width && r.1.value.height == m.height
  {
    match ImageUrl(event)
    case None => (None, None)
    case Some(url) =>
      var name := ImageName(event);
      var alt := ImageAlt(event);
      var meta := if fetchImageData then FetchedMeta(fetchImage(url)) else Some(Placeholder);
      if meta.None? || name.None? then (None, None)
      else
        var m := meta.value;
        (Some(Enclosure(url, m.length, m.mimeType)),
         Some(Image(url, name.value, url, m.width, m.height, alt)))
  }

  // ---------------------------------------------------------------------------
  // Identity, link and organizer (src/main.py:160-174, 184)

  function EventId(event: Json): Option<string> {
    GetPreferredOrFirst(event, "$.id", "$.id", "$.id")
  }

  function EventLocationId(event: Json): Option<string> {
    GetPreferredOrFirst(event, "$.location.@id", "$.location.@id", "$.location.@id")
  }

  /** How an f-string or `str.format` prints a value that may be None. */
  function Show(v: Option<string>): string {
    match v
    case None => "None"
    case Some(s) => s
  }

  /** The `EVENT_URL_TEMPLATE` setting: its text cut at each `{id}` field. */
  datatype UrlTemplate = UrlTemplate(pieces: seq<string>)

  /** `template.format(id=id)`: each `{id}` field is replaced by the id. */
  function FormatTemplate(t: UrlTemplate, id: Option<string>): string {
    Join(Show(id), t.pieces)
  }

  /** The localized `info_url` of the event. */
  function InfoUrl(event: Json, lang: string): Option<string> {
    GetPreferredOrFirst(event, "$.info_url.*", "$.info_url." + lang, "$.info_url.*")
  }

  /** The event link: the template formatted with the id when one is
      configured; else the localized `info_url`; and when that is None or
      empty, the `info_url` of the event's place, which must then be one of
      the loaded places. */
  function EventUrl(template: Option<UrlTemplate>, event: Json, lang: string, locations: Locations.Locations)
    : (r: Result<Option<string>, FeedError>)
    ensures template.Some? ==> r == Ok(Some(FormatTemplate(template.value, EventId(event))))
    ensures template.None? && InfoUrl(event, lang).Some? && InfoUrl(event, lang).value != "" ==>
      r == Ok(InfoUrl(event, lang))
    ensures template.None? && (InfoUrl(event, lang).None? || InfoUrl(event, lang).value == "") ==>
      && (OrderedDict.Get(locations, EventLocationId(event)).None? ==>
            r == Err(UnknownLocationKey(EventLocationId(event))))
      && (OrderedDict.Get(locations, EventLocationId(event)).Some? ==>
            r == Ok(OrderedDict.Get(locations, EventLocationId(event)).value.infoUrl))
    // the only error is the unknown place
    ensures r.Err? ==>
      && OrderedDict.Get(locations, EventLocationId(event)).None?
      && r.error == UnknownLocationKey(EventLocationId(event))
  {
    match template
    case Some(t) => Ok(Some(FormatTemplate(t, EventId(event))))
    case None =>
      var url := InfoUrl(event, lang);
      if url.Some? && url.value != "" then Ok(url)
      else
        match OrderedDict.Get(locations, EventLocationId(event))
        case None => Err(UnknownLocationKey(EventLocationId(event)))
        case Some(place) => Ok(place.infoUrl)
  }

  function Provider(event: Json, lang: string): Option<string> {
    GetPreferredOrFirst(event, "$.provider.*", "$.provider." + lang, "$.provider.*")
  }

  function PlaceName(event: Json, lang: string): Option<string> {
    GetPreferredOrFirst(event, "$.location.name.*", "$.location.name." + lang, "$.location.name.*")
  }

  /** The organizer: the provider, unless that is None or empty, in which case
      the name of the event's place as the event document gives it. */
  function Organizer(event: Json, lang: string): (r: Option<string>)
    ensures Provider(event, lang).Some? && Provider(event, lang).value != "" ==> r == Provider(event, lang)
    ensures Provider(event, lang).None? || Provider(event, lang).value == "" ==> r == PlaceName(event, lang)
    ensures r.Some? ==> Trimmed(r.value)
  {
    var p := Provider(event, lang);
    if p.None? || p.value == "" then PlaceName(event, lang) else p
  }

  /** The GUID: the event's address in the Linked Events API. */
  function EventGuid(baseUrl: string, event: Json): (g: Guid)
    ensures g.isPermalink.None?
    ensures |g.content| >= |baseUrl| + 7 && g.content[..|baseUrl|] == baseUrl
    ensures g.content[|baseUrl|..|baseUrl| + 7] == "/event/"
    ensures g.content[|baseUrl| + 7..] == Show(EventId(event))
  {
    Guid(baseUrl + "/event/" + Show(EventId(event)), None)
  }

  // ---------------------------------------------------------------------------
  // Cost (src/main.py:203)

  /** The cost as written: the preferred path lacks the f-string prefix, so it
      is the literal text `{preferred_language}`, which is not a path. The
      cost therefore never depends on the preferred language: whenever an
      offer price exists it is the first price in any language. */
  function CostAsWritten(event: Json, lang: string): (r: Option<string>)
    ensures Resolves(event, "$.offers[*].price", "$.offers[*].price[*].*", "$.offers[*].price[*].*", r)
  {
    CostPathDoesNotParse("$.offers[*].price[*].{preferred_language}");
    GetPreferredOrFirst(event, "$.offers[*].price", "$.offers[*].price[*].{preferred_language}", "$.offers[*].price[*].*")
  }

  /** The cost with the preferred language in the path, as the neighbouring
      fields have it: the price in the preferred language when there is one,
      else the first price in any language. */
  function Cost(event: Json, lang: string): (r: Option<string>)
    ensures Resolves(event, "$.offers[*].price", "$.offers[*].price[*]." + lang, "$.offers[*].price[*].*", r)
  {
    GetPreferredOrFirst(event, "$.offers[*].price", "$.offers[*].price[*]." + lang, "$.offers[*].price[*].*")
  }

  /** The text of the path `$.o[*].pr` followed by more steps. */
  lemma OfferPathText(o: string, pr: string, rest: Path)
    ensures PathText([Field(o), EachItem, Field(pr)] + rest) == "$." + o + "[*]." + pr + StepsText(rest)
  {
    OfferPathNested(o, pr, rest);
    OfferStepsText(o, pr, rest);
    OfferTextAssoc(o, pr, StepsText(rest));
  }

  lemma OfferPathNested(o: string, pr: string, rest: Path)
    ensures [Field(o), EachItem, Field(pr)] + rest == [Field(o)] + ([EachItem] + ([Field(pr)] + rest))
  {
  }

  lemma OfferStepsText(o: string, pr: string, rest: Path)
    ensures StepsText([Field(o)] + ([EachItem] + ([Field(pr)] + rest))) == "." + o + ("[*]" + ("." + pr + StepsText(rest)))
  {
    StepsTextPrepend(Field(pr), rest);
    StepsTextPrepend(EachItem, [Field(pr)] + rest);
    StepsTextPrepend(Field(o), [EachItem] + ([Field(pr)] + rest));
  }

  lemma OfferTextAssoc(o: string, pr: string, t: string)
    ensures "$" + ("." + o + ("[*]" + ("." + pr + t))) == "$." + o + "[*]." + pr + t
  {
  }

  /** The text of `[*]` followed by one step. */
  lemma EachThenText(last: Step)
    ensures StepsText([EachItem, last]) == "[*]" + StepText(last)
  {
    StepsTextPrepend(last, []);
    assert [last] + [] == [last];
    StepsTextPrepend(EachItem, [last]);
  }

  /** The preferred path as written does not parse: it holds a `{`. */
  lemma CostPathDoesNotParse(path: string)
    requires path == "$.offers[*].price[*].{preferred_language}"
    ensures ParsePath(path) == None
  {
    assert path[21] == '{';
    BraceDoesNotParse(path, 21);
  }

  /** An offer priced "Ilmainen" in Finnish and "Free" in English. */
  const FreeOffer: Json :=
    Obj([("offers", Arr([Obj([("price", Obj([("fi", Str("Ilmainen")), ("en", Str("Free"))]))])]))])

  lemma NamedPathText(o: string, pr: string, last: Step)
    ensures PathText([Field(o), EachItem, Field(pr), EachItem, last]) == "$." + o + "[*]." + pr + "[*]" + StepText(last)
  {
    var rest := [EachItem, last];
    OfferPathText(o, pr, rest);
    EachThenText(last);
    assert [Field(o), EachItem, Field(pr), EachItem, last] == [Field(o), EachItem, Field(pr)] + rest;
  }

  /** In a document with one offer, the step after the price object. */
  lemma PriceStepMatch(event: Json, o: string, pr: string, price: Json, last: Step)
    requires event == Obj([(o, Arr([Obj([(pr, price)])]))])
    requires price.Obj? && price.members != []
    requires IsName(o) && IsName(pr) && (last.Field? ==> IsName(last.name))
    ensures FirstMatch(event, "$." + o + "[*]." + pr + "[*]" + StepText(last)) ==
      if StepMatches(price, last) == [] then None else Some(StepMatches(price, last)[0])
  {
    var offer := Obj([(pr, price)]);
    var offers := Arr([offer]);
    var p := [Field(o), EachItem, Field(pr), EachItem, last];
    assert StepMatches(event, p[0]) == [offers];
    FindThroughSingle(event, p, offers);
    assert StepMatches(offers, p[1..][0]) == [offer];
    FindThroughSingle(offers, p[1..], offer);
    assert StepMatches(offer, p[2..][0]) == [price];
    FindThroughSingle(offer, p[2..], price);
    assert StepMatches(price, EachItem) == [price];
    FindThroughSingle(price, p[3..], price);
    FindOneStep(price, last);
    assert p[1..][1..] == p[2..] && p[2..][1..] == p[3..] && p[3..][1..] == [last];
    assert WellFormed(p);
    FirstMatchOfPath(event, p);
    NamedPathText(o, pr, last);
  }

  /** In a document with one offer, the price object itself. */
  lemma PriceMatch(event: Json, o: string, pr: string, price: Json)
    requires event == Obj([(o, Arr([Obj([(pr, price)])]))])
    requires IsName(o) && IsName(pr)
    ensures FirstMatch(event, "$." + o + "[*]." + pr) == Some(price)
  {
    var offer := Obj([(pr, price)]);
    var offers := Arr([offer]);
    var p := [Field(o), EachItem, Field(pr)];
    assert StepMatches(event, p[0]) == [offers];
    FindThroughSingle(event, p, offers);
    assert StepMatches(offers, p[1..][0]) == [offer];
    FindThroughSingle(offers, p[1..], offer);
    assert StepMatches(offer, p[2..][0]) == [price];
    FindThroughSingle(offer, p[2..], price);
    assert p[1..][1..] == p[2..] && p[2..][1..] == [];
    assert WellFormed(p);
    FirstMatchOfPath(event, p);
    OfferPathText(o, pr, []);
    assert p + [] == p;
    assert StepsText([]) == [];
    assert "$." + o + "[*]." + pr + [] == "$." + o + "[*]." + pr;
  }

  /** The three paths the cost looks up, written out. */
  lemma CostPathTexts(o: string, pr: string, lang: string)
    requires o == "offers" && pr == "price"
    ensures "$." + o + "[*]." + pr == "$.offers[*].price"
    ensures "$." + o + "[*]." + pr + "[*]" + StepText(Wildcard) == "$.offers[*].price[*].*"
    ensures "$." + o + "[*]." + pr + "[*]" + StepText(Field(lang)) == "$.offers[*].price[*]." + lang
  {
  }

  lemma FreeOfferMatches(event: Json, lang: string)
    requires event == FreeOffer && lang == "en"
    ensures FirstMatch(event, "$.offers[*].price") == Some(Obj([("fi", Str("Ilmainen")), ("en", Str("Free"))]))
    ensures FirstMatch(event, "$.offers[*].price[*].*") == Some(Str("Ilmainen"))
    ensures FirstMatch(event, "$.offers[*].price[*]." + lang) == Some(Str("Free"))
  {
    var o, pr := "offers", "price";
    var price := Obj([("fi", Str("Ilmainen")), ("en", Str("Free"))]);
    assert event == Obj([(o, Arr([Obj([(pr, price)])]))]);
    assert IsName(o) && IsName(pr) && IsName(lang);
    PriceMatch(event, o, pr, price);
    PriceStepMatch(event, o, pr, price, Wildcard);
    PriceStepMatch(event, o, pr, price, Field(lang));
    assert StepMatches(price, Wildcard) == [Str("Ilmainen"), Str("Free")];
    assert StepMatches(price, Field(lang)) == [Str("Free")];
    CostPathTexts(o, pr, lang);
  }

  /** The two prices of the offer have no surrounding whitespace. */
  lemma PriceWordStripped(v: string)
    requires v == "Ilmainen" || v == "Free"
    ensures Strip(v) == v
  {
    assert !IsSpace(v[0]) && !IsSpace(v[|v| - 1]);
    StripTrimmed(v);
  }

  /** For English the cost as written gives the Finnish price, while the
      corrected cost gives the English one. */
  lemma CostCounterexample(event: Json, lang: string)
    requires event == FreeOffer && lang == "en"
    ensures CostAsWritten(event, lang) == Some("Ilmainen")
    ensures Cost(event, lang) == Some("Free")
  {
    FreeOfferCostAsWritten(event, lang);
    FreeOfferCost(event, lang);
  }

  lemma FreeOfferCostAsWritten(event: Json, lang: string)
    requires event == FreeOffer && lang == "en"
    ensures CostAsWritten(event, lang) == Some("Ilmainen")
  {
    FreeOfferMatches(event, lang);
    ResolvesPreferred(event, "$.offers[*].price", "$.offers[*].price[*].*", "$.offers[*].price[*].*",
                      CostAsWritten(event, lang), "Ilmainen");
    PriceWordStripped("Ilmainen");
  }

  lemma FreeOfferCost(event: Json, lang: string)
    requires event == FreeOffer && lang == "en"
    ensures Cost(event, lang) == Some("Free")
  {
    FreeOfferMatches(event, lang);
    ResolvesPreferred(event, "$.offers[*].price", "$.offers[*].price[*]." + lang, "$.offers[*].price[*].*",
                      Cost(event, lang), "Free");
    PriceWordStripped("Free");
  }
}
