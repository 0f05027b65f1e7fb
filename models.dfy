/** The feed's data model (src/rss_feed/models): the RSS 2.0 `Item`, `Channel`
    and `RSSFeed` records with their field defaults, and the records they
    hold. XML rendering is not modelled; of the serializers only the RFC 822
    date serializer is, through `Rfc822.Format`. */
module Models {
  import opened Wrappers
  import Rfc822

  /** `<category domain="…">content</category>`. */
  datatype Category = Category(content: string, domain: Option<string>)

  /** `<enclosure url=… length=… type=…/>`. */
  datatype Enclosure = Enclosure(url: string, length: int, mimeType: string)

  /** `<guid isPermalink=…>content</guid>`. */
  datatype Guid = Guid(content: string, isPermalink: Option<bool>)

  /** An image; `title` is a required string when it is given. */
  datatype Image = Image(
    url: string, title: string, link: string,
    width: Option<int>, height: Option<int>, description: Option<string>)

  datatype Source = Source(content: string, url: string)

  /** The `xcal:categories` wrapper around the item's categories. */
  datatype XCalCategories = XCalCategories(content: seq<Category>)

  /** One feed entry: the RSS 2.0 item fields, then the xCal event fields. */
  datatype Item = Item(
    title: string,
    link: Option<string>,
    description: Option<string>,
    author: Option<string>,
    category: Option<seq<Category>>,
    comments: Option<string>,
    enclosure: Option<Enclosure>,
    guid: Option<Guid>,
    pubDate: Option<Rfc822.ValidDateTime>,
    source: Option<Source>,
    xcalTitle: Option<string>,
    xcalFeatured: Option<Image>,
    xcalDtstart: Option<Rfc822.ValidDateTime>,
    xcalDtend: Option<Rfc822.ValidDateTime>,
    xcalContent: Option<string>,
    xcalUrl: Option<string>,
    xcalCost: Option<string>,
    xcalCategories: Option<XCalCategories>,
    xcalLocation: Option<string>,
    xcalLocationAddress: Option<string>,
    xcalLocationCity: Option<string>,
    xcalOrganizer: Option<string>,
    xcalOrganizerUrl: Option<string>)

  datatype Cloud = Cloud(
    domain: Option<string>, port: Option<string>, path: Option<string>,
    registerProcedure: Option<string>, protocol: Option<string>)

  datatype TextInput = TextInput(title: string, description: string, name: string, link: string)

  datatype Hours = Hours(content: Option<seq<int>>)

  datatype Days = Days(content: Option<seq<string>>)

  /** The `<channel>` element. `link` and `description` are declared as
      strings but default to None. */
  datatype Channel = Channel(
    title: string,
    link: Option<string>,
    description: Option<string>,
    language: Option<string>,
    copyright: Option<string>,
    managingEditor: Option<string>,
    webmaster: Option<string>,
    pubDate: Option<Rfc822.ValidDateTime>,
    lastBuildDate: Option<Rfc822.ValidDateTime>,
    category: Option<seq<Category>>,
    generator: string,
    docs: string,
    cloud: Option<Cloud>,
    ttl: int,
    image: Option<Image>,
    rating: Option<string>,
    textInput: Option<TextInput>,
    skipHours: Option<Hours>,
    skipDays: Option<Days>,
    item: seq<Item>)

  /** An XML namespace declaration: prefix and URI. */
  datatype Namespace = Namespace(prefix: string, uri: string)

  /** The `<rss>` root: its version attribute, the namespaces it declares and
      its channel. */
  datatype RssFeed = RssFeed(version: string, namespaces: seq<Namespace>, content: Channel)

  const EventNamespace := Namespace("ev", "http://purl.org/rss/2.0/modules/event/")
  const XCalNamespace := Namespace("xcal", "urn:ietf:params:xml:ns:xcal")

  /** `Item(title=title)`: the only required field is the title; the category
      list defaults to an empty list and every other field to None. */
  function NewItem(title: string): (it: Item)
    ensures it.title == title && it.category == Some([])
    ensures it.link.None? && it.description.None? && it.author.None? && it.comments.None?
    ensures it.enclosure.None? && it.guid.None? && it.pubDate.None? && it.source.None?
    ensures it.xcalTitle.None? && it.xcalFeatured.None? && it.xcalDtstart.None? && it.xcalDtend.None?
    ensures it.xcalContent.None? && it.xcalUrl.None? && it.xcalCost.None? && it.xcalCategories.None?
    ensures it.xcalLocation.None? && it.xcalLocationAddress.None? && it.xcalLocationCity.None?
    ensures it.xcalOrganizer.None? && it.xcalOrganizerUrl.None?
  {
    Item(title, None, None, None, Some([]), None, None, None, None, None,
         None, None, None, None, None, None, None, None, None, None, None, None, None)
  }

  /** `Channel()`: an empty title, the service's generator name, the RSS 2.0
      documentation URL, a ttl of 60 minutes and empty category and item
      lists; every other field None. */
  function DefaultChannel(): (c: Channel)
    ensures c.title == "" && c.generator == "Linked Events RSS"
    ensures c.docs == "https://validator.w3.org/feed/docs/rss2.html"
    ensures c.ttl == 60 && c.category == Some([]) && c.item == []
    ensures c.link.None? && c.description.None? && c.language.None? && c.copyright.None?
    ensures c.managingEditor.None? && c.webmaster.None? && c.pubDate.None? && c.lastBuildDate.None?
    ensures c.cloud.None? && c.image.None? && c.rating.None? && c.textInput.None?
    ensures c.skipHours.None? && c.skipDays.None?
  {
    Channel("", None, None, None, None, None, None, None, None, Some([]),
            "Linked Events RSS", "https://validator.w3.org/feed/docs/rss2.html",
            None, 60, None, None, None, None, None, [])
  }

  /** `RSSFeed(content=c)`: version "2.0", declaring the `ev` and `xcal`
      namespaces. */
  function NewFeed(c: Channel): (f: RssFeed)
    ensures f.version == "2.0" && f.content == c
    ensures EventNamespace in f.namespaces && XCalNamespace in f.namespaces
    ensures forall n :: n in f.namespaces ==> n == EventNamespace || n == XCalNamespace
  {
    RssFeed("2.0", [EventNamespace, XCalNamespace], c)
  }

  // ---------------------------------------------------------------------------
  // Date serialization

  /** The text of an RFC 822 date field; it reads back as the same datetime
      without its microseconds, which the format drops. */
  function DateText(dt: Option<Rfc822.ValidDateTime>): (r: Option<string>)
    ensures r.Some? <==> dt.Some?
    ensures r.Some? ==> Rfc822.Parse(r.value) == Some(dt.value.(microsecond := 0))
  {
    match dt
    case None => None
    case Some(d) =>
      Some(Rfc822.Format(d))
  }

  /** `Item.pub_date` as serialized; it is the item's only datetime that goes
      through the RFC 822 serializer. */
  function ItemPubDate(it: Item): (r: Option<string>)
    ensures r.Some? <==> it.pubDate.Some?
    ensures r.Some? ==> Rfc822.Parse(r.value) == Some(it.pubDate.value.(microsecond := 0))
  {
    DateText(it.pubDate)
  }

  /** `Channel.pub_date` and `Channel.last_build_date` as serialized, by the
      same formatter as the item's. */
  function ChannelDates(c: Channel): (r: (Option<string>, Option<string>))
    ensures r.0.Some? <==> c.pubDate.Some?
    ensures r.0.Some? ==> Rfc822.Parse(r.0.value) == Some(c.pubDate.value.(microsecond := 0))
    ensures r.1.Some? <==> c.lastBuildDate.Some?
    ensures r.1.Some? ==> Rfc822.Parse(r.1.value) == Some(c.lastBuildDate.value.(microsecond := 0))
  {
    (DateText(c.pubDate), DateText(c.lastBuildDate))
  }
}
