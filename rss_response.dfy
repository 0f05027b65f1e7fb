/** The HTTP response class `RSSResponse` (src/rss_feed/rss_response.py): an
    XML response whose headers are the caller's headers completed with four
    defaults, among them an entity tag computed from the body. Its `render`
    hands the content on unchanged, so the entity tag is computed from
    whatever object the caller passed; `hashlib.sha1` accepts only bytes.
    SHA-1 itself is a parameter. */
module RssResponse {
  import opened Wrappers
  import OrderedDict

  type Headers = OrderedDict.Entries<string, string>

  /** What can reach the response as its content: bytes (each byte modelled
      as a character), a text string, or a pydantic-xml model object, stood
      for by the XML text its serializer gives. */
  datatype Content = Bytes(data: string) | Str(text: string) | Model(xml: string)

  /** `hashlib.sha1` refuses anything but bytes with a `TypeError`, a `str`
      included (it must be encoded first). */
  datatype HashError = TypeError

  /** The `etag` property: the hexadecimal SHA-1 digest of the body, which
      exists only when the body is bytes. */
  function Etag(body: Content, sha1hex: string -> string): (r: Result<string, HashError>)
    ensures r.Ok? <==> body.Bytes?
    ensures r.Ok? ==> r.value == sha1hex(body.data)
  {
    match body
    case Bytes(data) => Ok(sha1hex(data))
    case _ => Err(TypeError)
  }

  /** The defaults `init_headers` supplies, in the order it visits them. */
  function DefaultHeaders(etag: string): Headers {
    [("Accept-Range", "bytes"),
     ("Connection", "Keep-Alive"),
     ("ETag", etag),
     ("Keep-Alive", "timeout=5, max=100")]
  }

  /** One step of the merge: the default is set only when the key is absent. */
  function SetDefault(hs: Headers, d: (string, string)): Headers {
    if OrderedDict.Get(hs, d.0).None? then OrderedDict.Put(hs, d.0, d.1) else hs
  }

  /** The headers after visiting the defaults `ds` in order. */
  function MergeDefaults(hs: Headers, ds: Headers): (r: Headers)
    // the headers given stay as they are, first, and at most one entry per default follows
    ensures |hs| <= |r| <= |hs| + |ds|
    ensures r[..|hs|] == hs
    decreases |ds|
  {
    if ds == [] then hs
    else
      var m := MergeDefaults(hs, ds[..|ds| - 1]);
      var d := ds[|ds| - 1];
      if OrderedDict.Get(m, d.0).None? then
        OrderedDict.PutAbsent(m, d.0, d.1);
        SetDefault(m, d)
      else
        SetDefault(m, d)
  }

  /** Every entry the merge adds after the headers given is one of the
      defaults. */
  lemma {:induction false} MergeAddsFromDefaults(hs: Headers, ds: Headers, i: nat)
    requires |hs| <= i < |MergeDefaults(hs, ds)|
    ensures MergeDefaults(hs, ds)[i] in ds
    decreases |ds|
  {
    var m := MergeDefaults(hs, ds[..|ds| - 1]);
    var d := ds[|ds| - 1];
    if i < |m| {
      MergeAddsFromDefaults(hs, ds[..|ds| - 1], i);
      var j :| 0 <= j < |ds| - 1 && ds[..|ds| - 1][j] == m[i];
      assert ds[j] == m[i];
      if OrderedDict.Get(m, d.0).None? {
        OrderedDict.PutAbsent(m, d.0, d.1);
      }
    } else {
      OrderedDict.PutAbsent(m, d.0, d.1);
    }
  }

  /** The last default visited is the last merge step. */
  lemma MergeLast(hs: Headers, ds: Headers)
    requires ds != []
    ensures MergeDefaults(hs, ds) == SetDefault(MergeDefaults(hs, ds[..|ds| - 1]), ds[|ds| - 1])
  {
  }

  /** A merge step keeps the value of a key already present. */
  lemma SetDefaultKeeps(hs: Headers, d: (string, string), k: string)
    requires OrderedDict.Get(hs, k).Some?
    ensures OrderedDict.Get(SetDefault(hs, d), k) == OrderedDict.Get(hs, k)
  {
    if OrderedDict.Get(hs, d.0).None? {
      OrderedDict.PutGetOther(hs, d.0, d.1, k);
    }
  }

  /** A merge step sets an absent key to its default. */
  lemma SetDefaultAdds(hs: Headers, d: (string, string))
    requires OrderedDict.Get(hs, d.0).None?
    ensures OrderedDict.Get(SetDefault(hs, d), d.0) == Some(d.1)
  {
    OrderedDict.PutGetSame(hs, d.0, d.1);
  }

  /** Visiting one more default is one more merge step. */
  lemma MergeStep(hs: Headers, ds: Headers, i: nat)
    requires i < |ds|
    ensures MergeDefaults(hs, ds[..i + 1]) == SetDefault(MergeDefaults(hs, ds[..i]), ds[i])
  {
    assert ds[..i + 1][..i] == ds[..i];
  }

  /** The response's headers as written: `render` returns its content
      as it is, so `init_headers` asks for the digest of the content itself,
      and that raises unless the content is bytes. */
  function InitAsWritten(content: Content, caller: Headers, sha1hex: string -> string)
    : (r: Result<Headers, HashError>)
    ensures r.Ok? <==> content.Bytes?
    ensures r.Ok? ==> r.value == MergeDefaults(caller, DefaultHeaders(sha1hex(content.data)))
  {
    match Etag(content, sha1hex)
    case Err(e) => Err(e)
    case Ok(etag) => Ok(MergeDefaults(caller, DefaultHeaders(etag)))
  }

  /** The feed passed as a model object, or as its XML text, makes the
      constructor raise before any header is set: the endpoint's every feed
      ends in a server error. */
  lemma FeedBodyRaises(xml: string, caller: Headers, sha1hex: string -> string)
    ensures InitAsWritten(Model(xml), caller, sha1hex) == Err(TypeError)
    ensures InitAsWritten(Str(xml), caller, sha1hex) == Err(TypeError)
  {
  }

  /** The evidently intended `render`, whose declared result is bytes: bytes
      are kept, text is encoded and a model is serialized to XML. */
  function Render(content: Content): (r: Content)
    ensures r.Bytes?
    ensures content.Bytes? ==> r == content
    ensures content.Str? ==> r.data == content.text
    ensures content.Model? ==> r.data == content.xml
  {
    match content
    case Bytes(_) => content
    case Str(text) => Bytes(text)
    case Model(xml) => Bytes(xml)
  }

  /** Once the content is rendered to bytes, the constructor as written
      succeeds, and the entity tag is the digest of the rendered body. */
  lemma RenderedBodyHasEtag(content: Content, caller: Headers, sha1hex: string -> string)
    ensures InitAsWritten(Render(content), caller, sha1hex) ==
      Ok(MergeDefaults(caller, DefaultHeaders(sha1hex(Render(content).data))))
    ensures Render(Render(content)) == Render(content)
  {
  }

  /** A header mapping that `init_headers` may update in place. */
  class HeaderDict {
    var entries: Headers

    constructor (es: Headers)
      ensures entries == es
    {
      entries := es;
    }
  }

  /** `init_headers(headers)` for a body of bytes. `headers or {}`: a
      missing or empty mapping is replaced by a new one, while a non-empty one
      is the very object that is updated and kept, so the caller sees the
      defaults added to it. */
  method InitHeaders(headers: HeaderDict?, body: string, sha1hex: string -> string)
    returns (result: HeaderDict)
    modifies headers
    ensures headers != null && old(headers.entries) != [] ==> result == headers
    ensures headers == null || old(headers.entries) == [] ==> fresh(result)
    ensures result.entries ==
      MergeDefaults(if headers == null then [] else old(headers.entries), DefaultHeaders(sha1hex(body)))
  {
    if headers != null && headers.entries != [] {
      result := headers;
    } else {
      result := new HeaderDict([]);
    }
    ghost var start := result.entries;
    var defaults := DefaultHeaders(sha1hex(body));
    var i := 0;
    while i < |defaults|
      invariant 0 <= i <= |defaults|
      invariant result.entries == MergeDefaults(start, defaults[..i])
      modifies result
    {
      var (name, value) := defaults[i];
      MergeStep(start, defaults, i);
      if OrderedDict.Get(result.entries, name).None? {
        result.entries := OrderedDict.Put(result.entries, name, value);
      }
      i := i + 1;
    }
    assert defaults[..i] == defaults;
  }

  /** The response as constructed with the intended `render`: the body is
      the content as bytes, and the headers are the caller's completed with
      the defaults. */
  class Response {
    var body: string
    var headers: HeaderDict

    constructor (content: Content, callerHeaders: HeaderDict?, sha1hex: string -> string)
      modifies callerHeaders
      ensures body == Render(content).data
      ensures headers.entries ==
        MergeDefaults(if callerHeaders == null then [] else old(callerHeaders.entries),
                      DefaultHeaders(sha1hex(Render(content).data)))
    {
      var rendered := Render(content).data;
      var merged := InitHeaders(callerHeaders, rendered, sha1hex);
      body := rendered;
      headers := merged;
    }
  }

  // ---------------------------------------------------------------------------
  // What the merge promises

  /** The merge never changes a header that is already there: its value is
      kept, whether or not it is one of the defaults. */
  lemma {:induction false} MergeKeepsPresent(hs: Headers, ds: Headers, k: string)
    requires OrderedDict.Get(hs, k).Some?
    ensures OrderedDict.Get(MergeDefaults(hs, ds), k) == OrderedDict.Get(hs, k)
    decreases |ds|
  {
    if ds != [] {
      var m := MergeDefaults(hs, ds[..|ds| - 1]);
      MergeKeepsPresent(hs, ds[..|ds| - 1], k);
      var d := ds[|ds| - 1];
      if OrderedDict.Get(m, d.0).None? {
        OrderedDict.PutGetOther(m, d.0, d.1, k);
      }
    }
  }

  /** A key that neither the headers nor the defaults hold stays absent. */
  lemma {:induction false} MergeAddsOnlyDefaults(hs: Headers, ds: Headers, k: string)
    requires OrderedDict.Get(hs, k).None?
    requires forall i :: 0 <= i < |ds| ==> ds[i].0 != k
    ensures OrderedDict.Get(MergeDefaults(hs, ds), k).None?
    decreases |ds|
  {
    if ds != [] {
      var m := MergeDefaults(hs, ds[..|ds| - 1]);
      MergeAddsOnlyDefaults(hs, ds[..|ds| - 1], k);
      var d := ds[|ds| - 1];
      if OrderedDict.Get(m, d.0).None? {
        OrderedDict.PutGetOther(m, d.0, d.1, k);
      }
    }
  }

  /** A default whose key the headers lack is added with the first value the
      defaults give for it. */
  lemma {:induction false} MergeAddsDefault(hs: Headers, ds: Headers, i: nat)
    requires i < |ds|
    requires OrderedDict.Get(hs, ds[i].0).None?
    requires forall j :: 0 <= j < i ==> ds[j].0 != ds[i].0
    ensures OrderedDict.Get(MergeDefaults(hs, ds), ds[i].0) == Some(ds[i].1)
    decreases |ds|
  {
    var k := ds[i].0;
    var front := ds[..|ds| - 1];
    var d := ds[|ds| - 1];
    MergeLast(hs, ds);
    if i == |ds| - 1 {
      forall j | 0 <= j < |front| ensures front[j].0 != k {
        assert front[j] == ds[j];
      }
      MergeAddsOnlyDefaults(hs, front, k);
      SetDefaultAdds(MergeDefaults(hs, front), d);
    } else {
      assert front[i] == ds[i];
      forall j | 0 <= j < i ensures front[j].0 != front[i].0 {
        assert front[j] == ds[j];
      }
      MergeAddsDefault(hs, front, i);
      SetDefaultKeeps(MergeDefaults(hs, front), d, k);
    }
  }

  /** The merge only appends: the existing headers keep their order and come
      first. */
  lemma {:induction false} MergeKeepsOrder(hs: Headers, ds: Headers)
    ensures |MergeDefaults(hs, ds)| >= |hs|
    ensures OrderedDict.KeysOf(MergeDefaults(hs, ds))[..|hs|] == OrderedDict.KeysOf(hs)
    decreases |ds|
  {
    if ds != [] {
      var m := MergeDefaults(hs, ds[..|ds| - 1]);
      MergeKeepsOrder(hs, ds[..|ds| - 1]);
      var d := ds[|ds| - 1];
      if OrderedDict.Get(m, d.0).None? {
        OrderedDict.PutKeys(m, d.0, d.1);
        assert OrderedDict.KeysOf(m + [d]) == OrderedDict.KeysOf(m) + [d.0];
        assert (OrderedDict.KeysOf(m) + [d.0])[..|hs|] == OrderedDict.KeysOf(m)[..|hs|];
      }
    }
  }

  /** After `init_headers` all four default headers are present, and each
      one the caller lacked has its default value, the `ETag` being the SHA-1
      digest of the body. */
  lemma InitHeadersDefaults(caller: Headers, body: string, sha1hex: string -> string, i: nat)
    requires i < 4
    ensures var ds := DefaultHeaders(sha1hex(body));
      && OrderedDict.Get(MergeDefaults(caller, ds), ds[i].0).Some?
      && (OrderedDict.Get(caller, ds[i].0).None? ==> OrderedDict.Get(MergeDefaults(caller, ds), ds[i].0) == Some(ds[i].1))
  {
    var ds := DefaultHeaders(sha1hex(body));
    if OrderedDict.Get(caller, ds[i].0).Some? {
      MergeKeepsPresent(caller, ds, ds[i].0);
    } else {
      MergeAddsDefault(caller, ds, i);
    }
  }

  /** The same, spelled out for the four names. */
  lemma InitHeadersAllPresent(caller: Headers, body: string, sha1hex: string -> string)
    ensures var hs := MergeDefaults(caller, DefaultHeaders(sha1hex(body)));
      && OrderedDict.Get(hs, "Accept-Range").Some?
      && OrderedDict.Get(hs, "Connection").Some?
      && OrderedDict.Get(hs, "ETag").Some?
      && OrderedDict.Get(hs, "Keep-Alive").Some?
      && (OrderedDict.Get(caller, "ETag").None? ==> OrderedDict.Get(hs, "ETag") == Some(sha1hex(body)))
  {
    InitHeadersDefaults(caller, body, sha1hex, 0);
    InitHeadersDefaults(caller, body, sha1hex, 1);
    InitHeadersDefaults(caller, body, sha1hex, 2);
    InitHeadersDefaults(caller, body, sha1hex, 3);
  }

  /** Caller headers win: a header the caller supplied keeps its value, and a
      header outside the four defaults is there exactly when the caller
      supplied it. */
  lemma InitHeadersKeepsCaller(caller: Headers, body: string, sha1hex: string -> string, k: string)
    ensures var hs := MergeDefaults(caller, DefaultHeaders(sha1hex(body)));
      && (OrderedDict.Get(caller, k).Some? ==> OrderedDict.Get(hs, k) == OrderedDict.Get(caller, k))
      && (k !in ["Accept-Range", "Connection", "ETag", "Keep-Alive"] ==>
            OrderedDict.Get(hs, k) == OrderedDict.Get(caller, k))
  {
    var ds := DefaultHeaders(sha1hex(body));
    if OrderedDict.Get(caller, k).Some? {
      MergeKeepsPresent(caller, ds, k);
    } else if k !in ["Accept-Range", "Connection", "ETag", "Keep-Alive"] {
      MergeAddsOnlyDefaults(caller, ds, k);
    }
  }
}
