/**
  What the three resolvers share: the replies of the outside world they consume,
  the outcome of one resolution, the fallback URL, and the reading of the page's
  `og:` meta tags into a registry record.

  Fetches and parsing are not modelled: an `Env` says what the network and the
  HTML and JSON parsers give back for an address. The same address always gives
  the same reply within one `Env`.
*/
module Web {
  import opened Wrappers
  import opened Text
  import opened Times
  import opened Registry

  /** The placeholder printed whenever no live stream can be resolved. */
  const Fallback: string := "https://github.com/ExperiencersInternational/tvsetup/raw/main/staticch/no_stream_2.mp4"

  /** What `requests.get(address)` yields: `status_code` and `text`. */
  datatype Response = Response(status: int, body: string)

  /** The `content` of the `og:title`, `og:description` and `og:image` meta tags of a page, when present. */
  datatype OgTags = OgTags(title: Option<string>, description: Option<string>, image: Option<string>)

  /** A decoded JSON value, as far as the resolvers distinguish: a string, or anything else. */
  datatype Json = JString(s: string) | JOther

  /** A decoded JSON object of string values: its items in document order, keys distinct. */
  type Dict = d: seq<(string, string)> | DistinctKeys(d) witness []

  predicate DistinctKeys(d: seq<(string, string)>) {
    forall i, j :: 0 <= i < j < |d| ==> d[i].0 != d[j].0
  }

  /** The two fields of the stream proxy's JSON reply: `success` and `urls`, when present. */
  datatype ProxyReply = ProxyReply(success: Option<Json>, urls: Option<Dict>)

  /**
    The outside world of one run: `page` is the reply to a GET of an address,
    `og` the meta tags found in a page body, `metadata` the field
    `qualities.auto[0].url` of the JSON served at an address, `proxy` the decoded
    reply of the stream proxy at an address, `titleCase` Python's `str.title`,
    and `clock(i)` the i-th reading of `datetime.now()`.
  */
  datatype Env = Env(
    page: string -> Response,
    og: string -> OgTags,
    metadata: string -> Option<string>,
    proxy: string -> ProxyReply,
    titleCase: string -> string,
    clock: nat -> Naive)

  /** The exceptions a resolver can raise, which end the whole run. */
  datatype Fault =
    | MissingTag(property: string)   // the meta tag is absent (subscripting None)
    | MissingField(path: string)     // the JSON reply lacks the field
    | IndexError
    | ValueError                     // `int()` of text that is not a number

  /** How one resolver call ends: a printed line, an exception, or a loop that never exits. */
  datatype Outcome = Printed(line: string) | Aborted(fault: Fault) | Hung

  /** The identity the configuration has established: `channel_name`, `channel_id`, `category`. */
  datatype Identity = Identity(name: string, id: string, category: string)

  /** The three meta-tag contents of a page, read in the order title, description, image. */
  datatype PageMeta = PageMeta(title: string, description: string, image: string)

  /** `soup.find("meta", property=...)["content"]` for the three tags; the first missing one raises. */
  function ReadTags(tags: OgTags): (r: Result<PageMeta, Fault>)
    ensures r.Success? <==> tags.title.Some? && tags.description.Some? && tags.image.Some?
    ensures r.Success? ==> r.value == PageMeta(tags.title.value, tags.description.value, tags.image.value)
    ensures tags.title.None? ==> r == Failure(MissingTag("og:title"))
    ensures tags.title.Some? && tags.description.None? ==> r == Failure(MissingTag("og:description"))
    ensures tags.title.Some? && tags.description.Some? && tags.image.None? ==> r == Failure(MissingTag("og:image"))
  {
    match tags.title
    case None => Failure(MissingTag("og:title"))
    case Some(t) =>
      match tags.description
      case None => Failure(MissingTag("og:description"))
      case Some(d) =>
        match tags.image
        case None => Failure(MissingTag("og:image"))
        case Some(i) => Success(PageMeta(t, d, i))
  }

  /** The record a resolver appends: the configured identity and the page's metadata. */
  function Record(who: Identity, m: PageMeta): ChannelRecord {
    ChannelRecord(who.name, who.id, who.category, m.title, m.description, m.image)
  }

  /** `title.split('-')[0].strip()`: the title up to its first `-`, without surrounding space. */
  function TrimTitle(title: string): string {
    Strip(Split(title, "-")[0])
  }

  /**
    The trimmed title is the title up to its first `-`, stripped (all of it when
    there is no `-`); it holds no `-` and no space at either end, and trimming it
    again changes nothing.
  */
  lemma TrimTitleSpec(title: string)
    ensures var r := TrimTitle(title);
      && !Contains(r, "-")
      && (r == [] || (!IsSpace(r[0]) && !IsSpace(r[|r| - 1])))
      && (!Contains(title, "-") ==> r == Strip(title))
      && (Contains(title, "-") ==> r == Strip(title[..IndexOf(title, "-")]))
      && TrimTitle(r) == r
  {
    TrimTitleShape(title);
    TrimTitleIdempotent(title);
    if Contains(title, "-") {
      SplitAt(title, "-", IndexOf(title, "-"));
    }
  }

  lemma TrimTitleShape(title: string)
    ensures var r := TrimTitle(title);
      && !Contains(r, "-")
      && (r == [] || (!IsSpace(r[0]) && !IsSpace(r[|r| - 1])))
      && (!Contains(title, "-") ==> r == Strip(title))
  {
    var head := Split(title, "-")[0];
    SplitHead(title, "-");
    StripFree(head, "-");
    StripEdges(head);
  }

  lemma TrimTitleIdempotent(title: string)
    ensures TrimTitle(TrimTitle(title)) == TrimTitle(title)
  {
    var r := TrimTitle(title);
    TrimTitleShape(title);
    SplitHead(r, "-");
    assert Split(r, "-")[0] == r;
    StripKeepsClean(r);
  }

  /**
    What one resolver call amounts to: how it ends, the addresses it fetches in
    order, and the page metadata it records, if it gets that far.
  */
  datatype Resolution = Resolution(outcome: Outcome, fetched: seq<string>, meta: Option<PageMeta>)

  /** The records a resolution appends to the registry for the identity `who`. */
  function Added(who: Identity, meta: Option<PageMeta>): (r: seq<ChannelRecord>)
    ensures |r| <= 1
    ensures |r| == 1 <==> meta.Some?
    ensures |r| == 1 ==> r[0] == Record(who, meta.value) && Tag(r[0]) == who
  {
    if meta.Some? then [Record(who, meta.value)] else []
  }

  /** The identity a record carries. */
  function Tag(r: ChannelRecord): Identity {
    Identity(r.name, r.id, r.category)
  }

  /**
    The contract every resolver keeps on the registry: it appends nothing, or
    exactly one record that carries the identity it was called with.
  */
  ghost predicate AppendsAtMostOne(before: seq<ChannelRecord>, after: seq<ChannelRecord>, who: Identity) {
    || after == before
    || (&& |after| == |before| + 1
        && after[..|before|] == before
        && after[|before|].name == who.name
        && after[|before|].id == who.id
        && after[|before|].category == who.category)
  }
}
