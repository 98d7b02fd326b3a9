/**
  The manifest-based resolver `grab_dailymotion` (grabber.py:112-135). After the
  page metadata is recorded, the video id taken from the URL path leads to a
  metadata document, that to a master playlist, and the playlist's variant of
  highest bandwidth is printed.

  The playlist is read positionally, not by the attribute-list grammar of
  section 4.2 of RFC 8216: after the first line, lines are taken in pairs
  (`EXT-X-STREAM-INF` line, URI line, section 4.3.4.2 of RFC 8216), and the
  bandwidth is the text between the first and second `=` of the third
  comma-separated field.
*/
module Dailymotion {
  import opened Wrappers
  import opened Text
  import opened Registry
  import opened Web

  const MetadataPrefix: string := "https://www.dailymotion.com/player/metadata/video/"

  /** `url.split('/')[4]`: for `https://www.dailymotion.com/video/<id>` this is `<id>`. */
  function VideoId(url: string): (r: Result<string, Fault>)
    ensures r.Success? <==> |Split(url, "/")| >= 5
    ensures r.Success? ==> r.value == Split(url, "/")[4] && !Contains(r.value, "/")
    ensures r.Failure? ==> r.error == IndexError
  {
    var parts := Split(url, "/");
    if |parts| < 5 then Failure(IndexError)
    else
      SplitPiecesFree(url, "/", 4);
      Success(parts[4])
  }

  /** `requests.get(stream_api).text.strip().split('\n')[1:]`: the playlist without its header line. */
  function PlaylistLines(text: string): seq<string> {
    Split(Strip(text), "\n")[1..]
  }

  /** One variant: the bandwidth read from its tag line and the URI line that follows. */
  datatype Variant = Variant(bandwidth: int, uri: string)

  /** `int(meta.strip().split(',')[2].split('=')[1])`. */
  function Bandwidth(meta: string): Result<int, Fault> {
    var fields := Split(Strip(meta), ",");
    if |fields| < 3 then Failure(IndexError)
    else
      var kv := Split(fields[2], "=");
      if |kv| < 2 then Failure(IndexError)
      else
        match ParseInt(kv[1])
        case None => Failure(ValueError)
        case Some(n) => Success(n)
  }

  /** A tag line without any comma has no third field: `Bandwidth` raises IndexError. */
  lemma BandwidthNoComma(meta: string)
    requires !Contains(Strip(meta), ",")
    ensures Bandwidth(meta) == Failure(IndexError)
  {
    assert IndexOf(Strip(meta), ",") < 0;
  }

  /**
    A tag line whose third comma-separated field is `key=` followed by the
    decimal text of `n` reads as bandwidth `n`, whatever the other fields say,
    as long as they hold no comma and the line does not start with white space;
    `int()` raises ValueError instead when that text has more than
    `MaxStrDigits` digits.
  */
  lemma BandwidthOf(first: string, second: string, key: string, n: nat)
    requires |first| > 0 && !IsSpace(first[0])
    requires !Contains(first, ",") && !Contains(second, ",")
    requires !Contains(key, ",") && !Contains(key, "=")
    ensures Bandwidth(first + "," + second + "," + key + "=" + Decimal(n))
         == if |Decimal(n)| <= MaxStrDigits then Success(n) else Failure(ValueError)
  {
    var d := Decimal(n);
    var third := key + "=" + d;
    var meta := first + "," + second + "," + key + "=" + d;
    NoDigitSeparator(d, ",");
    NoDigitSeparator(d, "=");
    NoThirdComma(key, d);
    MetaFields(first, second, key, d);
    KeyValueOf(key, d);
    ParseDecimal(n);
    BandwidthFromParts(meta, [first, second, third], [key, d]);
  }

  /**
    The same reading when further attributes follow the third field, as in a
    real `#EXT-X-STREAM-INF` line: only the third field decides the bandwidth.
  */
  lemma BandwidthOfAttributes(first: string, second: string, key: string, n: nat, rest: string)
    requires |first| > 0 && !IsSpace(first[0])
    requires |rest| > 0 && !IsSpace(rest[|rest| - 1])
    requires !Contains(first, ",") && !Contains(second, ",")
    requires !Contains(key, ",") && !Contains(key, "=")
    ensures Bandwidth(first + "," + second + "," + key + "=" + Decimal(n) + "," + rest)
         == if |Decimal(n)| <= MaxStrDigits then Success(n) else Failure(ValueError)
  {
    var d := Decimal(n);
    var third := key + "=" + d;
    var meta := first + "," + second + "," + key + "=" + d + "," + rest;
    NoDigitSeparator(d, ",");
    NoDigitSeparator(d, "=");
    NoThirdComma(key, d);
    assert meta == first + "," + second + "," + third + "," + rest;
    AttributeFields(first, second, third, rest);
    KeyValueOf(key, d);
    ParseDecimal(n);
    BandwidthFromParts(meta, Split(Strip(meta), ","), [key, d]);
  }

  /** The fields of a tag line whose first three fields are followed by more attributes. */
  lemma AttributeFields(first: string, second: string, third: string, rest: string)
    requires |first| > 0 && !IsSpace(first[0])
    requires |rest| > 0 && !IsSpace(rest[|rest| - 1])
    requires !Contains(first, ",") && !Contains(second, ",") && !Contains(third, ",")
    ensures Split(Strip(first + "," + second + "," + third + "," + rest), ",")
         == [first, second, third] + Split(rest, ",")
  {
    var meta := first + "," + second + "," + third + "," + rest;
    assert meta[0] == first[0] && meta[|meta| - 1] == rest[|rest| - 1];
    StripKeepsClean(meta);
    AttributeSplit(first, second, third, rest);
  }

  /** Splitting `first,second,third,rest` on commas peels off the three comma-free fields. */
  lemma AttributeSplit(first: string, second: string, third: string, rest: string)
    requires !Contains(first, ",") && !Contains(second, ",") && !Contains(third, ",")
    ensures Split(first + "," + second + "," + third + "," + rest, ",")
         == [first, second, third] + Split(rest, ",")
  {
    var t3 := third + "," + rest;
    var t2 := second + "," + t3;
    assert first + "," + second + "," + third + "," + rest == first + "," + t2;
    SplitFirst(third, ",", rest);
    SplitFirst(second, ",", t3);
    SplitFirst(first, ",", t2);
    ThreeHeads(first, second, third, Split(rest, ","));
  }

  lemma ThreeHeads(a: string, b: string, c: string, tail: seq<string>)
    ensures [a] + ([b] + ([c] + tail)) == [a, b, c] + tail
  {
  }

  /** The fields of a tag line that starts and ends with neither white space nor a comma. */
  lemma MetaFields(first: string, second: string, key: string, d: string)
    requires |first| > 0 && !IsSpace(first[0])
    requires |d| > 0 && IsDigit(d[|d| - 1])
    requires !Contains(first, ",") && !Contains(second, ",") && !Contains(key + "=" + d, ",")
    ensures Split(Strip(first + "," + second + "," + key + "=" + d), ",") == [first, second, key + "=" + d]
  {
    var meta := first + "," + second + "," + key + "=" + d;
    var third := key + "=" + d;
    assert meta == first + "," + second + "," + third;
    assert meta[0] == first[0] && meta[|meta| - 1] == d[|d| - 1];
    StripKeepsClean(meta);
    FieldsOf(first, second, third);
  }

  /** How `Bandwidth` reads a line once its fields and the third field's parts are known. */
  lemma BandwidthFromParts(meta: string, fields: seq<string>, parts: seq<string>)
    requires |fields| >= 3 && Split(Strip(meta), ",") == fields
    requires |parts| >= 2 && Split(fields[2], "=") == parts
    ensures Bandwidth(meta) == if ParseInt(parts[1]).Some? then Success(ParseInt(parts[1]).value) else Failure(ValueError)
  {
  }

  /** The three comma-separated fields of `first,second,third`. */
  lemma FieldsOf(first: string, second: string, third: string)
    requires !Contains(first, ",") && !Contains(second, ",") && !Contains(third, ",")
    ensures Split(first + "," + second + "," + third, ",") == [first, second, third]
  {
    assert Join([third], ",") == third;
    assert [second, third][1..] == [third];
    assert Join([second, third], ",") == second + "," + third;
    assert [first, second, third][1..] == [second, third];
    assert first + "," + second + "," + third == Join([first, second, third], ",");
    JoinSplit([first, second, third], ",");
  }

  /** The two `=`-separated parts of `key=value`. */
  lemma KeyValueOf(key: string, value: string)
    requires !Contains(key, "=") && !Contains(value, "=")
    ensures Split(key + "=" + value, "=") == [key, value]
  {
    assert [key, value][1..] == [value];
    assert key + "=" + value == Join([key, value], "=");
    JoinSplit([key, value], "=");
  }

  /** Decimal text holds no comma and no `=`. */
  lemma NoDigitSeparator(d: string, sep: string)
    requires sep == "," || sep == "="
    requires forall i :: 0 <= i < |d| ==> IsDigit(d[i])
    ensures !Contains(d, sep)
  {
    forall k | 0 <= k < |d|
      ensures !OccursAt(d, sep, k)
    {
      assert d[k..k + 1][0] == d[k];
    }
  }

  /** `key=digits` holds no comma when `key` holds none. */
  lemma NoThirdComma(key: string, d: string)
    requires !Contains(key, ",") && !Contains(d, ",")
    ensures !Contains(key + "=" + d, ",")
  {
    var t := key + "=" + d;
    forall k | 0 <= k < |t|
      ensures !OccursAt(t, ",", k)
    {
      if k < |key| {
        assert t[k..k + 1] == key[k..k + 1];
        assert !OccursAt(key, ",", k);
      } else if k == |key| {
        assert t[k..k + 1] == "=";
      } else {
        assert t[k..k + 1] == d[k - |key| - 1..k - |key|];
        assert !OccursAt(d, ",", k - |key| - 1);
      }
    }
  }

  /** The tag line of pair `k`. */
  function TagLine(lines: seq<string>, k: nat): string
    requires 2 * k + 1 < |lines|
  {
    lines[2 * k]
  }

  /** The URI line of pair `k`. */
  function UriLine(lines: seq<string>, k: nat): string
    requires 2 * k + 1 < |lines|
  {
    lines[2 * k + 1]
  }

  /**
    The list comprehension over `range(0, len(m3u_file) - 1, 2)`, with `read`
    turning a tag line into its bandwidth: one variant per pair of lines from
    the start, an odd last line ignored; the first pair whose bandwidth cannot
    be read raises its error.
  */
  function Pairs(lines: seq<string>, read: string -> Result<int, Fault>): (r: Result<seq<Variant>, Fault>)
    ensures r.Success? ==> |r.value| == |lines| / 2
    decreases |lines|
  {
    if |lines| < 2 then Success([])
    else
      match read(lines[0])
      case Failure(f) => Failure(f)
      case Success(b) =>
        match Pairs(lines[2..], read)
        case Failure(f) => Failure(f)
        case Success(vs) => Success([Variant(b, lines[1])] + vs)
  }

  /** Variant `k` is read from lines `2k` and `2k + 1`. */
  lemma {:induction false} PairsSuccess(lines: seq<string>, read: string -> Result<int, Fault>)
    ensures var r := Pairs(lines, read);
      r.Success? ==>
        forall k :: 0 <= k < |r.value| ==>
          && r.value[k].uri == UriLine(lines, k)
          && read(TagLine(lines, k)) == Success(r.value[k].bandwidth)
    decreases |lines|
  {
    var r := Pairs(lines, read);
    if |lines| >= 2 && r.Success? {
      var rest := lines[2..];
      PairsSuccess(rest, read);
      var vs := Pairs(rest, read).value;
      assert r.value == [Variant(read(lines[0]).value, lines[1])] + vs;
      forall k | 1 <= k < |r.value|
        ensures r.value[k].uri == UriLine(lines, k) && read(TagLine(lines, k)) == Success(r.value[k].bandwidth)
      {
        assert TagLine(lines, k) == TagLine(rest, k - 1);
        assert UriLine(lines, k) == UriLine(rest, k - 1);
      }
    }
  }

  /** The list fails exactly with the error of the first pair whose bandwidth cannot be read. */
  lemma {:induction false} PairsFailure(lines: seq<string>, read: string -> Result<int, Fault>)
    ensures var r := Pairs(lines, read);
      r.Failure? ==>
        exists k :: && 0 <= k < |lines| / 2
                    && read(TagLine(lines, k)) == Failure(r.error)
                    && forall j :: 0 <= j < k ==> read(TagLine(lines, j)).Success?
    ensures (exists k :: 0 <= k < |lines| / 2 && read(TagLine(lines, k)).Failure?) ==> Pairs(lines, read).Failure?
    decreases |lines|
  {
    if |lines| >= 2 {
      var rest := lines[2..];
      PairsFailure(rest, read);
      assert TagLine(lines, 0) == lines[0];
      forall k | 1 <= k < |lines| / 2
        ensures TagLine(lines, k) == TagLine(rest, k - 1)
      {
      }
      if read(lines[0]).Success? && Pairs(rest, read).Failure? {
        var k :| && 0 <= k < |rest| / 2
                 && read(TagLine(rest, k)) == Failure(Pairs(rest, read).error)
                 && forall j :: 0 <= j < k ==> read(TagLine(rest, j)).Success?;
        assert read(TagLine(lines, k + 1)) == Failure(Pairs(lines, read).error);
      }
    }
  }

  // ---------------------------------------------------------------------------
  // `sorted(..., key=lambda x: x[0])[-1]`
  // ---------------------------------------------------------------------------

  /**
    Inserting `v` into a list already ordered by bandwidth, after every element
    whose bandwidth is not greater: one step of a stable sort.
  */
  function Insert(xs: seq<Variant>, v: Variant): (r: seq<Variant>)
    ensures |r| == |xs| + 1
  {
    if |xs| == 0 then [v]
    else if xs[|xs| - 1].bandwidth <= v.bandwidth then xs + [v]
    else Insert(xs[..|xs| - 1], v) + [xs[|xs| - 1]]
  }

  /**
    `sorted(vs, key=bandwidth)`. Python's sort is stable, and a stable sort has
    only one possible result, so insertion sort in input order gives it exactly.
  */
  function SortByBandwidth(vs: seq<Variant>): (r: seq<Variant>)
    ensures |r| == |vs|
  {
    if |vs| == 0 then [] else Insert(SortByBandwidth(vs[..|vs| - 1]), vs[|vs| - 1])
  }

  /** The index of the last variant of greatest bandwidth. */
  function LastMaxIndex(vs: seq<Variant>): (k: nat)
    requires |vs| > 0
    ensures k < |vs|
    ensures forall j :: 0 <= j < |vs| ==> vs[j].bandwidth <= vs[k].bandwidth
    ensures forall j :: k < j < |vs| ==> vs[j].bandwidth < vs[k].bandwidth
  {
    if |vs| == 1 then 0
    else
      var k := LastMaxIndex(vs[..|vs| - 1]);
      if vs[k].bandwidth <= vs[|vs| - 1].bandwidth then |vs| - 1 else k
  }

  /**
    The last element of the stable sort is the variant of greatest bandwidth,
    and of several with that bandwidth, the one that comes last in the playlist.
  */
  lemma {:induction false} SortedLastIsLastMax(vs: seq<Variant>)
    requires |vs| > 0
    ensures SortByBandwidth(vs)[|vs| - 1] == vs[LastMaxIndex(vs)]
  {
    if |vs| > 1 {
      var prefix := vs[..|vs| - 1];
      SortedLastIsLastMax(prefix);
      var sorted := SortByBandwidth(prefix);
      assert sorted[|sorted| - 1] == prefix[LastMaxIndex(prefix)];
    }
  }

  /** The two properties of `LastMaxIndex` pin down a single index. */
  lemma LastMaxUnique(vs: seq<Variant>, k: nat)
    requires k < |vs|
    requires forall j :: 0 <= j < |vs| ==> vs[j].bandwidth <= vs[k].bandwidth
    requires forall j :: k < j < |vs| ==> vs[j].bandwidth < vs[k].bandwidth
    ensures k == LastMaxIndex(vs)
  {
  }

  /**
    Line 134 after the comprehension: the URI of the last element of the sorted
    variants, cut at its first `#`; no variant at all raises IndexError.
  */
  function BestOf(lines: seq<string>, read: string -> Result<int, Fault>): Result<string, Fault> {
    match Pairs(lines, read)
    case Failure(f) => Failure(f)
    case Success(vs) => Best(vs)
  }

  /** The URL the resolver prints for a playlist, bandwidths read by `Bandwidth`. */
  function BestUrl(lines: seq<string>): Result<string, Fault> {
    BestOf(lines, Bandwidth)
  }

  /** `sorted(vs, key=bandwidth)[-1][1].split('#')[0]`. */
  function Best(vs: seq<Variant>): Result<string, Fault> {
    if |vs| == 0 then Failure(IndexError)
    else Success(Split(SortByBandwidth(vs)[|vs| - 1].uri, "#")[0])
  }

  /**
    The chosen URL comes from a variant whose bandwidth is at least every other
    variant's, the later one on a tie, and is its URI up to the first `#`; with
    no variant at all the source raises IndexError.
  */
  lemma BestSpec(vs: seq<Variant>)
    ensures |vs| == 0 ==> Best(vs) == Failure(IndexError)
    ensures |vs| > 0 ==>
      var k := LastMaxIndex(vs);
      && Best(vs).Success?
      && StartsWith(vs[k].uri, Best(vs).value)
      && !Contains(Best(vs).value, "#")
      && (!Contains(vs[k].uri, "#") ==> Best(vs).value == vs[k].uri)
      && (Contains(vs[k].uri, "#") ==> OccursAt(vs[k].uri, "#", |Best(vs).value|))
  {
    if |vs| > 0 {
      SortedLastIsLastMax(vs);
      SplitHead(vs[LastMaxIndex(vs)].uri, "#");
    }
  }

  /**
    The playlist view of the choice: the printed URL is the URI line, up to its
    first `#`, of a pair whose bandwidth is at least that of every pair, and of
    no pair after it with the same bandwidth; a playlist of fewer than one pair
    raises IndexError, and one unreadable bandwidth anywhere raises an error.
  */
  lemma BestOfSpec(lines: seq<string>, read: string -> Result<int, Fault>)
    ensures |lines| < 2 ==> BestOf(lines, read) == Failure(IndexError)
    ensures (exists k :: 0 <= k < |lines| / 2 && read(TagLine(lines, k)).Failure?) ==> BestOf(lines, read).Failure?
    ensures BestOf(lines, read).Success? ==>
      exists k :: && 0 <= k < |lines| / 2
                  && StartsWith(UriLine(lines, k), BestOf(lines, read).value)
                  && !Contains(BestOf(lines, read).value, "#")
                  && (!Contains(UriLine(lines, k), "#") ==> BestOf(lines, read).value == UriLine(lines, k))
                  && (Contains(UriLine(lines, k), "#") ==> OccursAt(UriLine(lines, k), "#", |BestOf(lines, read).value|))
                  && read(TagLine(lines, k)).Success?
                  && (forall j :: 0 <= j < |lines| / 2 ==>
                        read(TagLine(lines, j)).Success? && read(TagLine(lines, j)).value <= read(TagLine(lines, k)).value)
                  && (forall j :: k < j < |lines| / 2 ==> read(TagLine(lines, j)).value < read(TagLine(lines, k)).value)
  {
    PairsFailure(lines, read);
    if BestOf(lines, read).Success? {
      var k := BestPair(lines, read);
    }
  }

  /** The pair the printed URL comes from, when the choice succeeds. */
  lemma BestPair(lines: seq<string>, read: string -> Result<int, Fault>) returns (k: nat)
    requires BestOf(lines, read).Success?
    ensures k < |lines| / 2
    ensures StartsWith(UriLine(lines, k), BestOf(lines, read).value)
    ensures !Contains(BestOf(lines, read).value, "#")
    ensures !Contains(UriLine(lines, k), "#") ==> BestOf(lines, read).value == UriLine(lines, k)
    ensures Contains(UriLine(lines, k), "#") ==> OccursAt(UriLine(lines, k), "#", |BestOf(lines, read).value|)
    ensures read(TagLine(lines, k)).Success?
    ensures forall j :: 0 <= j < |lines| / 2 ==>
      read(TagLine(lines, j)).Success? && read(TagLine(lines, j)).value <= read(TagLine(lines, k)).value
    ensures forall j :: k < j < |lines| / 2 ==> read(TagLine(lines, j)).value < read(TagLine(lines, k)).value
  {
    var vs := Pairs(lines, read).value;
    assert BestOf(lines, read) == Best(vs);
    PairsSuccess(lines, read);
    BestSpec(vs);
    k := LastMaxIndex(vs);
  }

  /** The example of three variants of bandwidth 500, 1200 and 900: the second is chosen. */
  lemma ThreeVariantExample()
    ensures var vs := [Variant(500, "A"), Variant(1200, "B"), Variant(900, "C")];
      SortByBandwidth(vs)[2] == Variant(1200, "B")
  {
    var vs := [Variant(500, "A"), Variant(1200, "B"), Variant(900, "C")];
    SortedLastIsLastMax(vs);
    LastMaxUnique(vs, 1);
  }

  // ---------------------------------------------------------------------------
  // The resolver
  // ---------------------------------------------------------------------------

  /**
    Lines 132-135, after the record is appended: what the resolver prints or
    raises, and the addresses it fetches on the way. A printed URL is the best
    variant of the playlist found at the second address, and the first address
    is the metadata document of the video id.
  */
  function StreamOutcome(url: string, env: Env): (r: (Outcome, seq<string>))
    ensures r.0 != Hung
    ensures |r.1| <= 2
    ensures r.0.Printed? ==>
      && VideoId(url).Success?
      && |r.1| == 2
      && r.1[0] == MetadataPrefix + VideoId(url).value
      && env.metadata(r.1[0]) == Some(r.1[1])
      && BestUrl(PlaylistLines(env.page(r.1[1]).body)) == Success(r.0.line)
  {
    match VideoId(url)
    case Failure(f) => (Aborted(f), [])
    case Success(id) =>
      var meta := MetadataPrefix + id;
      match env.metadata(meta)
      case None => (Aborted(MissingField("qualities.auto[0].url")), [meta])
      case Some(api) =>
        match BestUrl(PlaylistLines(env.page(api).body))
        case Failure(f) => (Aborted(f), [meta, api])
        case Success(u) => (Printed(u), [meta, api])
  }

  /**
    What `grab_dailymotion(url)` amounts to. The record is made as soon as the
    page metadata is read, before the video id, the metadata document and the
    playlist are looked at, so a later failure leaves it in place.
  */
  function Resolve(url: string, env: Env): Resolution {
    var page := env.page(url);
    if page.status != 200 then Resolution(Printed(Fallback), [url], None)
    else
      match ReadTags(env.og(page.body))
      case Failure(f) => Resolution(Aborted(f), [url], None)
      case Success(tags) =>
        var stream := StreamOutcome(url, env);
        Resolution(stream.0, [url] + stream.1, Some(PageMeta(TrimTitle(tags.title), tags.description, tags.image)))
  }

  /**
    The cases of `Resolve`: the page is always fetched first and the resolver
    never hangs; a status other than 200 gives the fallback and a missing tag
    raises, neither recording anything; otherwise the record holds the trimmed
    title, and what is printed or raised is decided by the stream lookup.
  */
  lemma ResolveSpec(url: string, env: Env)
    ensures Resolve(url, env).outcome != Hung
    ensures |Resolve(url, env).fetched| >= 1 && Resolve(url, env).fetched[0] == url
    ensures env.page(url).status != 200 ==> Resolve(url, env) == Resolution(Printed(Fallback), [url], None)
    ensures var tags := ReadTags(env.og(env.page(url).body));
      env.page(url).status == 200 && tags.Failure? ==> Resolve(url, env) == Resolution(Aborted(tags.error), [url], None)
    ensures var tags := ReadTags(env.og(env.page(url).body)); var r := Resolve(url, env);
      env.page(url).status == 200 && tags.Success? ==>
        && r.meta.Some?
        && r.meta.value.title == TrimTitle(tags.value.title)
        && !Contains(r.meta.value.title, "-")
        && r.meta.value.description == tags.value.description
        && r.meta.value.image == tags.value.image
        && r.outcome == StreamOutcome(url, env).0
        && r.fetched == [url] + StreamOutcome(url, env).1
  {
    var tags := ReadTags(env.og(env.page(url).body));
    if env.page(url).status == 200 && tags.Success? {
      TrimTitleSpec(tags.value.title);
    }
  }

  /** `grab_dailymotion(url)`: it fetches, prints and records what `Resolve` says. */
  method Grab(url: string, who: Identity, env: Env, reg: Channels)
    returns (outcome: Outcome, fetched: seq<string>)
    modifies reg
    ensures outcome == Resolve(url, env).outcome
    ensures fetched == Resolve(url, env).fetched
    ensures reg.records == old(reg.records) + Added(who, Resolve(url, env).meta)
  {
    fetched := [url];
    var page := env.page(url);
    if page.status != 200 {
      outcome := Printed(Fallback);
      return;
    }
    var m: PageMeta;
    match ReadTags(env.og(page.body))
    case Failure(f) =>
      outcome := Aborted(f);
      return;
    case Success(tags) =>
      m := PageMeta(TrimTitle(tags.title), tags.description, tags.image);
    reg.Append(Record(who, m));
    var stream := StreamOutcome(url, env);
    outcome := stream.0;
    fetched := fetched + stream.1;
  }
}
