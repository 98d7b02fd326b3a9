/**
  The guide builder `build_xml_tv` (grabber.py:39-74): one XMLTV `channel`
  element per registry record, each followed by eight `programme` elements
  covering that record's fresh block window.

  The document is kept as an abstract element tree; attribute values are either
  text or a zoned time (the `%Y%m%d%H%M%S %z` rendering and the byte
  serialisation belong to the XML library).
*/
module Guide {
  import opened Wrappers
  import opened Times
  import opened Registry

  datatype Value = Str(text: string) | Stamp(time: Zoned)

  datatype Attr = Attr(key: string, value: Value)

  /** An XML element: tag, attributes in the order they were set, optional text, children. */
  datatype Element = Element(tag: string, attrs: seq<Attr>, text: Option<string>, children: seq<Element>)

  const GeneratorName: string := "youtube-live-epg"
  const GeneratorUrl: string := "https://github.com/MIFNtechnology/GetM3u8"
  const NoDescription: string := "No description provided"

  const English: Attr := Attr("lang", Str("en"))

  /** The root element `tv` with the generator identification. */
  function Tv(children: seq<Element>): Element {
    Element("tv", [Attr("generator-info-name", Str(GeneratorName)),
                   Attr("generator-info-url", Str(GeneratorUrl))], None, children)
  }

  /** `channel` with its `id` and an English `display-name` holding the channel name. */
  function ChannelElement(r: ChannelRecord): Element {
    Element("channel", [Attr("id", Str(r.id))], None,
            [Element("display-name", [English], Some(r.name), [])])
  }

  /** `programme` for one block: channel id, start, stop, then title, desc and icon. */
  function ProgrammeElement(r: ChannelRecord, start: Zoned, stop: Zoned): Element {
    Element("programme",
            [Attr("channel", Str(r.id)), Attr("start", Stamp(start)), Attr("stop", Stamp(stop))],
            None,
            [Element("title", [English], Some(if r.title != "" then r.title else "LIVE: " + r.name), []),
             Element("desc", [English], Some(if r.description != "" then r.description else NoDescription), []),
             Element("icon", [Attr("src", Str(r.imageUrl))], None, [])])
  }

  /** The first `n` programmes of a record whose window was generated from the reading `now`. */
  function Programmes(r: ChannelRecord, now: Naive, n: nat): seq<Element> {
    if n == 0 then []
    else Programmes(r, now, n - 1) + [ProgrammeElement(r, Boundary(now, n - 1), Boundary(now, n))]
  }

  /** What one record contributes: its channel, then its eight programmes. */
  function RecordEntries(r: ChannelRecord, now: Naive): seq<Element> {
    [ChannelElement(r)] + Programmes(r, now, Blocks)
  }

  /**
    The children of `tv` for the records `rs`, where `clock(i)` is what
    `datetime.now()` returned when record `i` was reached.
  */
  function GuideChildren(rs: seq<ChannelRecord>, clock: nat -> Naive): seq<Element> {
    if |rs| == 0 then []
    else GuideChildren(rs[..|rs| - 1], clock) + RecordEntries(rs[|rs| - 1], clock(|rs| - 1))
  }

  // ---------------------------------------------------------------------------
  // Reading the tree
  // ---------------------------------------------------------------------------

  /** How many of the elements have the given tag. */
  function CountTag(es: seq<Element>, tag: string): nat {
    if |es| == 0 then 0
    else CountTag(es[..|es| - 1], tag) + (if es[|es| - 1].tag == tag then 1 else 0)
  }

  /** The value of the first attribute named `key`, if any. */
  function AttrOf(e: Element, key: string): Option<Value> {
    FindAttr(e.attrs, key)
  }

  function FindAttr(attrs: seq<Attr>, key: string): Option<Value> {
    if |attrs| == 0 then None
    else if attrs[0].key == key then Some(attrs[0].value)
    else FindAttr(attrs[1..], key)
  }

  /** The first child with the given tag, if any. */
  function ChildOf(e: Element, tag: string): Option<Element> {
    FindChild(e.children, tag)
  }

  function FindChild(es: seq<Element>, tag: string): Option<Element> {
    if |es| == 0 then None
    else if es[0].tag == tag then Some(es[0])
    else FindChild(es[1..], tag)
  }

  /** The text of the first child with the given tag. */
  function ChildText(e: Element, tag: string): Option<string> {
    match ChildOf(e, tag)
    case None => None
    case Some(c) => c.text
  }

  // ---------------------------------------------------------------------------
  // The builder
  // ---------------------------------------------------------------------------

  /**
    `build_xml_tv(streams)`: for every record in order, a channel element, a fresh
    call of `generate_times`, and one programme element per block.
  */
  method BuildXmlTv(streams: seq<ChannelRecord>, clock: nat -> Naive) returns (tv: Element)
    ensures tv == Tv(GuideChildren(streams, clock))
    ensures |tv.children| == (1 + Blocks) * |streams|
    ensures CountTag(tv.children, "channel") == |streams|
    ensures CountTag(tv.children, "programme") == Blocks * |streams|
  {
    var children: seq<Element> := [];
    for s := 0 to |streams|
      invariant children == GuideChildren(streams[..s], clock)
    {
      var stream := streams[s];
      children := children + [ChannelElement(stream)];
      var startDates, endDates := GenerateTimes(clock(s));
      for idx := 0 to |startDates|
        invariant children == GuideChildren(streams[..s], clock) + [ChannelElement(stream)]
                               + Programmes(stream, clock(s), idx)
      {
        children := children + [ProgrammeElement(stream, startDates[idx], endDates[idx])];
      }
      assert streams[..s + 1][..s] == streams[..s];
    }
    assert streams[..|streams|] == streams;
    tv := Tv(children);
    GuideCounts(streams, clock);
  }

  // ---------------------------------------------------------------------------
  // What the guide contains
  // ---------------------------------------------------------------------------

  lemma {:induction false} ProgrammesLength(r: ChannelRecord, now: Naive, n: nat)
    ensures |Programmes(r, now, n)| == n
    ensures CountTag(Programmes(r, now, n), "programme") == n
    ensures CountTag(Programmes(r, now, n), "channel") == 0
  {
    if n > 0 {
      ProgrammesLength(r, now, n - 1);
      var p := Programmes(r, now, n);
      assert p[..|p| - 1] == Programmes(r, now, n - 1);
    }
  }

  lemma {:induction false} ProgrammesAt(r: ChannelRecord, now: Naive, n: nat, j: nat)
    requires j < n
    ensures |Programmes(r, now, n)| == n
    ensures Programmes(r, now, n)[j] == ProgrammeElement(r, Boundary(now, j), Boundary(now, j + 1))
  {
    ProgrammesLength(r, now, n);
    if j < n - 1 {
      ProgrammesAt(r, now, n - 1, j);
    }
  }

  lemma {:induction false} CountConcat(a: seq<Element>, b: seq<Element>, tag: string)
    ensures CountTag(a + b, tag) == CountTag(a, tag) + CountTag(b, tag)
    decreases |b|
  {
    if |b| > 0 {
      assert (a + b)[..|a + b| - 1] == a + b[..|b| - 1];
      CountConcat(a, b[..|b| - 1], tag);
    } else {
      assert a + b == a;
    }
  }

  /** n records give exactly n channels and 8n programmes, nine elements per record. */
  lemma {:induction false} GuideCounts(rs: seq<ChannelRecord>, clock: nat -> Naive)
    ensures |GuideChildren(rs, clock)| == (1 + Blocks) * |rs|
    ensures CountTag(GuideChildren(rs, clock), "channel") == |rs|
    ensures CountTag(GuideChildren(rs, clock), "programme") == Blocks * |rs|
  {
    if |rs| > 0 {
      var prefix := rs[..|rs| - 1];
      var pre := GuideChildren(prefix, clock);
      var entries := RecordEntries(rs[|rs| - 1], clock(|rs| - 1));
      assert GuideChildren(rs, clock) == pre + entries;
      GuideCounts(prefix, clock);
      EntriesCounts(rs[|rs| - 1], clock(|rs| - 1));
      CountConcat(pre, entries, "channel");
      CountConcat(pre, entries, "programme");
    }
  }

  /** One record's entries: one channel and eight programmes. */
  lemma EntriesCounts(r: ChannelRecord, now: Naive)
    ensures |RecordEntries(r, now)| == 1 + Blocks
    ensures CountTag(RecordEntries(r, now), "channel") == 1
    ensures CountTag(RecordEntries(r, now), "programme") == Blocks
  {
    var head := [ChannelElement(r)];
    var ps := Programmes(r, now, Blocks);
    ProgrammesLength(r, now, Blocks);
    CountConcat(head, ps, "channel");
    CountConcat(head, ps, "programme");
    assert head[..0] == [];
  }

  /**
    Record order is guide order: record `i`'s channel sits at index 9i and is
    followed immediately by its eight programmes, programme `j` covering block `j`
    of the window generated from `clock(i)`.
  */
  lemma {:induction false} GuideLayout(rs: seq<ChannelRecord>, clock: nat -> Naive, i: nat, j: nat)
    requires i < |rs| && j < Blocks
    ensures |GuideChildren(rs, clock)| == (1 + Blocks) * |rs|
    ensures GuideChildren(rs, clock)[(1 + Blocks) * i] == ChannelElement(rs[i])
    ensures GuideChildren(rs, clock)[(1 + Blocks) * i + 1 + j]
         == ProgrammeElement(rs[i], Boundary(clock(i), j), Boundary(clock(i), j + 1))
  {
    var prefix := rs[..|rs| - 1];
    ChildrenSplit(rs, clock);
    EntriesAt(rs[|rs| - 1], clock(|rs| - 1), j);
    if i < |rs| - 1 {
      GuideLayout(prefix, clock, i, j);
      assert prefix[i] == rs[i];
    }
  }

  /** The guide of `rs` is the guide of all but the last record, then the last record's entries. */
  lemma ChildrenSplit(rs: seq<ChannelRecord>, clock: nat -> Naive)
    requires |rs| > 0
    ensures GuideChildren(rs, clock)
         == GuideChildren(rs[..|rs| - 1], clock) + RecordEntries(rs[|rs| - 1], clock(|rs| - 1))
    ensures |GuideChildren(rs[..|rs| - 1], clock)| == (1 + Blocks) * (|rs| - 1)
  {
    GuideCounts(rs[..|rs| - 1], clock);
  }

  lemma EntriesAt(r: ChannelRecord, now: Naive, j: nat)
    requires j < Blocks
    ensures |RecordEntries(r, now)| == 1 + Blocks
    ensures RecordEntries(r, now)[0] == ChannelElement(r)
    ensures RecordEntries(r, now)[1 + j] == ProgrammeElement(r, Boundary(now, j), Boundary(now, j + 1))
  {
    ProgrammesAt(r, now, Blocks, j);
  }

  /**
    A programme shows the record's title (or "LIVE: " and the channel name when the
    title is empty), its description (or the fixed placeholder), and its image URL
    as is; it names the record's channel and spans the given block.
  */
  lemma ProgrammeElementContents(r: ChannelRecord, start: Zoned, stop: Zoned)
    ensures var p := ProgrammeElement(r, start, stop);
      && p.tag == "programme"
      && AttrOf(p, "channel") == Some(Str(r.id))
      && AttrOf(p, "start") == Some(Stamp(start))
      && AttrOf(p, "stop") == Some(Stamp(stop))
      && (r.title != "" ==> ChildText(p, "title") == Some(r.title))
      && (r.title == "" ==> ChildText(p, "title") == Some("LIVE: " + r.name))
      && (r.description != "" ==> ChildText(p, "desc") == Some(r.description))
      && (r.description == "" ==> ChildText(p, "desc") == Some(NoDescription))
      && ChildOf(p, "icon").Some?
      && AttrOf(ChildOf(p, "icon").value, "src") == Some(Str(r.imageUrl))
  {
    var p := ProgrammeElement(r, start, stop);
    var a1, a2 := p.attrs[1..], p.attrs[1..][1..];
    assert FindAttr(a1, "start") == Some(Stamp(start));
    assert FindAttr(a2, "stop") == Some(Stamp(stop));
    assert FindAttr(p.attrs, "stop") == FindAttr(a1, "stop") == FindAttr(a2, "stop");
    var c1, c2 := p.children[1..], p.children[1..][1..];
    assert FindChild(c1, "desc") == Some(p.children[1]);
    assert FindChild(c2, "icon") == Some(p.children[2]);
    assert FindChild(p.children, "icon") == FindChild(c1, "icon") == FindChild(c2, "icon");
  }

  /** Every programme of record `i` carries that record's data for block `j` of its window. */
  lemma ProgrammeContents(rs: seq<ChannelRecord>, clock: nat -> Naive, i: nat, j: nat)
    requires i < |rs| && j < Blocks
    ensures |GuideChildren(rs, clock)| == (1 + Blocks) * |rs|
    ensures var p := GuideChildren(rs, clock)[(1 + Blocks) * i + 1 + j];
      && p.tag == "programme"
      && AttrOf(p, "channel") == Some(Str(rs[i].id))
      && AttrOf(p, "start") == Some(Stamp(Boundary(clock(i), j)))
      && AttrOf(p, "stop") == Some(Stamp(Boundary(clock(i), j + 1)))
      && ChildText(p, "title") == Some(if rs[i].title != "" then rs[i].title else "LIVE: " + rs[i].name)
      && ChildText(p, "desc") == Some(if rs[i].description != "" then rs[i].description else NoDescription)
      && ChildOf(p, "icon").Some?
      && AttrOf(ChildOf(p, "icon").value, "src") == Some(Str(rs[i].imageUrl))
  {
    GuideLayout(rs, clock, i, j);
    ProgrammeElementContents(rs[i], Boundary(clock(i), j), Boundary(clock(i), j + 1));
  }

  /** Every channel element carries its record's id and name. */
  lemma ChannelContents(rs: seq<ChannelRecord>, clock: nat -> Naive, i: nat)
    requires i < |rs|
    ensures |GuideChildren(rs, clock)| == (1 + Blocks) * |rs|
    ensures var c := GuideChildren(rs, clock)[(1 + Blocks) * i];
      && c.tag == "channel"
      && AttrOf(c, "id") == Some(Str(rs[i].id))
      && ChildText(c, "display-name") == Some(rs[i].name)
  {
    GuideLayout(rs, clock, i, 0);
  }
}
