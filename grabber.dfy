/**
  The script's main loop (grabber.py:165-194): it reads `streams.txt` line by line.
  A metadata line `name || id || category || logo` sets the identity used for
  the links that follow it and prints an `#EXTINF` entry. A link line is passed
  to the resolver of its host, which prints one playlist line or ends the run.
  After the last line, the programme guide is built from every record the resolvers collected.
*/
module Grabber {
  import opened Wrappers
  import opened Text
  import opened Registry
  import opened Guide
  import opened Web
  import Youtube
  import Dailymotion
  import Twitch

  /** The first printed line: `#EXTM3U`, then `tvg-url=`, then the guide's address in quotes, separated by spaces. */
  const Header: string := "#EXTM3U tvg-url= \"https://raw.githubusercontent.com/MIFNtechnology/GetM3u8/main/epg.xml\""

  // ---------------------------------------------------------------------------
  // Reading one line of the configuration
  // ---------------------------------------------------------------------------

  /** What a line of `streams.txt` is, once stripped. */
  datatype Line =
    | Skip                          // blank, or a `##` comment
    | Meta(fields: seq<string>)     // `line.split('||')`
    | Link(url: string)             // starts with `https:` or `http:`

  function Classify(raw: string): (k: Line)
    ensures k.Meta? ==> |k.fields| >= 1
  {
    var line := Strip(raw);
    if |line| == 0 || StartsWith(line, "##") then Skip
    else if !(StartsWith(line, "https:") || StartsWith(line, "http:")) then Meta(Split(line, "||"))
    else Link(line)
  }

  /**
    A line is skipped exactly when it is blank or a `##` comment; a link is the
    stripped line and starts with a scheme; a metadata line's fields join back
    into the stripped line; and white space around a line changes nothing.
  */
  lemma ClassifySpec(raw: string)
    ensures Classify(raw).Skip? <==> Strip(raw) == [] || StartsWith(Strip(raw), "##")
    ensures Classify(raw).Link? ==>
      Classify(raw).url == Strip(raw) && (StartsWith(Strip(raw), "https:") || StartsWith(Strip(raw), "http:"))
    ensures Classify(raw).Meta? ==>
      && Join(Classify(raw).fields, "||") == Strip(raw)
      && !StartsWith(Strip(raw), "https:") && !StartsWith(Strip(raw), "http:")
    ensures Classify(Strip(raw)) == Classify(raw)
  {
    StripIdempotent(raw);
    if Classify(raw).Meta? {
      SplitJoin(Strip(raw), "||");
    }
  }

  // ---------------------------------------------------------------------------
  // `urlparse(line).netloc` and the choice of resolver
  // ---------------------------------------------------------------------------

  /** The characters that end the network location. */
  predicate IsDelimiter(c: char) {
    c == '/' || c == '?' || c == '#'
  }

  /** The longest prefix of `h` without a delimiter. */
  function Host(h: string): (r: string)
    ensures StartsWith(h, r)
    ensures forall i :: 0 <= i < |r| ==> !IsDelimiter(r[i])
    ensures |r| < |h| ==> IsDelimiter(h[|r|])
  {
    if |h| == 0 || IsDelimiter(h[0]) then [] else [h[0]] + Host(h[1..])
  }

  /**
    `urlparse(url).netloc` for a URL that starts with its scheme: after the first
    `:`, when `//` follows, the text up to the next `/`, `?` or `#`; otherwise empty.
  */
  function Netloc(url: string): string {
    var rest := url[IndexOf(url, ":") + 1..];
    if StartsWith(rest, "//") then Host(rest[2..]) else ""
  }

  /** A host followed by nothing or by a path, query or fragment is read back as that host. */
  lemma {:induction false} HostOf(host: string, tail: string)
    requires forall i :: 0 <= i < |host| ==> !IsDelimiter(host[i])
    requires tail == [] || IsDelimiter(tail[0])
    ensures Host(host + tail) == host
    decreases |host|
  {
    if |host| > 0 {
      assert (host + tail)[1..] == host[1..] + tail;
      HostOf(host[1..], tail);
      assert host == [host[0]] + host[1..];
    }
  }

  /** `urlparse("https://" + host + tail).netloc == host`, and the same for `http`. */
  lemma NetlocOf(scheme: string, host: string, tail: string)
    requires scheme == "https" || scheme == "http"
    requires forall i :: 0 <= i < |host| ==> !IsDelimiter(host[i])
    requires tail == [] || IsDelimiter(tail[0])
    ensures Netloc(scheme + "://" + host + tail) == host
  {
    var url := scheme + "://" + host + tail;
    var rest := "//" + (host + tail);
    UrlParts(scheme, host, tail);
    SchemeFree(scheme);
    NetlocAfter(url, scheme, rest);
    HostOf(host, tail);
  }

  /** `scheme://host tail` is the scheme, a `:`, and `//` before the host and tail. */
  lemma UrlParts(scheme: string, host: string, tail: string)
    ensures var rest := "//" + (host + tail);
      && scheme + "://" + host + tail == scheme + ":" + rest
      && StartsWith(rest, "//")
      && rest[2..] == host + tail
  {
    var rest := "//" + (host + tail);
    assert rest[..2] == "//";
  }

  /** The network location is read from what follows the first `:`. */
  lemma NetlocAfter(url: string, scheme: string, rest: string)
    requires url == scheme + ":" + rest && !Contains(scheme, ":")
    ensures Netloc(url) == if StartsWith(rest, "//") then Host(rest[2..]) else ""
  {
    FirstSeparator(scheme, ":", rest);
    assert url[|scheme| + 1..] == rest;
  }

  lemma SchemeFree(scheme: string)
    requires scheme == "https" || scheme == "http"
    ensures !Contains(scheme, ":")
  {
    forall k | 0 <= k < |scheme|
      ensures !OccursAt(scheme, ":", k)
    {
      assert scheme[k..k + 1][0] == scheme[k];
    }
  }

  /** Which resolver a link goes to. */
  datatype Platform = OnYoutube | OnDailymotion | OnTwitch | Elsewhere

  function PlatformOf(url: string): (p: Platform)
    ensures p == OnYoutube <==> Netloc(url) == "www.youtube.com"
    ensures p == OnDailymotion <==> Netloc(url) == "www.dailymotion.com"
    ensures p == OnTwitch <==> Netloc(url) == "www.twitch.tv"
  {
    var host := Netloc(url);
    if host == "www.youtube.com" then OnYoutube
    else if host == "www.dailymotion.com" then OnDailymotion
    else if host == "www.twitch.tv" then OnTwitch
    else Elsewhere
  }

  /** A YouTube watch address goes to the YouTube resolver, whatever its query says. */
  lemma YoutubeLink(query: string)
    ensures PlatformOf("https://www.youtube.com/watch?v=" + query) == OnYoutube
  {
    var host := "www.youtube.com";
    assert forall i :: 0 <= i < |host| ==> !IsDelimiter(host[i]);
    assert "https://www.youtube.com/watch?v=" + query == "https" + "://" + host + ("/watch?v=" + query);
    NetlocOf("https", host, "/watch?v=" + query);
  }

  // ---------------------------------------------------------------------------
  // The identity set by metadata lines
  // ---------------------------------------------------------------------------

  /** The four module-level variables `channel_name`, `channel_id`, `category`, `channel_logo`. */
  datatype Config = Config(name: string, id: string, category: string, logo: string)

  /** Their values before the first metadata line. */
  const Unset: Config := Config("", "", "", "")

  function IdentityOf(c: Config): Identity {
    Identity(c.name, c.id, c.category)
  }

  /**
    Lines 178-182: the fields are assigned one after another, each stripped and
    the logo also title-cased; a line with fewer than four fields raises
    IndexError at the first missing one, after the earlier ones were assigned.
  */
  function Assign(c: Config, fields: seq<string>, titleCase: string -> string): Config
    requires |fields| >= 1
  {
    var c1 := c.(name := Strip(fields[0]));
    if |fields| < 2 then c1
    else
      var c2 := c1.(id := Strip(fields[1]));
      if |fields| < 3 then c2
      else
        var c3 := c2.(category := Strip(fields[2]));
        if |fields| < 4 then c3
        else c3.(logo := titleCase(Strip(fields[3])))
  }

  /**
    A complete metadata line sets all four values: nothing of the identity before
    it survives. An incomplete one replaces the name and keeps the logo.
  */
  lemma AssignComplete(c: Config, d: Config, fields: seq<string>, titleCase: string -> string)
    requires |fields| >= 1
    ensures |fields| >= 4 ==> Assign(c, fields, titleCase) == Assign(d, fields, titleCase)
    ensures |fields| >= 4 ==> Assign(c, fields, titleCase).logo == titleCase(Strip(fields[3]))
    ensures |fields| < 4 ==> Assign(c, fields, titleCase).logo == c.logo
    ensures Assign(c, fields, titleCase).name == Strip(fields[0])
  {
  }

  /** Every metadata line has at least its first field, as `split` always gives one. */
  predicate WellFormed(kinds: seq<Line>) {
    forall k :: 0 <= k < |kinds| ==> kinds[k].Meta? ==> |kinds[k].fields| >= 1
  }

  /** The classified lines of the configuration. */
  function Kinds(lines: seq<string>): (kinds: seq<Line>)
    ensures |kinds| == |lines| && WellFormed(kinds)
  {
    if |lines| == 0 then [] else Kinds(lines[..|lines| - 1]) + [Classify(lines[|lines| - 1])]
  }

  /** Line `k` is classified on its own, and the lines before it give the first `k` kinds. */
  lemma {:induction false} KindsAt(lines: seq<string>, k: nat)
    requires k < |lines|
    ensures Kinds(lines)[k] == Classify(lines[k])
    ensures Kinds(lines[..k]) == Kinds(lines)[..k]
    decreases |lines|
  {
    var n := |lines|;
    if k < n - 1 {
      var prefix := lines[..n - 1];
      KindsAt(prefix, k);
      assert prefix[k] == lines[k];
      assert prefix[..k] == lines[..k];
    } else {
      assert lines[..k] == lines[..n - 1];
    }
  }

  /** The values after the given lines, every metadata line applied in order. */
  function ConfigAfter(kinds: seq<Line>, titleCase: string -> string): Config
    requires WellFormed(kinds)
  {
    if |kinds| == 0 then Unset
    else Next(ConfigAfter(kinds[..|kinds| - 1], titleCase), kinds[|kinds| - 1], titleCase)
  }

  /** The values after one more line: only a metadata line changes them. */
  function Next(c: Config, kind: Line, titleCase: string -> string): Config
    requires kind.Meta? ==> |kind.fields| >= 1
  {
    match kind
    case Meta(fields) => Assign(c, fields, titleCase)
    case _ => c
  }

  /** Taking one more line of the configuration applies `Next` to it. */
  lemma ConfigAfterStep(kinds: seq<Line>, i: nat, titleCase: string -> string)
    requires WellFormed(kinds) && i < |kinds|
    ensures WellFormed(kinds[..i]) && WellFormed(kinds[..i + 1])
    ensures ConfigAfter(kinds[..i + 1], titleCase) == Next(ConfigAfter(kinds[..i], titleCase), kinds[i], titleCase)
  {
    assert kinds[..i + 1][..i] == kinds[..i];
  }

  /**
    The identity in effect is the one the latest metadata line set: once a
    complete metadata line is followed only by links and skipped lines, the
    values are exactly what that line says.
  */
  lemma {:induction false} LatestMetaWins(kinds: seq<Line>, j: nat, titleCase: string -> string)
    requires WellFormed(kinds)
    requires j < |kinds| && kinds[j].Meta? && |kinds[j].fields| >= 4
    requires forall k :: j < k < |kinds| ==> !kinds[k].Meta?
    ensures ConfigAfter(kinds, titleCase) == Assign(Unset, kinds[j].fields, titleCase)
    decreases |kinds|
  {
    var n := |kinds|;
    var prefix := kinds[..n - 1];
    assert WellFormed(prefix);
    if j == n - 1 {
      assert ConfigAfter(kinds, titleCase) == Next(ConfigAfter(prefix, titleCase), kinds[j], titleCase);
      AssignComplete(ConfigAfter(prefix, titleCase), Unset, kinds[j].fields, titleCase);
    } else {
      assert ConfigAfter(kinds, titleCase) == ConfigAfter(prefix, titleCase);
      assert prefix[j] == kinds[j];
      forall k | j < k < |prefix|
        ensures !prefix[k].Meta?
      {
        assert prefix[k] == kinds[k];
      }
      LatestMetaWins(prefix, j, titleCase);
    }
  }

  /**
    Before the first metadata line the values are still the empty strings of
    lines 165-168, so a link there is resolved with an empty identity.
  */
  lemma {:induction false} NoMetaYet(kinds: seq<Line>, titleCase: string -> string)
    requires WellFormed(kinds)
    requires forall k :: 0 <= k < |kinds| ==> !kinds[k].Meta?
    ensures ConfigAfter(kinds, titleCase) == Unset
    ensures IdentityOf(ConfigAfter(kinds, titleCase)) == Identity("", "", "")
    decreases |kinds|
  {
    if |kinds| > 0 {
      var prefix := kinds[..|kinds| - 1];
      assert WellFormed(prefix);
      forall k | 0 <= k < |prefix|
        ensures !prefix[k].Meta?
      {
        assert prefix[k] == kinds[k];
      }
      NoMetaYet(prefix, titleCase);
    }
  }

  /** `f'\n#EXTINF:-1 tvg-id="..." tvg-name="..." group-title="..." tvg-logo="...", ...'`. */
  function ExtInf(c: Config): string {
    "\n#EXTINF:-1 tvg-id=\"" + c.id + "\" tvg-name=\"" + c.name + "\" group-title=\"" + c.category
      + "\" tvg-logo=\"" + c.logo + "\", " + c.name
  }

  // ---------------------------------------------------------------------------
  // The running script
  // ---------------------------------------------------------------------------

  /** What the resolver of the link's host amounts to (lines 186-191). */
  ghost function LinkResolution(url: string, env: Env): Resolution
    requires PlatformOf(url) != Elsewhere
  {
    match PlatformOf(url)
    case OnYoutube => Youtube.Resolve(url, env)
    case OnDailymotion => Dailymotion.Resolve(url, env)
    case OnTwitch => Twitch.Resolve(url, env)
  }

  /** The resolver for the link's host, called with the identity `who`. */
  method Resolve(url: string, who: Identity, env: Env, reg: Channels) returns (outcome: Outcome, fetched: seq<string>)
    requires PlatformOf(url) != Elsewhere
    modifies reg
    ensures outcome == LinkResolution(url, env).outcome
    ensures fetched == LinkResolution(url, env).fetched
    ensures reg.records == old(reg.records) + Added(who, LinkResolution(url, env).meta)
  {
    match PlatformOf(url)
    case OnYoutube =>
      outcome, fetched := Youtube.Grab(url, who, env, reg);
    case OnDailymotion =>
      outcome, fetched := Dailymotion.Grab(url, who, env, reg);
    case OnTwitch =>
      outcome, fetched := Twitch.Grab(url, who, env, reg);
  }

  /** Where the run is: still going, ended by an exception, or stuck in a loop. */
  datatype Status = Running | Raised(fault: Fault) | Stuck

  /** How a resolver's outcome leaves the run. */
  function StatusOf(o: Outcome): Status {
    match o
    case Printed(_) => Running
    case Aborted(f) => Raised(f)
    case Hung => Stuck
  }

  /** What a resolver's outcome adds to the output. */
  function Printout(o: Outcome): seq<string> {
    if o.Printed? then [o.line] else []
  }

  // ---------------------------------------------------------------------------
  // The run as values
  // ---------------------------------------------------------------------------

  /**
    The state of the run: where it is, the four variables, the lines printed,
    the addresses fetched, and the records collected.
  */
  datatype Progress = Progress(status: Status, config: Config, out: seq<string>, requested: seq<string>,
                               records: seq<ChannelRecord>)

  /** One iteration of the loop of lines 173-191 on a line as classified. */
  ghost function StepOf(p: Progress, kind: Line, env: Env): Progress
    requires kind.Meta? ==> |kind.fields| >= 1
  {
    match kind
    case Skip => p.(status := Running)
    case Meta(fields) =>
      var c := Assign(p.config, fields, env.titleCase);
      if |fields| >= 4 then p.(status := Running, config := c, out := p.out + [ExtInf(c)])
      else p.(status := Raised(IndexError), config := c)
    case Link(url) =>
      if PlatformOf(url) == Elsewhere then p.(status := Running)
      else
        var r := LinkResolution(url, env);
        p.(status := StatusOf(r.outcome), out := p.out + Printout(r.outcome),
           requested := p.requested + r.fetched, records := p.records + Added(IdentityOf(p.config), r.meta))
  }

  /** The loop over the given lines from `p`: one step per line until a step ends the run. */
  ghost function RunOf(p: Progress, kinds: seq<Line>, env: Env): Progress
    requires WellFormed(kinds)
    decreases |kinds|
  {
    if |kinds| == 0 then p
    else
      var q := RunOf(p, kinds[..|kinds| - 1], env);
      if q.status == Running then StepOf(q, kinds[|kinds| - 1], env) else q
  }

  /**
    One iteration: the output grows by at most one line and only while the run
    goes on; the variables change as `Next` says; at most one record is appended,
    only for a link, and it carries the identity in effect. A skipped line or a
    link to another host changes nothing. A link to a known host prints exactly
    the line its resolver printed and fetches what it fetched, and the run goes
    on exactly when a line was printed.
  */
  lemma StepOfSpec(p: Progress, kind: Line, env: Env)
    requires kind.Meta? ==> |kind.fields| >= 1
    ensures var q := StepOf(p, kind, env);
      && |p.out| <= |q.out| <= |p.out| + 1 && q.out[..|p.out|] == p.out
      && (q.status != Running ==> q.out == p.out)
      && q.config == Next(p.config, kind, env.titleCase)
      && AppendsAtMostOne(p.records, q.records, IdentityOf(p.config))
      && (q.records != p.records ==> kind.Link?)
    ensures kind.Skip? || (kind.Link? && PlatformOf(kind.url) == Elsewhere) ==>
      StepOf(p, kind, env) == p.(status := Running)
    ensures kind.Link? && PlatformOf(kind.url) != Elsewhere ==>
      var q := StepOf(p, kind, env); var r := LinkResolution(kind.url, env);
      && (q.status == Running <==> r.outcome.Printed?)
      && (r.outcome.Printed? ==> q.out == p.out + [r.outcome.line])
      && q.requested == p.requested + r.fetched
  {
    var q := StepOf(p, kind, env);
    assert q.out[..|p.out|] == p.out;
  }

  /**
    A link whose page cannot be fetched with status 200 prints the fallback and
    records nothing, and the run goes on, whichever known host it is on.
  */
  lemma FallbackStep(p: Progress, url: string, env: Env)
    requires PlatformOf(url) != Elsewhere
    requires PlatformOf(url) == OnYoutube ==> env.page(Youtube.Normalize(url)).status != 200
    requires PlatformOf(url) != OnYoutube ==> env.page(url).status != 200
    ensures var q := StepOf(p, Link(url), env);
      && q.status == Running
      && q.out == p.out + [Fallback]
      && q.records == p.records
      && q.config == p.config
  {
    match PlatformOf(url)
    case OnYoutube => Youtube.ResolveSpec(url, env);
    case OnDailymotion => Dailymotion.ResolveSpec(url, env);
    case OnTwitch => Twitch.ResolveSpec(url, env);
  }

  /** Taking one more line while the run goes on is one more step. */
  lemma RunOfStep(p: Progress, kinds: seq<Line>, i: nat, env: Env)
    requires WellFormed(kinds) && i < |kinds|
    ensures WellFormed(kinds[..i]) && WellFormed(kinds[..i + 1])
    ensures RunOf(p, kinds[..i], env).status == Running ==>
      RunOf(p, kinds[..i + 1], env) == StepOf(RunOf(p, kinds[..i], env), kinds[i], env)
  {
    assert kinds[..i + 1][..i] == kinds[..i];
    assert kinds[..i + 1][i] == kinds[i];
  }

  /** Once a step has ended the run, the lines after it change nothing. */
  lemma {:induction false} RunOfStopped(p: Progress, kinds: seq<Line>, i: nat, env: Env)
    requires WellFormed(kinds) && i <= |kinds|
    requires WellFormed(kinds[..i])
    requires i == |kinds| || RunOf(p, kinds[..i], env).status != Running
    ensures RunOf(p, kinds, env) == RunOf(p, kinds[..i], env)
    decreases |kinds| - i
  {
    if i == |kinds| {
      assert kinds[..i] == kinds;
    } else {
      var n := |kinds|;
      var prefix := kinds[..n - 1];
      assert WellFormed(prefix);
      assert prefix[..i] == kinds[..i];
      RunOfStopped(p, prefix, i, env);
    }
  }

  /** The output of a run only grows: what was printed before stays at the front. */
  lemma {:induction false} RunOutGrows(p: Progress, kinds: seq<Line>, env: Env)
    requires WellFormed(kinds)
    ensures |p.out| <= |RunOf(p, kinds, env).out|
    ensures RunOf(p, kinds, env).out[..|p.out|] == p.out
    decreases |kinds|
  {
    if |kinds| > 0 {
      var prefix := kinds[..|kinds| - 1];
      assert WellFormed(prefix);
      RunOutGrows(p, prefix, env);
      var q := RunOf(p, prefix, env);
      if q.status == Running {
        StepOfSpec(q, kinds[|kinds| - 1], env);
        assert q.out[..|p.out|] == p.out;
        assert StepOf(q, kinds[|kinds| - 1], env).out[..|q.out|] == q.out;
      }
    }
  }

  /** A run from the empty values that goes through every line ends with the values of all of them. */
  lemma {:induction false} RunConfig(p: Progress, kinds: seq<Line>, env: Env)
    requires WellFormed(kinds) && p.config == Unset
    requires RunOf(p, kinds, env).status == Running
    ensures RunOf(p, kinds, env).config == ConfigAfter(kinds, env.titleCase)
    decreases |kinds|
  {
    if |kinds| > 0 {
      var prefix := kinds[..|kinds| - 1];
      assert WellFormed(prefix);
      var q := RunOf(p, prefix, env);
      if q.status == Running {
        RunConfig(p, prefix, env);
        StepOfSpec(q, kinds[|kinds| - 1], env);
      }
    }
  }

  /** A line that, handled without error, prints one line of the playlist. */
  predicate Prints(kind: Line) {
    || (kind.Meta? && |kind.fields| >= 4)
    || (kind.Link? && PlatformOf(kind.url) != Elsewhere)
  }

  /** How many of the lines print. */
  function Printing(kinds: seq<Line>): nat {
    if |kinds| == 0 then 0
    else Printing(kinds[..|kinds| - 1]) + (if Prints(kinds[|kinds| - 1]) then 1 else 0)
  }

  /**
    A run that goes through every line prints one line per complete metadata
    line and one per link to a known host, and nothing for the other lines.
  */
  lemma {:induction false} PlaylistLength(p: Progress, kinds: seq<Line>, env: Env)
    requires WellFormed(kinds) && p.status == Running
    requires RunOf(p, kinds, env).status == Running
    ensures |RunOf(p, kinds, env).out| == |p.out| + Printing(kinds)
    decreases |kinds|
  {
    if |kinds| > 0 {
      var prefix := kinds[..|kinds| - 1];
      assert WellFormed(prefix);
      var q := RunOf(p, prefix, env);
      assert q.status == Running;
      PlaylistLength(p, prefix, env);
      var last := kinds[|kinds| - 1];
      StepOfSpec(q, last, env);
      if last.Link? && PlatformOf(last.url) != Elsewhere {
        assert LinkResolution(last.url, env).outcome.Printed?;
      }
    }
  }

  /** Every record of a run from the start comes from a link line and carries the identity in effect there. */
  lemma {:induction false} RecordsTagged(p: Progress, kinds: seq<Line>, env: Env)
    requires WellFormed(kinds)
    requires p.status == Running && p.config == Unset && p.records == []
    ensures forall k :: 0 <= k < |RunOf(p, kinds, env).records| ==>
      Sourced(kinds, RunOf(p, kinds, env).records[k], env.titleCase)
    decreases |kinds|
  {
    if |kinds| > 0 {
      var n := |kinds|;
      var prefix := kinds[..n - 1];
      assert WellFormed(prefix);
      RecordsTagged(p, prefix, env);
      var q := RunOf(p, prefix, env);
      if q.status == Running {
        StepOfSpec(q, kinds[n - 1], env);
      }
      assert |RunOf(p, kinds, env).records| <= |q.records| + 1;
      assert RunOf(p, kinds, env).records[..|q.records|] == q.records;
      forall k | 0 <= k < |RunOf(p, kinds, env).records|
        ensures Sourced(kinds, RunOf(p, kinds, env).records[k], env.titleCase)
      {
        var r := RunOf(p, kinds, env).records[k];
        if k < |q.records| {
          assert r == q.records[k];
          assert Sourced(prefix, r, env.titleCase);
          var j :| Tagged(prefix, j, r, env.titleCase);
          TaggedExtends(prefix, kinds, j, r, env.titleCase);
        } else {
          RunConfig(p, prefix, env);
          assert Tagged(kinds, n - 1, r, env.titleCase);
        }
      }
    } else {
      assert RunOf(p, kinds, env).records == [];
    }
  }

  /** A record tagged with a line of a prefix is tagged with that line of the whole. */
  lemma TaggedExtends(prefix: seq<Line>, kinds: seq<Line>, j: int, r: ChannelRecord, titleCase: string -> string)
    requires WellFormed(kinds) && |prefix| <= |kinds| && prefix == kinds[..|prefix|]
    requires WellFormed(prefix) && Tagged(prefix, j, r, titleCase)
    ensures Tagged(kinds, j, r, titleCase)
  {
    assert prefix[..j] == kinds[..j];
  }

  // ---------------------------------------------------------------------------
  // The running script
  // ---------------------------------------------------------------------------

  /** The script's mutable state: the four variables, what it printed and fetched, and the registry. */
  class Script {
    var config: Config
    var out: seq<string>
    var requested: seq<string>
    const channels: Channels

    constructor ()
      ensures config == Unset && out == [] && requested == []
      ensures fresh(channels) && channels.records == []
    {
      config := Unset;
      out := [];
      requested := [];
      channels := new Channels();
    }

    /** The script's state as a value, while it runs. */
    ghost function Now(): Progress
      reads this, channels
    {
      Progress(Running, config, out, requested, channels.records)
    }

    /** `print(text)`. */
    method Print(text: string)
      modifies this
      ensures out == old(out) + [text]
      ensures config == old(config) && requested == old(requested)
    {
      out := out + [text];
    }

    /**
      One iteration of the loop of lines 173-191, on the line as classified. A
      skipped line changes nothing. A metadata line updates the variables and
      prints its entry, or raises. A link on a known host runs that host's
      resolver with the current identity, which prints one line or ends the
      run; other links are ignored.
    */
    method Step(kind: Line, env: Env) returns (status: Status)
      requires kind.Meta? ==> |kind.fields| >= 1
      modifies this, channels
      ensures var p := StepOf(old(Now()), kind, env);
        && status == p.status && config == p.config && out == p.out
        && requested == p.requested && channels.records == p.records
    {
      match kind
      case Skip =>
        status := Running;
      case Meta(fields) =>
        status := TakeMeta(fields, env);
      case Link(url) =>
        status := TakeLink(url, env);
    }

    /** Lines 177-184: a metadata line assigns the variables in turn and prints the entry. */
    method TakeMeta(fields: seq<string>, env: Env) returns (status: Status)
      requires |fields| >= 1
      modifies this
      ensures config == Assign(old(config), fields, env.titleCase)
      ensures requested == old(requested)
      ensures |fields| >= 4 ==> status == Running && out == old(out) + [ExtInf(config)]
      ensures |fields| < 4 ==> status == Raised(IndexError) && out == old(out)
    {
      config := config.(name := Strip(fields[0]));
      if |fields| < 2 {
        status := Raised(IndexError);
        return;
      }
      config := config.(id := Strip(fields[1]));
      if |fields| < 3 {
        status := Raised(IndexError);
        return;
      }
      config := config.(category := Strip(fields[2]));
      if |fields| < 4 {
        status := Raised(IndexError);
        return;
      }
      config := config.(logo := env.titleCase(Strip(fields[3])));
      Print(ExtInf(config));
      status := Running;
    }

    /**
      Lines 185-191: a link on a known host goes to that host's resolver with the
      current identity; its printed line is printed, its exception ends the run,
      and its endless scan leaves the run stuck. A link to another host is ignored.
    */
    method TakeLink(url: string, env: Env) returns (status: Status)
      modifies this, channels
      ensures config == old(config)
      ensures PlatformOf(url) == Elsewhere ==>
        status == Running && out == old(out) && requested == old(requested)
        && channels.records == old(channels.records)
      ensures PlatformOf(url) != Elsewhere ==>
        var r := LinkResolution(url, env);
        && status == StatusOf(r.outcome)
        && out == old(out) + Printout(r.outcome)
        && requested == old(requested) + r.fetched
        && channels.records == old(channels.records) + Added(IdentityOf(config), r.meta)
    {
      if PlatformOf(url) == Elsewhere {
        status := Running;
        return;
      }
      var outcome, fetched := Resolve(url, IdentityOf(config), env, channels);
      requested := requested + fetched;
      match outcome
      case Printed(line) =>
        Print(line);
        status := Running;
      case Aborted(fault) =>
        status := Raised(fault);
      case Hung =>
        status := Stuck;
    }

    /**
      The loop of lines 173-191 from the start of the script: one step per line
      while no step has ended the run. The state it ends in is `RunOf` the lines.
    */
    method Run(lines: seq<string>, env: Env) returns (status: Status)
      requires config == Unset && channels.records == []
      modifies this, channels
      ensures var p := RunOf(Progress(Running, Unset, old(out), old(requested), []), Kinds(lines), env);
        && status == p.status && config == p.config && out == p.out
        && requested == p.requested && channels.records == p.records
    {
      ghost var start := Now();
      status := Running;
      var kinds := Kinds(lines);
      var i := 0;
      while i < |kinds| && status == Running
        invariant 0 <= i <= |kinds| && WellFormed(kinds[..i])
        invariant var p := RunOf(start, kinds[..i], env);
          && status == p.status && config == p.config && out == p.out
          && requested == p.requested && channels.records == p.records
      {
        RunOfStep(start, kinds, i, env);
        assert Now() == RunOf(start, kinds[..i], env);
        status := Step(kinds[i], env);
        i := i + 1;
      }
      RunOfStopped(start, kinds, i, env);
    }
  }

  /**
    The whole script on the lines of `streams.txt`: the header, one step per line
    until a step ends the run, then, when every line went through, the guide of
    all collected records. The printed lines are those of `RunOf` the lines after
    the header; a complete run prints one line per complete metadata line and
    per link to a known host. Every record carries the identity that the
    metadata lines before its link had set.
  */
  method RunScript(lines: seq<string>, env: Env)
    returns (status: Status, out: seq<string>, config: Config, records: seq<ChannelRecord>, guide: Option<Element>)
    ensures var p := RunOf(Progress(Running, Unset, [Header], [], []), Kinds(lines), env);
      && status == p.status && out == p.out && config == p.config && records == p.records
    ensures |out| >= 1 && out[0] == Header
    ensures status == Running <==> guide.Some?
    ensures status == Running ==> config == ConfigAfter(Kinds(lines), env.titleCase)
    ensures status == Running ==> |out| == 1 + Printing(Kinds(lines))
    ensures guide.Some? ==> guide.value == Tv(GuideChildren(records, env.clock))
    ensures forall k :: 0 <= k < |records| ==> FromLink(lines, records[k], env.titleCase)
  {
    var script := new Script();
    script.Print(Header);
    ghost var start := Progress(Running, Unset, [Header], [], []);
    assert script.Now() == start;
    status := script.Run(lines, env);
    out, config, records := script.out, script.config, script.channels.records;
    RunFacts(start, lines, env);
    RecordsFromLinks(start, lines, env);
    if status == Running {
      var tv := BuildXmlTv(records, env.clock);
      guide := Some(tv);
    } else {
      guide := None;
    }
  }

  /** What the lemmas about `RunOf` say about a run of the whole script. */
  lemma RunFacts(start: Progress, lines: seq<string>, env: Env)
    requires start == Progress(Running, Unset, [Header], [], [])
    ensures var p := RunOf(start, Kinds(lines), env);
      && |p.out| >= 1 && p.out[0] == Header
      && (p.status == Running ==> p.config == ConfigAfter(Kinds(lines), env.titleCase))
      && (p.status == Running ==> |p.out| == 1 + Printing(Kinds(lines)))
  {
    var kinds := Kinds(lines);
    var p := RunOf(start, kinds, env);
    RunOutGrows(start, kinds, env);
    assert p.out[..1] == [Header];
    if p.status == Running {
      RunConfig(start, kinds, env);
      PlaylistLength(start, kinds, env);
    }
  }

  /** Every record of a run of the whole script comes from a link line, as `FromLink` says. */
  lemma RecordsFromLinks(start: Progress, lines: seq<string>, env: Env)
    requires start.status == Running && start.config == Unset && start.records == []
    ensures var p := RunOf(start, Kinds(lines), env);
      forall k :: 0 <= k < |p.records| ==> FromLink(lines, p.records[k], env.titleCase)
  {
    var kinds := Kinds(lines);
    var p := RunOf(start, kinds, env);
    RecordsTagged(start, kinds, env);
    forall k | 0 <= k < |p.records|
      ensures FromLink(lines, p.records[k], env.titleCase)
    {
      assert Sourced(kinds, p.records[k], env.titleCase);
      var j :| Tagged(kinds, j, p.records[k], env.titleCase);
      TaggedWitness(lines, j, p.records[k], env.titleCase);
    }
  }

  /**
    Record `r` comes from a link line of the configuration and carries the
    identity that the lines before that link had set.
  */
  ghost predicate FromLink(lines: seq<string>, r: ChannelRecord, titleCase: string -> string) {
    exists j :: 0 <= j < |lines| && Classify(lines[j]).Link?
                && Tag(r) == IdentityOf(ConfigAfter(Kinds(lines[..j]), titleCase))
  }

  lemma TaggedWitness(lines: seq<string>, j: int, r: ChannelRecord, titleCase: string -> string)
    requires Tagged(Kinds(lines), j, r, titleCase)
    ensures FromLink(lines, r, titleCase)
  {
    KindsAt(lines, j);
  }

  /** Record `r` was appended while handling some line of `kinds`. */
  ghost predicate Sourced(kinds: seq<Line>, r: ChannelRecord, titleCase: string -> string)
    requires WellFormed(kinds)
  {
    exists j :: Tagged(kinds, j, r, titleCase)
  }

  /**
    Record `r` was appended while handling line `j`: that line is a link, and
    `r` carries the identity the lines before it had set.
  */
  ghost predicate Tagged(kinds: seq<Line>, j: int, r: ChannelRecord, titleCase: string -> string)
    requires WellFormed(kinds)
  {
    && 0 <= j < |kinds| && kinds[j].Link?
    && Tag(r) == IdentityOf(ConfigAfter(kinds[..j], titleCase))
  }
}
