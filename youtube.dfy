/**
  The scan-based resolver `grab_youtube` (grabber.py:77-110). The page text is
  searched for the first `.m3u8`; then windows ending just past it and growing
  by five characters at a time are tried until one contains `https://`, and the
  text from that `https://` to the end of the `.m3u8` is the stream URL.
*/
module Youtube {
  import opened Wrappers
  import opened Text
  import opened Registry
  import opened Web

  /** `url.split('&')[0]` when `url` holds an `&`, otherwise `url`. */
  function Normalize(url: string): string {
    if IndexOf(url, "&") >= 0 then Split(url, "&")[0] else url
  }

  /**
    Normalising keeps the text before the first `&` and nothing else: no `&`
    remains, the result starts `url`, a URL without `&` is unchanged, and
    normalising twice is normalising once.
  */
  lemma NormalizeSpec(url: string)
    ensures var r := Normalize(url);
      && !Contains(r, "&")
      && StartsWith(url, r)
      && (!Contains(url, "&") ==> r == url)
      && (Contains(url, "&") ==> OccursAt(url, "&", |r|))
      && Normalize(r) == r
  {
    SplitHead(url, "&");
  }

  /** The page is worth scanning: it mentions `.m3u8` and the fetch succeeded. */
  predicate Live(page: Response) {
    IndexOf(page.body, ".m3u8") >= 0 && page.status == 200
  }

  /** `response.find('.m3u8') + 5`: just past the first `.m3u8`. */
  function MarkerEnd(s: string): int {
    IndexOf(s, ".m3u8") + 5
  }

  /** `response[end - tuner: end]`, with Python's treatment of a negative start. */
  function Window(s: string, end: int, tuner: int): string {
    PySlice(s, end - tuner, end)
  }

  /** The values `tuner` takes: 100, 105, 110, ... */
  predicate IsTuner(t: int) {
    t >= 100 && (t - 100) % 5 == 0
  }

  /** The window for `tuner` contains `https://`, so the loop stops there. */
  ghost predicate Hit(s: string, end: int, tuner: int) {
    Contains(Window(s, end, tuner), "https://")
  }

  /** `t` is the tuner the loop stops at: the first of 100, 105, ... whose window hits. */
  ghost predicate FirstHit(s: string, end: int, t: int) {
    IsTuner(t) && Hit(s, end, t) && forall u :: IsTuner(u) && u < t ==> !Hit(s, end, u)
  }

  /** Where a window starts: every window is the text from there up to `end`. */
  function WindowStart(s: string, end: int, tuner: int): (a: nat)
    requires 0 <= end <= |s|
    ensures a <= end && Window(s, end, tuner) == s[a..end]
  {
    var lo := SliceBound(end - tuner, |s|);
    if lo < end then lo else end
  }

  /** Once the tuner exceeds the text length plus `end`, the window is all of `s[..end]`. */
  lemma WindowWhole(s: string, end: int, tuner: int)
    requires 0 <= end <= |s| && tuner >= |s| + end
    ensures Window(s, end, tuner) == s[..end]
  {
  }

  /** The loop of lines 96-109 ends exactly when `https://` lies wholly before `end`. */
  lemma ScanEndsIff(s: string, end: int)
    requires 0 <= end <= |s|
    ensures (exists t :: IsTuner(t) && Hit(s, end, t)) <==> Contains(s[..end], "https://")
  {
    if exists t :: IsTuner(t) && Hit(s, end, t) {
      var t :| IsTuner(t) && Hit(s, end, t);
      var a := WindowStart(s, end, t);
      assert s[..end][a..end] == s[a..end];
      ContainsSlice(s[..end], "https://", a, end);
    }
    if Contains(s[..end], "https://") {
      var t := 100 + 5 * (|s| + end);
      WindowWhole(s, end, t);
      assert IsTuner(t) && Hit(s, end, t);
    }
  }

  /**
    The backward scan: `tuner` starts at 100 and grows by 5 until the window
    holds `https://`. It is only entered when that will happen.
  */
  method Scan(s: string, end: int) returns (tuner: int, link: string)
    requires 0 <= end <= |s| && Contains(s[..end], "https://")
    ensures FirstHit(s, end, tuner)
    ensures link == Window(s, end, tuner)
  {
    tuner := 100;
    while true
      invariant IsTuner(tuner)
      invariant forall u :: IsTuner(u) && u < tuner ==> !Hit(s, end, u)
      decreases |s| + end - tuner
    {
      var w := Window(s, end, tuner);
      if IndexOf(w, "https://") >= 0 {
        link := w;
        break;
      }
      assert !Hit(s, end, tuner);
      if tuner >= |s| + end {
        WindowWhole(s, end, tuner);
        assert false;
      }
      tuner := tuner + 5;
    }
  }

  /** `link[link.find('https://'): link.find('.m3u8') + 5]`. */
  function ExtractLink(link: string): string {
    PySlice(link, IndexOf(link, "https://"), IndexOf(link, ".m3u8") + 5)
  }

  /**
    What gets printed for the window the scan stops at: it starts with
    `https://`, ends with `.m3u8`, and is the text of the page that ends just past
    the first `.m3u8`.
  */
  lemma ExtractLinkShape(s: string, t: int)
    requires Contains(s, ".m3u8")
    requires Hit(s, MarkerEnd(s), t)
    ensures var end := MarkerEnd(s);
      var r := ExtractLink(Window(s, end, t));
      && StartsWith(r, "https://")
      && EndsWith(r, ".m3u8")
      && |r| <= end <= |s|
      && r == s[end - |r|..end]
  {
    var end := MarkerEnd(s);
    var a := WindowStart(s, end, t);
    MarkerEndsWindow(s, t);
    LinkOfWindow(s, a, end, Window(s, end, t));
  }

  /** The link cut from a window `s[a..end]` that ends with its first `.m3u8`. */
  lemma LinkOfWindow(s: string, a: nat, end: nat, link: string)
    requires a <= end <= |s| && link == s[a..end]
    requires IndexOf(link, "https://") >= 0 && IndexOf(link, "https://") + 8 <= |link|
    requires IndexOf(link, ".m3u8") == |link| - 5
    ensures var r := ExtractLink(link);
      && StartsWith(r, "https://")
      && EndsWith(r, ".m3u8")
      && |r| <= end
      && r == s[end - |r|..end]
  {
    var st := ExtractTail(link);
    TailShape(link, st);
    assert link[st..] == s[a + st..end];
  }

  /** In a window ending with its first `.m3u8`, the link is the window's tail from `https://`. */
  lemma ExtractTail(link: string) returns (st: nat)
    requires IndexOf(link, "https://") >= 0 && IndexOf(link, "https://") + 8 <= |link|
    requires IndexOf(link, ".m3u8") == |link| - 5
    ensures st == IndexOf(link, "https://") && st + 8 <= |link|
    ensures ExtractLink(link) == link[st..]
    ensures OccursAt(link, "https://", st)
  {
    st := IndexOf(link, "https://");
    assert OccursAt(link, "https://", st);
    var hi := IndexOf(link, ".m3u8") + 5;
    assert hi == |link|;
    assert SliceBound(st, |link|) == st && SliceBound(hi, |link|) == |link|;
    assert PySlice(link, st, hi) == link[st..|link|];
    assert link[st..|link|] == link[st..];
  }

  lemma TailShape(link: string, st: int)
    requires OccursAt(link, "https://", st) && OccursAt(link, ".m3u8", |link| - 5)
    ensures StartsWith(link[st..], "https://") && EndsWith(link[st..], ".m3u8")
  {
    var r := link[st..];
    assert r[..8] == link[st..st + 8];
    assert r[|r| - 5..] == link[|link| - 5..];
  }

  /** Within a window that hits, the first `.m3u8` is the one at its very end. */
  lemma MarkerEndsWindow(s: string, t: int)
    requires Contains(s, ".m3u8")
    requires Hit(s, MarkerEnd(s), t)
    ensures var link := Window(s, MarkerEnd(s), t);
      && MarkerEnd(s) <= |s|
      && IndexOf(link, "https://") + 8 <= |link|
      && IndexOf(link, ".m3u8") == |link| - 5
      && OccursAt(link, ".m3u8", |link| - 5)
  {
    var end := MarkerEnd(s);
    var a := WindowStart(s, end, t);
    var link := Window(s, end, t);
    assert link == s[a..end];
    assert OccursAt(link, "https://", IndexOf(link, "https://"));
    assert a + 5 <= end;
    FirstMarkerInWindow(s, a, end);
  }

  /** A window `s[a..end]` ending with the first `.m3u8` of `s` has it as its own first one. */
  lemma FirstMarkerInWindow(s: string, a: nat, end: nat)
    requires a + 5 <= end <= |s|
    requires OccursAt(s, ".m3u8", end - 5)
    requires forall k :: 0 <= k < end - 5 ==> !OccursAt(s, ".m3u8", k)
    ensures IndexOf(s[a..end], ".m3u8") == end - a - 5
    ensures OccursAt(s[a..end], ".m3u8", end - a - 5)
  {
    var link := s[a..end];
    OccursInsideSlice(s, ".m3u8", a, end, end - 5);
    forall k | 0 <= k < end - a - 5
      ensures !OccursAt(link, ".m3u8", k)
    {
      if OccursAt(link, ".m3u8", k) {
        OccursInSlice(s, ".m3u8", a, end, k);
      }
    }
  }

  /** The scan stops at a tuner, and that tuner is the first whose window holds `https://`. */
  lemma FirstHitExists(s: string, end: int)
    requires 0 <= end <= |s| && Contains(s[..end], "https://")
    ensures exists t :: FirstHit(s, end, t)
  {
    var t := 100;
    while !Hit(s, end, t)
      invariant IsTuner(t)
      invariant forall u :: IsTuner(u) && u < t ==> !Hit(s, end, u)
      decreases |s| + end - t
    {
      if t >= |s| + end {
        WindowWhole(s, end, t);
        assert false;
      }
      t := t + 5;
    }
    assert FirstHit(s, end, t);
  }

  /** Only one tuner is the first to hit. */
  lemma FirstHitUnique(s: string, end: int, t: int, u: int)
    requires FirstHit(s, end, t) && FirstHit(s, end, u)
    ensures t == u
  {
  }

  /** The tuner the loop of lines 96-109 stops at, when it stops. */
  ghost function StopTuner(s: string, end: int): (t: int)
    requires 0 <= end <= |s| && Contains(s[..end], "https://")
    ensures FirstHit(s, end, t)
  {
    FirstHitExists(s, end);
    var t :| FirstHit(s, end, t);
    t
  }

  /**
    What `grab_youtube(url)` amounts to: the normalised URL is fetched; a page
    without `.m3u8` or with a status other than 200 gives the fallback; a page
    where no `https://` precedes the marker keeps the scan going forever; a
    missing tag raises; otherwise the page's metadata is recorded and the link
    cut from the window the scan stops at is printed.
  */
  ghost function Resolve(url: string, env: Env): Resolution {
    var u := Normalize(url);
    var page := env.page(u);
    var s := page.body;
    if !Live(page) then Resolution(Printed(Fallback), [u], None)
    else if !Contains(s[..MarkerEnd(s)], "https://") then Resolution(Hung, [u], None)
    else
      match ReadTags(env.og(s))
      case Failure(f) => Resolution(Aborted(f), [u], None)
      case Success(m) => Resolution(Printed(ExtractLink(Window(s, MarkerEnd(s), StopTuner(s, MarkerEnd(s))))), [u], Some(m))
  }

  /**
    The cases of `Resolve`: only the normalised URL is fetched; the fallback and
    the endless scan record nothing; a missing tag raises and records nothing;
    and a printed stream URL starts with `https://`, ends with `.m3u8`, and is
    the text of the page that ends just past its first `.m3u8`.
  */
  lemma ResolveSpec(url: string, env: Env)
    ensures Resolve(url, env).fetched == [Normalize(url)]
    ensures var page := env.page(Normalize(url));
      !Live(page) ==> Resolve(url, env).outcome == Printed(Fallback) && Resolve(url, env).meta == None
    ensures var page := env.page(Normalize(url)); var s := page.body;
      Live(page) && !Contains(s[..MarkerEnd(s)], "https://") ==>
        Resolve(url, env).outcome == Hung && Resolve(url, env).meta == None
    ensures var page := env.page(Normalize(url)); var s := page.body;
      Live(page) && Contains(s[..MarkerEnd(s)], "https://") && ReadTags(env.og(s)).Failure? ==>
        Resolve(url, env).outcome == Aborted(ReadTags(env.og(s)).error) && Resolve(url, env).meta == None
    ensures var page := env.page(Normalize(url)); var s := page.body; var r := Resolve(url, env);
      Live(page) && Contains(s[..MarkerEnd(s)], "https://") && ReadTags(env.og(s)).Success? ==>
        && r.meta == Some(ReadTags(env.og(s)).value)
        && r.outcome.Printed?
        && StartsWith(r.outcome.line, "https://")
        && EndsWith(r.outcome.line, ".m3u8")
        && |r.outcome.line| <= MarkerEnd(s)
        && r.outcome.line == s[MarkerEnd(s) - |r.outcome.line|..MarkerEnd(s)]
  {
    var page := env.page(Normalize(url));
    var s := page.body;
    if Live(page) && Contains(s[..MarkerEnd(s)], "https://") && ReadTags(env.og(s)).Success? {
      ExtractLinkShape(s, StopTuner(s, MarkerEnd(s)));
    }
  }

  /**
    `grab_youtube(url)` with the identity established by the configuration: it
    fetches, prints and records what `Resolve` says, running the scan loop.
  */
  method Grab(url: string, who: Identity, env: Env, reg: Channels)
    returns (outcome: Outcome, fetched: seq<string>)
    modifies reg
    ensures outcome == Resolve(url, env).outcome
    ensures fetched == Resolve(url, env).fetched
    ensures reg.records == old(reg.records) + Added(who, Resolve(url, env).meta)
  {
    var u := Normalize(url);
    fetched := [u];
    var page := env.page(u);
    var response := page.body;
    if IndexOf(response, ".m3u8") < 0 || page.status != 200 {
      outcome := Printed(Fallback);
      return;
    }
    var end := MarkerEnd(response);
    if IndexOf(response[..end], "https://") < 0 {
      // No window can ever hold `https://`: the source loops forever here.
      outcome := Hung;
      return;
    }
    var tuner, link := Scan(response, end);
    FirstHitUnique(response, end, tuner, StopTuner(response, end));
    match ReadTags(env.og(response))
    case Failure(f) =>
      outcome := Aborted(f);
    case Success(m) =>
      reg.Append(Record(who, m));
      outcome := Printed(ExtractLink(link));
  }
}
