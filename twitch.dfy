/**
  The proxy-based resolver `grab_twitch` (grabber.py:137-163). After the page
  metadata is recorded, a stream proxy is asked about the channel page; unless
  it answers that there is no stream, its map of quality names to URLs is asked
  for again and the URL of the map's last entry is printed.
*/
module Twitch {
  import opened Wrappers
  import opened Text
  import opened Registry
  import opened Web

  const ProxyPrefix: string := "https://pwn.sh/tools/streamapi.py?url="

  /** The proxy address for a channel page. */
  function ProxyUrl(url: string): string {
    ProxyPrefix + url
  }

  /** `d.get(key)`: the value stored under `key`, if any. */
  function Get(d: Dict, key: string): (r: Option<string>)
    ensures r.Some? <==> exists i :: 0 <= i < |d| && d[i].0 == key
    ensures r.Some? ==> exists i :: 0 <= i < |d| && d[i] == (key, r.value)
  {
    if |d| == 0 then None
    else if d[0].0 == key then Some(d[0].1)
    else
      var rest: Dict := d[1..];
      var r := Get(rest, key);
      assert forall i :: 0 <= i < |rest| ==> rest[i] == d[i + 1];
      assert r.Some? ==> exists i :: 0 <= i < |rest| && rest[i] == (key, r.value);
      r
  }

  /** Since the keys are distinct, looking up the key of entry `i` finds entry `i`'s value. */
  lemma {:induction false} GetEntry(d: Dict, i: nat)
    requires i < |d|
    ensures Get(d, d[i].0) == Some(d[i].1)
    decreases i
  {
    if i > 0 {
      var rest: Dict := d[1..];
      assert d[0].0 != d[i].0;
      GetEntry(rest, i - 1);
      assert rest[i - 1] == d[i];
    }
  }

  /**
    `url_list.get(list(url_list)[-1])`: an empty map has no last key and raises
    IndexError; otherwise the last key is present, so `get` finds its value.
  */
  function LastValue(urls: Dict): Result<string, Fault> {
    if |urls| == 0 then Failure(IndexError)
    else
      GetEntry(urls, |urls| - 1);
      Success(Get(urls, urls[|urls| - 1].0).value)
  }

  /** The printed URL is the value of the map's last entry. */
  lemma LastValueSpec(urls: Dict)
    ensures |urls| == 0 ==> LastValue(urls) == Failure(IndexError)
    ensures |urls| > 0 ==> LastValue(urls) == Success(urls[|urls| - 1].1)
  {
    if |urls| > 0 {
      GetEntry(urls, |urls| - 1);
    }
  }

  /**
    Lines 156-163, after the record is appended: what the resolver prints or
    raises, and the proxy addresses it fetches on the way. The proxy's answer
    `success` is compared with the text "false"; any other value, a JSON `false`
    included, goes on to the second request.
  */
  function ProxyOutcome(url: string, env: Env): (r: (Outcome, seq<string>))
    ensures r.0 != Hung
    ensures |r.1| == 1 || |r.1| == 2
    ensures forall i :: 0 <= i < |r.1| ==> r.1[i] == ProxyUrl(url)
  {
    var api := ProxyUrl(url);
    match env.proxy(api).success
    case None => (Aborted(MissingField("success")), [api])
    case Some(answer) =>
      if answer == JString("false") then (Printed(Fallback), [api])
      else
        match env.proxy(api).urls
        case None => (Aborted(MissingField("urls")), [api, api])
        case Some(urls) =>
          match LastValue(urls)
          case Failure(f) => (Aborted(f), [api, api])
          case Success(u) => (Printed(u), [api, api])
  }

  /**
    The outcomes of the proxy step: a "false" answer prints the fallback after one
    request; otherwise a non-empty map prints its last entry's URL after two.
  */
  lemma ProxyOutcomeSpec(url: string, env: Env)
    ensures var reply := env.proxy(ProxyUrl(url));
      reply.success == Some(JString("false")) ==> ProxyOutcome(url, env) == (Printed(Fallback), [ProxyUrl(url)])
    ensures var reply := env.proxy(ProxyUrl(url));
      reply.success.Some? && reply.success != Some(JString("false")) && reply.urls.Some? && |reply.urls.value| > 0 ==>
        ProxyOutcome(url, env) == (Printed(reply.urls.value[|reply.urls.value| - 1].1), [ProxyUrl(url), ProxyUrl(url)])
    ensures var reply := env.proxy(ProxyUrl(url));
      reply.success.Some? && reply.success != Some(JString("false")) && reply.urls.Some? && |reply.urls.value| == 0 ==>
        ProxyOutcome(url, env).0 == Aborted(IndexError)
  {
    var reply := env.proxy(ProxyUrl(url));
    if reply.urls.Some? {
      LastValueSpec(reply.urls.value);
    }
  }

  /**
    What `grab_twitch(url)` amounts to. As on Dailymotion, the record is made as
    soon as the page metadata is read, so a failure at the proxy leaves it in place.
  */
  function Resolve(url: string, env: Env): Resolution {
    var page := env.page(url);
    if page.status != 200 then Resolution(Printed(Fallback), [url], None)
    else
      match ReadTags(env.og(page.body))
      case Failure(f) => Resolution(Aborted(f), [url], None)
      case Success(tags) =>
        var proxy := ProxyOutcome(url, env);
        Resolution(proxy.0, [url] + proxy.1, Some(PageMeta(TrimTitle(tags.title), tags.description, tags.image)))
  }

  /**
    The cases of `Resolve`: the page is always fetched first and the resolver
    never hangs; a status other than 200 gives the fallback and a missing tag
    raises, neither recording anything; otherwise the record holds the trimmed
    title and the proxy, asked once or twice, decides what is printed or raised.
  */
  lemma ResolveSpec(url: string, env: Env)
    ensures Resolve(url, env).outcome != Hung
    ensures |Resolve(url, env).fetched| >= 1 && Resolve(url, env).fetched[0] == url
    ensures env.page(url).status != 200 ==> Resolve(url, env) == Resolution(Printed(Fallback), [url], None)
    ensures var tags := ReadTags(env.og(env.page(url).body));
      env.page(url).status == 200 && tags.Failure? ==> Resolve(url, env) == Resolution(Aborted(tags.error), [url], None)
    ensures var tags := ReadTags(env.og(env.page(url).body)); var r := Resolve(url, env);
      env.page(url).status == 200 && tags.Success? ==>
        && r.meta.Some?
        && r.meta.value.title == TrimTitle(tags.value.title)
        && !Contains(r.meta.value.title, "-")
        && r.meta.value.description == tags.value.description
        && r.meta.value.image == tags.value.image
        && r.outcome == ProxyOutcome(url, env).0
        && (|r.fetched| == 2 || |r.fetched| == 3)
        && forall i :: 1 <= i < |r.fetched| ==> r.fetched[i] == ProxyUrl(url)
  {
    var tags := ReadTags(env.og(env.page(url).body));
    if env.page(url).status == 200 && tags.Success? {
      TrimTitleSpec(tags.value.title);
    }
  }

  /** `grab_twitch(url)`: it fetches, prints and records what `Resolve` says. */
  method Grab(url: string, who: Identity, env: Env, reg: Channels)
    returns (outcome: Outcome, fetched: seq<string>)
    modifies reg
    ensures outcome == Resolve(url, env).outcome
    ensures fetched == Resolve(url, env).fetched
    ensures reg.records == old(reg.records) + Added(who, Resolve(url, env).meta)
  {
    fetched := [url];
    var page := env.page(url);
    if page.status != 200 {
      outcome := Printed(Fallback);
      return;
    }
    var m: PageMeta;
    match ReadTags(env.og(page.body))
    case Failure(f) =>
      outcome := Aborted(f);
      return;
    case Success(tags) =>
      m := PageMeta(TrimTitle(tags.title), tags.description, tags.image);
    reg.Append(Record(who, m));
    var proxy := ProxyOutcome(url, env);
    outcome := proxy.0;
    fetched := fetched + proxy.1;
  }
}
