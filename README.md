# GetM3u8 grabber, modelled in Dafny

`grabber.py` turns a configuration file, `streams.txt`, into an M3U playlist on
standard output and an XMLTV programme guide, `epg.xml`. Each metadata line
`name || id || category || logo` sets the identity in effect and prints an
`#EXTINF` entry. Each link line is handed to the resolver of its host:

- YouTube: a backward scan of the page for the `.m3u8` address;
- Dailymotion: the highest-bandwidth variant of the master playlist;
- Twitch: the last entry of a stream proxy's URL map.

The resolver normally prints one line and records the channel's page metadata
in the shared `channels` list. At the end, `build_xml_tv` makes the guide from that
list: per record, one `channel` element and eight three-hour `programme` blocks.

The model is split into modules:

- `Text`: the Python string operations the script relies on. These are
  `find`, `in`, `strip`, `split`/`join`, slicing with negative and
  out-of-range bounds, and `int()` of decimal text.
- `Times`: `generate_times`.
- `Registry`: the `channels` list, as a class whose `records` field only grows.
- `Guide`: `build_xml_tv`, as an abstract element tree.
- `Web`: what the resolvers share. This includes the replies of the outside
  world, the fallback URL, reading the `og:` tags, and the trimmed title.
- `Youtube`, `Dailymotion`, `Twitch`: the three resolvers. Each is a function
  `Resolve`, and a method `Grab` that appends to the registry.
- `Grabber`: the dispatch loop, as a class `Script`. Its fields are the four
  identity variables, the printed lines, the fetched addresses and the
  registry.

The network and the parsers are one value, `Env`, of total functions:

- the page fetched for an address;
- the `og:` tags found in a body;
- the metadata field `qualities.auto[0].url`;
- the decoded proxy reply;
- `str.title`;
- the i-th reading of `datetime.now()`.

A resolver's result is an `Outcome`: the printed line, the exception that ends
the run, or `Hung` for the YouTube scan that never finds `https://`.

Some behaviour of the code is easy to misread, and the model follows it
exactly:

- The fallback is printed for any status other than 200, including other 2xx statuses.
- Dailymotion does not simply pick "the maximum". It sorts stably and takes
  the last element, so a tie goes to the later variant.
- A Dailymotion playlist without variants raises IndexError. A Twitch map without
  entries raises IndexError too.
- The Twitch sentinel is compared as the text `"false"`, so a JSON `false`
  proceeds to the second proxy request.
- A resolver does not always print a line. It can raise an exception, which
  ends the run. The YouTube scan can also loop forever.
- `generate_times` cannot run as written. See Findings.

Each resolver is a pure function, `Resolve`, of the link and the outside world.
It gives a `Resolution`:

- the outcome;
- the addresses fetched, in order;
- the page metadata recorded, if any.

Each resolver's `Grab` method performs the same steps on the registry, and is
proved equal to its `Resolve`. The loop is proved against `RunOf`, a fold of
one step per classified line that stops at the first step that ends the run.
Its result holds the printed playlist, the identity variables, the fetched
addresses and the collected records.

## Model

| member | source | states |
|---|---|---|
| Text.IndexOf | grabber.py:94 | `s.find(t)` is -1 exactly when `t` does not occur, and otherwise is the first index where it occurs |
| Text.StripSpec | grabber.py:174 | `strip` removes only white space at both ends, keeps the text between unchanged, and leaves no white space at either end |
| Text.StripIdempotent | grabber.py:174 | stripping twice is stripping once |
| Text.SplitJoin | grabber.py:178 | joining the pieces of `s.split(sep)` with `sep` gives back `s` |
| Text.JoinSplit | grabber.py:134 | splitting the join of separator-free pieces on a one-character separator gives back the pieces |
| Text.SplitPiecesFree | grabber.py:132 | no piece of a split contains the separator |
| Text.SplitHead | grabber.py:83 | the first piece of a split is the prefix before the first separator, or the whole text when there is none |
| Text.SliceBound | grabber.py:97 | a slice bound is clamped into the text, a negative bound counting from the end |
| Text.ParseDecimal | grabber.py:134 | `int()` of the decimal text of `n` is `n` when that text has at most 4300 digits, and raises ValueError when it has more |
| Times.FloorHour | grabber.py:22 | the floored reading has zero minute, second and microsecond, and lies within the hour before the reading |
| Times.GenerateTimes | grabber.py:15-36 | 8 starts and 8 ends; the first start is the floored hour in the +08:00 zone; each start is 3 hours after the previous; each end is the next start and the last end is 3 hours after the last start |
| Times.BlocksContiguous | grabber.py:26-34 | consecutive boundaries are 3 hours apart, on the hour, in the fixed zone, and the first block contains the reading |
| Times.AsWrittenAlwaysFails | grabber.py:23 | as written, `generate_times` raises NameError for every reading |
| Registry.Channels.constructor | grabber.py:12 | the list starts empty |
| Registry.Channels.Append | grabber.py:105 | appending adds exactly the record at the end and keeps the rest |
| Guide.BuildXmlTv | grabber.py:39-74 | the tree is `tv` with the generator attributes over the children of every record in order; n records give 9n children, n channels and 8n programmes |
| Guide.GuideCounts | grabber.py:49-72 | n records give exactly n `channel` and 8n `programme` elements |
| Guide.GuideLayout | grabber.py:49-63 | record i's channel is at 9i, immediately followed by its 8 programmes, programme j spanning block j of the window generated for that record |
| Guide.ChannelContents | grabber.py:50-54 | each channel element carries its record's id and its name as display name |
| Guide.ProgrammeElementContents | grabber.py:60-72 | a programme names the channel id, spans the given block, shows the title or `LIVE: name`, the description or the placeholder, and the image URL verbatim |
| Guide.ProgrammeContents | grabber.py:59-72 | every programme in the guide carries its record's data for its block, with the defaults for an empty title and description |
| Web.ReadTags | grabber.py:102-104 | the three tags are read in order; the first missing one raises, and none missing gives their contents |
| Web.TrimTitleSpec | grabber.py:127 | the trimmed title is the title up to its first `-`, stripped, or the whole title stripped when there is no `-`; it holds no `-`, no white space at either end, and trimming again changes nothing |
| Youtube.NormalizeSpec | grabber.py:82-83 | the normalised URL has no `&`, is a prefix of the input, ends where the first `&` was, is the input when there is no `&`, and normalising is idempotent |
| Youtube.ScanEndsIff | grabber.py:96-109 | some window of the scan holds `https://` exactly when `https://` lies wholly before `end` |
| Youtube.Scan | grabber.py:95-109 | the loop stops at the first tuner 100, 105, ... whose window holds `https://`, and returns that window |
| Youtube.ExtractLinkShape | grabber.py:98-110 | the printed URL starts with `https://`, ends with `.m3u8`, and is the text of the page ending just past the first `.m3u8` |
| Youtube.MarkerEndsWindow | grabber.py:94-100 | within the window that stops the scan, the first `.m3u8` is the one at its end |
| Youtube.FirstHitExists | grabber.py:96-109 | when `https://` lies before the marker's end, some tuner is the first whose window holds it, so the loop stops |
| Youtube.ResolveSpec | grabber.py:77-110 | only the normalised URL is fetched; the fallback when the marker is missing or the status is not 200, and the endless scan when no `https://` precedes the marker, record nothing; a missing tag raises and records nothing; otherwise the page's tags are recorded and the printed URL starts with `https://`, ends with `.m3u8` and is the page text ending just past the first `.m3u8` |
| Youtube.Grab | grabber.py:77-110 | running the scan loop, it prints or raises what `Resolve` says, fetches what it says, and appends exactly the record it says, with the identity it was called with |
| Dailymotion.VideoId | grabber.py:132 | the id is the fifth `/`-piece of the URL and holds no `/`; a URL with fewer pieces raises IndexError |
| Dailymotion.BandwidthNoComma | grabber.py:134 | a tag line without a comma raises IndexError |
| Dailymotion.BandwidthOf | grabber.py:134 | a tag line whose third comma field is `key=` and the decimal text of n reads as bandwidth n, or raises ValueError when that text has more than 4300 digits |
| Dailymotion.BandwidthOfAttributes | grabber.py:134 | the same when further attributes follow the third field, as in a real `#EXT-X-STREAM-INF` line: bandwidth n, or ValueError beyond 4300 digits, whatever the later fields say |
| Dailymotion.Pairs | grabber.py:134 | the comprehension yields one variant per pair of lines, an odd last line ignored |
| Dailymotion.PairsSuccess | grabber.py:134 | variant k has the URI line of pair k and the bandwidth read from its tag line |
| Dailymotion.PairsFailure | grabber.py:134 | a failure is the error of the first unreadable tag line, and any unreadable tag line makes the list fail |
| Dailymotion.LastMaxIndex | grabber.py:134 | the index of a greatest bandwidth, after which every bandwidth is strictly smaller |
| Dailymotion.SortedLastIsLastMax | grabber.py:134 | the last element of the stable sort by bandwidth is the last variant of greatest bandwidth |
| Dailymotion.BestSpec | grabber.py:134 | no variant raises IndexError; otherwise the result is the URI of the last variant of greatest bandwidth, cut before its first `#`, or all of it when it has none |
| Dailymotion.BestOfSpec | grabber.py:133-134 | fewer than two lines raise IndexError; an unreadable tag line raises; otherwise the URL is the URI line of a pair whose bandwidth is at least every pair's and greater than every later pair's, cut before its first `#`, or all of it when it has none |
| Dailymotion.BestPair | grabber.py:134 | when the choice succeeds, it names the pair whose URI line, cut before its first `#`, is the printed URL |
| Dailymotion.ThreeVariantExample | grabber.py:134 | of bandwidths 500, 1200 and 900 the second variant is chosen |
| Dailymotion.StreamOutcome | grabber.py:132-135 | after the record is appended, the resolver prints or raises, its own logic never looping (every fetch replies, see ## Left out); a printed URL is the best variant of the playlist at the address named by the metadata document of the URL's video id, and those two addresses are what it fetched |
| Dailymotion.ResolveSpec | grabber.py:112-135 | its own logic never loops (every fetch replies, see ## Left out); it fetches the page first; status not 200 prints the fallback and a missing tag raises, neither recording anything; otherwise it records the tags with the trimmed title, which holds no `-`, and the stream lookup decides what is printed or raised |
| Dailymotion.Grab | grabber.py:112-135 | it prints or raises what `Resolve` says, fetches what it says, and appends exactly the record it says, with the identity it was called with |
| Twitch.Get | grabber.py:162 | `d.get(key)` finds a value exactly when the key is present, and that value is stored under the key |
| Twitch.GetEntry | grabber.py:161-162 | with distinct keys, looking up the key of entry i finds entry i's value |
| Twitch.LastValueSpec | grabber.py:161-163 | an empty map raises IndexError; otherwise the printed URL is the value of the last entry |
| Twitch.ProxyOutcome | grabber.py:156-163 | the proxy step's own logic never loops (every fetch replies, see ## Left out), and it asks the proxy once or twice for the same address |
| Twitch.ProxyOutcomeSpec | grabber.py:156-163 | a `"false"` answer prints the fallback after one request; otherwise a non-empty map prints its last URL after two, and an empty one raises IndexError |
| Twitch.ResolveSpec | grabber.py:137-163 | its own logic never loops (every fetch replies, see ## Left out); it fetches the page first; status not 200 prints the fallback and a missing tag raises, neither recording anything; otherwise it records the tags with the trimmed title, and the proxy, asked once or twice at the proxy address, decides what is printed or raised |
| Twitch.Grab | grabber.py:137-163 | it prints or raises what `Resolve` says, fetches what it says, and appends exactly the record it says, with the identity it was called with |
| Grabber.Classify | grabber.py:174-178 | a metadata line has at least one field |
| Grabber.ClassifySpec | grabber.py:174-178 | a line is skipped exactly when blank or `##`; a link is the stripped line starting with a scheme; a metadata line's fields join back into the stripped line; surrounding white space changes nothing |
| Grabber.Host | grabber.py:186 | the host is the longest prefix without `/`, `?` or `#` |
| Grabber.HostOf | grabber.py:186 | a host followed by nothing or by a delimiter is read back as that host |
| Grabber.NetlocOf | grabber.py:186-190 | the network location of `http(s)://host...` is the host |
| Grabber.PlatformOf | grabber.py:186-191 | a link goes to a resolver exactly when its network location is one of the three hosts |
| Grabber.YoutubeLink | grabber.py:186-187 | a YouTube watch address goes to the YouTube resolver |
| Grabber.AssignComplete | grabber.py:178-182 | a complete metadata line sets all four values whatever came before; an incomplete one keeps the logo; the name is always the stripped first field |
| Grabber.KindsAt | grabber.py:173-178 | each line is classified on its own |
| Grabber.ConfigAfterStep | grabber.py:173-182 | one more line changes the values only when it is a metadata line |
| Grabber.LatestMetaWins | grabber.py:165-184 | after a complete metadata line followed by no other, the values are what that line says |
| Grabber.NoMetaYet | grabber.py:165-168 | before any metadata line the identity is empty |
| Grabber.Resolve | grabber.py:185-191 | the resolver of the link's host prints or raises, fetches and appends what that host's `Resolve` says |
| Grabber.StepOfSpec | grabber.py:173-191 | one iteration: the output grows by at most one line, and only while the run goes on; the values change as `Next` says; at most one record is appended, only for a link, with the identity in effect; skipped lines and other hosts change nothing; a link to a known host prints exactly its resolver's line and fetches its addresses, and the run goes on exactly when it printed |
| Grabber.FallbackStep | grabber.py:185-191 | a link to a known host whose page does not answer 200 prints the fallback, records nothing, and the run goes on |
| Grabber.RunOfStopped | grabber.py:171-191 | once a step has ended the run, the remaining lines change nothing |
| Grabber.RunOutGrows | grabber.py:171-191 | what was printed before the loop stays at the front of the output |
| Grabber.RunConfig | grabber.py:165-191 | a run that goes through every line ends with the values that all the metadata lines set |
| Grabber.PlaylistLength | grabber.py:171-191 | a run that goes through every line prints one line per complete metadata line and per link to a known host, and nothing for the other lines |
| Grabber.RecordsTagged | grabber.py:171-191 | every record of the run was appended at a link line and carries the identity in effect there |
| Grabber.RecordsFromLinks | grabber.py:165-191 | every record of a run of the whole file comes from a link line of the file, with the identity the lines before it set |
| Grabber.RunFacts | grabber.py:165-191 | a run of the whole file starts its output with the header, and when it completes, ends with the values of all lines and prints one line per printing line after the header |
| Grabber.Script.constructor | grabber.py:165-168 | the values start empty, nothing printed, the registry empty |
| Grabber.Script.Print | grabber.py:172 | printing adds exactly one line to the output |
| Grabber.Script.TakeMeta | grabber.py:177-184 | the fields are assigned in turn; four or more print the entry, fewer raise IndexError with nothing printed |
| Grabber.Script.TakeLink | grabber.py:185-191 | another host changes nothing; for a known host, the run goes on, raises or is stuck as the resolver's outcome says; the output gains exactly the line it printed, the fetched addresses are added, and the record it says is appended with the current identity |
| Grabber.Script.Step | grabber.py:173-191 | one line: status, values, output, fetched addresses and records become what `StepOf` says |
| Grabber.Script.Run | grabber.py:171-191 | the loop ends in exactly the state `RunOf` gives for the classified lines, from the empty values and the output so far |
| Grabber.RunScript | grabber.py:165-194 | the output is the header followed by the playlist that `RunOf` prints; the guide is built exactly when no line ended the run, from every collected record; a complete run prints one line per complete metadata line and per link to a known host; every record comes from a link line with the identity in effect there |

## Left out

- Network access is left out. Fetches, timeouts and `disable_warnings` become the total functions of `Env`, so one address always gets one reply. The two Twitch proxy requests therefore agree. The requests at grabber.py:132, 133, 156 and 160 pass no timeout and can block forever; the model does not capture that, so "never loops" in the rows above speaks only of the resolvers' own logic.
- HTML and JSON parsing are left out. BeautifulSoup's `og:` lookup is an optional string per tag. A decoded JSON value is a string or anything else. The URL map is a list of pairs with distinct keys, in document order.
- The proxy map's values are modelled as strings.
- `str.title()` is a parameter of `Env`, because it is Unicode case mapping.
- `int()` is modelled for ASCII digits, an optional sign, `_` separators, surrounding white space and CPython's default limit of 4300 digits (`sys.set_int_max_str_digits` is never called). Other Unicode digits are not modelled.
- `urlparse(...).netloc` is simplified: after the first `:`, when `//` follows, the text up to the next `/`, `?` or `#`. Its removal of tabs and newlines, its ValueError on bad IPv6 brackets, and its ValueError on a non-ASCII netloc whose NFKC form gains `/`, `?`, `#`, `@` or `:` are not modelled.
- Guide.BuildXmlTv: lxml raises ValueError when an attribute or a text is given characters that XML does not allow, such as NUL or other control characters. The model always builds the guide.
- `strftime('%Y%m%d%H%M%S %z')` and `etree.tostring` are not modelled. The guide is an element tree whose times are zoned readings.
- Calendar conversion is not modelled. A reading is seconds on the local wall clock.
- The zone is a fixed +08:00. Historical Kuala Lumpur offsets before 1982 and `datetime` overflow are not modelled.
- File I/O is left out: reading `streams.txt`, writing `epg.xml` and deleting the temporary files. The lines are a parameter, and the guide is returned.
- The exact spacing of the printed lines is kept, but the output encoding is not.
- Youtube.Grab: the endless loop of the source is the outcome `Hung`. When no `https://` lies before the first `.m3u8`, the method decides this up front instead of looping.
- Grabber.Script.Run: the lines are classified before the loop starts instead of one at a time. Classifying does nothing else, so this cannot be observed.
- Web.Fault: a missing JSON key (KeyError) and indexing a missing list entry in the metadata path are one fault, `MissingField`.
- Dailymotion.SortByBandwidth: the sort is not proved to be a permutation. Only its last element is characterised, because that is all the resolver reads.
- Dailymotion.StreamOutcome: `requests.get(...).json()` failing on a non-JSON reply is not modelled. The metadata reply is already the decoded field.

## Findings

| source | as written | input that shows it | evidently intended | confidence | as-written member | corrected member |
|---|---|---|---|---|---|---|
| grabber.py:23 | `last_hour = tz.localize(last_hour)` looks up the name `tz`, which the module never binds; the zone is bound as `my_timezone` on line 11 | any reading, e.g. the first call from `build_xml_tv` with one record | `my_timezone.localize(last_hour)`: attach the Asia/Kuala_Lumpur zone, +08:00 | not executed | Times.AsWrittenAlwaysFails | Times.GenerateTimes |
