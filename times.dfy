/**
  The time-block generator `generate_times` (grabber.py:15-36): eight
  contiguous three-hour blocks starting at the current hour, in the fixed
  Asia/Kuala_Lumpur zone.

  A wall-clock reading is kept as whole seconds since 1970-01-01 00:00:00 on
  the local wall clock plus a microsecond part, so calendar conversion is not
  needed: the minute of the hour is `(seconds % 3600) / 60`, whatever the date.
*/
module Times {
  import opened Wrappers

  const Minute: int := 60
  const Hour: int := 3600
  /** The length of one guide block: `timedelta(hours=3)`. */
  const Step: int := 3 * Hour
  /** The number of blocks generated per call. */
  const Blocks: nat := 8
  /** Asia/Kuala_Lumpur is UTC+08:00. */
  const KualaLumpurOffset: int := 8 * Hour

  /** A naive `datetime` such as `datetime.now()` returns: wall-clock seconds and microseconds. */
  datatype Naive = Naive(seconds: int, micro: int)

  /** An aware `datetime`: a wall-clock reading together with its UTC offset in seconds. */
  datatype Zoned = Zoned(local: Naive, offset: int)

  function MinuteOf(n: Naive): int { (n.seconds % Hour) / Minute }

  function SecondOf(n: Naive): int { n.seconds % Minute }

  /** The absolute instant a zoned reading denotes, as seconds since the UTC epoch. */
  function Instant(z: Zoned): int { z.local.seconds - z.offset }

  /** `curr_dt.replace(microsecond=0, second=0, minute=0)`. */
  function FloorHour(n: Naive): (r: Naive)
    ensures r.micro == 0 && MinuteOf(r) == 0 && SecondOf(r) == 0
    ensures r.seconds <= n.seconds < r.seconds + Hour
    ensures n.seconds - r.seconds == 60 * MinuteOf(n) + SecondOf(n)
  {
    HourFloor(n.seconds);
    Naive(n.seconds - n.seconds % Hour, 0)
  }

  /** Taking away the seconds past the hour leaves whole hours, and keeps the seconds past the minute. */
  lemma HourFloor(s: int)
    ensures (s - s % Hour) % Hour == 0 && (s - s % Hour) % Minute == 0
    ensures s % Minute == (s % Hour) % Minute
  {
    var q := s / Hour;
    var m := s % Hour;
    assert s - m == Hour * q;
    WholeHours(q);
    var a := m / Minute;
    var b := m % Minute;
    assert s == Minute * (60 * q + a) + b;
    MinuteRemainder(s, 60 * q + a, b);
  }

  lemma MinuteRemainder(s: int, k: int, b: int)
    requires 0 <= b < Minute && s == Minute * k + b
    ensures s % Minute == b
  {
  }

  /** Attaching the Kuala Lumpur zone to a naive reading (what `my_timezone.localize` does). */
  function Localize(n: Naive): Zoned {
    Zoned(n, KualaLumpurOffset)
  }

  /** `z + timedelta(seconds=d)` on an aware `datetime`: the wall clock moves, the zone stays. */
  function Add(z: Zoned, d: int): Zoned {
    Zoned(Naive(z.local.seconds + d, z.local.micro), z.offset)
  }

  /** The `i`-th block boundary for a clock reading `now`: the floored hour plus `i` steps. */
  function Boundary(now: Naive, i: int): Zoned {
    Add(Localize(FloorHour(now)), Step * i)
  }

  /**
    `generate_times(curr_dt)`: the list of start boundaries and the list of end
    boundaries. The first start is `now` floored to the hour in the fixed zone,
    each start is three hours after the previous one, each end is the next start,
    and the last end is three hours after the last start.
  */
  method GenerateTimes(now: Naive) returns (starts: seq<Zoned>, ends: seq<Zoned>)
    ensures |starts| == Blocks && |ends| == Blocks
    ensures starts[0] == Localize(FloorHour(now))
    ensures forall i :: 0 <= i < Blocks - 1 ==> starts[i + 1] == Add(starts[i], Step)
    ensures forall i :: 0 <= i < Blocks - 1 ==> ends[i] == starts[i + 1]
    ensures ends[Blocks - 1] == Add(starts[Blocks - 1], Step)
    ensures forall i :: 0 <= i < Blocks ==> starts[i] == Boundary(now, i) && ends[i] == Boundary(now, i + 1)
  {
    var lastHour := Localize(FloorHour(now));
    starts := [lastHour];
    for x := 0 to 7
      invariant |starts| == x + 1
      invariant lastHour == starts[x] == Boundary(now, x)
      invariant forall i :: 0 <= i < x + 1 ==> starts[i] == Boundary(now, i)
    {
      lastHour := Add(lastHour, Step);
      starts := starts + [lastHour];
    }
    ends := starts[1..];
    ends := ends + [Add(starts[|starts| - 1], Step)];
  }

  /**
    The blocks are contiguous three-hour intervals that begin on the hour, in the
    fixed zone, and the first one contains the reading it was generated from.
  */
  lemma BlocksContiguous(now: Naive, i: int)
    requires 0 <= i < Blocks
    ensures Instant(Boundary(now, i + 1)) - Instant(Boundary(now, i)) == Step
    ensures Boundary(now, i).offset == KualaLumpurOffset
    ensures MinuteOf(Boundary(now, i).local) == 0 && SecondOf(Boundary(now, i).local) == 0
    ensures Boundary(now, i).local.micro == 0
    ensures Boundary(now, 0).local.seconds <= now.seconds < Boundary(now, 0).local.seconds + Hour
  {
    var q := now.seconds / Hour;
    assert FloorHour(now).seconds == Hour * q;
    assert Boundary(now, i).local.seconds == Hour * (q + 3 * i);
    WholeHours(q + 3 * i);
  }

  lemma WholeHours(q: int)
    ensures (Hour * q) % Hour == 0 && (Hour * q) % Minute == 0
  {
    assert Hour * q == Minute * (60 * q);
  }

  // ---------------------------------------------------------------------------
  // As written, line 23 reads `tz.localize(...)`, and no name `tz` exists in the
  // module (the zone is bound to `my_timezone`, line 11), so every call raises
  // NameError. The function below models that; the rest of the model uses the
  // evident intent, `Localize` above.
  // ---------------------------------------------------------------------------

  /** The names bound at module level in grabber.py (imports, globals, functions). */
  const ModuleNames: set<string> := {
    "os", "datetime", "timedelta", "urlparse", "pytz", "requests", "etree",
    "BeautifulSoup", "my_timezone", "channels", "generate_times", "build_xml_tv",
    "grab_youtube", "grab_dailymotion", "grab_twitch", "channel_name", "channel_id",
    "category", "channel_logo", "f", "line", "channel_xml"
  }

  /** `generate_times` exactly as written: the lookup of the name `tz` on line 23 comes first. */
  function GenerateTimesAsWritten(now: Naive): Result<seq<Zoned>, string> {
    if "tz" in ModuleNames then
      Success(seq(Blocks, i => Boundary(now, i)))
    else
      Failure("NameError: name 'tz' is not defined")
  }

  /** As written, `generate_times` fails on every input. */
  lemma AsWrittenAlwaysFails(now: Naive)
    ensures GenerateTimesAsWritten(now) == Failure("NameError: name 'tz' is not defined")
  {
  }
}
