/** The helpers of the sync service: the directory snapshot, the membership
    test, and the split of a millisecond timestamp into a time value. */
module Helpers {
  import opened Models

  /** The set of entry names of a directory listing. */
  function NameSet(names: seq<string>): set<string>
  {
    set n | n in names
  }

  /** Reads the entry names of a directory into a lookup set; an unreadable
      directory is fatal and yields no set at all. */
  method EntriesForDir(listing: DirListing) returns (entries: Option<set<string>>)
    ensures entries.None? <==> listing.Unreadable?
    ensures listing.Readable? ==> forall n :: n in entries.value <==> n in listing.names
  {
    if listing.Unreadable? {
      return None;
    }
    var names := listing.names;
    var s: set<string> := {};
    for i := 0 to |names|
      invariant forall n :: n in s <==> n in names[..i]
    {
      assert names[..i + 1] == names[..i] + [names[i]];
      s := s + {names[i]};
    }
    assert names[..|names|] == names;
    return Some(s);
  }

  /** Membership of a name in a snapshot. */
  function IsInEntries(entry: string, entries: set<string>): (b: bool)
    ensures b <==> entry in entries
  {
    entry in entries
  }

  /** Go's integer quotient, which truncates toward zero: the remainder it
      leaves has the sign of the dividend and is smaller than the divisor. */
  function GoQuot(a: int, b: int): (q: int)
    requires b > 0
    ensures a >= 0 ==> 0 <= a - q * b < b
    ensures a < 0 ==> -b < a - q * b <= 0
  {
    if a >= 0 then a / b else -((-a) / b)
  }

  /** Go's remainder: `GoQuot(a, b) * b + r == a`, with `r` taking the sign
      of the dividend; for a non-negative dividend it is the Euclidean one. */
  function GoRem(a: int, b: int): (r: int)
    requires b > 0
    ensures GoQuot(a, b) * b + r == a
    ensures -b < r < b
    ensures a >= 0 ==> r == a % b
    ensures a < 0 ==> r <= 0
  {
    a - b * GoQuot(a, b)
  }

  const NanosPerSecond: int := 1_000_000_000
  const NanosPerMilli: int := 1_000_000

  /** A point in time: whole seconds since the epoch and the nanoseconds
      into that second. */
  datatype Instant = Instant(sec: int, nsec: int)

  /** Go's `time.Unix(sec, nsec)`, which accepts a nanosecond argument
      outside [0, 1e9) and normalises it into the seconds. */
  function UnixTime(sec: int, nsec: int): (t: Instant)
    ensures 0 <= t.nsec < NanosPerSecond
    ensures t.sec * NanosPerSecond + t.nsec == sec * NanosPerSecond + nsec
  {
    if nsec < 0 || nsec >= NanosPerSecond then
      var n := GoQuot(nsec, NanosPerSecond);
      var s := sec + n;
      var ns := nsec - n * NanosPerSecond;
      assert -NanosPerSecond < ns < NanosPerSecond by {
        if nsec < 0 {
          assert (-nsec) == NanosPerSecond * ((-nsec) / NanosPerSecond) + (-nsec) % NanosPerSecond;
        }
      }
      if ns < 0 then Instant(s - 1, ns + NanosPerSecond) else Instant(s, ns)
    else
      Instant(sec, nsec)
  }

  /** Euclidean division by 1000 is determined by quotient and remainder. */
  lemma DivModThousand(a: int, q: int, r: int)
    requires a == 1000 * q + r && 0 <= r < 1000
    ensures a / 1000 == q && a % 1000 == r
  {
  }

  /** The time value of a millisecond timestamp: Go splits it with truncating
      division and lets `time.Unix` normalise a negative remainder, so the
      result always lies on the floor second with the non-negative
      millisecond remainder, for negative timestamps too. */
  function ParseMilliTimestamp(tm: Int64): (t: Instant)
    ensures t.sec == tm / 1000
    ensures t.nsec == (tm % 1000) * NanosPerMilli
    ensures 0 <= t.nsec < NanosPerSecond
  {
    var sec := GoQuot(tm, 1000);
    var msec := GoRem(tm, 1000);
    var t := UnixTime(sec, msec * NanosPerMilli);
    assert t.sec == tm / 1000 && t.nsec == (tm % 1000) * NanosPerMilli by {
      if msec >= 0 {
        DivModThousand(tm, sec, msec);
      } else {
        DivModThousand(tm, sec - 1, msec + 1000);
      }
    }
    t
  }
}
