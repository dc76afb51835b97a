/**
 * The extension's per-profile scan limiter. Local storage holds, under one
 * key, a JSON object mapping each profile user name to the timestamps (in
 * milliseconds) of its scans. Reading the history prunes it to the last
 * hour; a profile may be scanned while fewer than 400 of its scans are recent.
 * The clock (`Date.now()`) is the parameter `now`.
 */
module RateLimiter {
  import opened Common

  const MaxScansPerProfilePerHour: nat := 400
  const CooldownMinutes: nat := 60
  /** The window, in milliseconds. */
  const WindowMs: nat := CooldownMinutes * 60 * 1000

  type History = map<string, seq<int>>

  /** What `localStorage.getItem` finds under the limiter's key, once `JSON.parse` has run on it. */
  datatype StoredData =
    | Absent                      // no entry, or the empty string
    | Unparsable                  // JSON.parse or the per-profile `filter` throws
    | Parsed(history: History)

  // ---------------------------------------------------------------------
  // Pruning
  // ---------------------------------------------------------------------

  /** `timestamps.filter(ts => ts > cutoff)` */
  function Recent(ts: seq<int>, cutoff: int): (r: seq<int>)
    ensures |r| <= |ts|
    ensures forall k :: 0 <= k < |r| ==> r[k] > cutoff
  {
    Filter(ts, (t: int) => t > cutoff)
  }

  /** A timestamp survives the filter exactly when it is in the list and after the cutoff. */
  lemma RecentMembers(ts: seq<int>, cutoff: int, x: int)
    ensures x in Recent(ts, cutoff) <==> x in ts && x > cutoff
  {
    FilterMembers(ts, (t: int) => t > cutoff, x);
  }

  /** A list already after the cutoff passes the filter unchanged. */
  lemma RecentKeepsAll(ts: seq<int>, cutoff: int)
    requires forall k :: 0 <= k < |ts| ==> ts[k] > cutoff
    ensures Recent(ts, cutoff) == ts
  {
    FilterAll(ts, (t: int) => t > cutoff);
  }

  /** Filtering at a cutoff and then at a later one is filtering at the later one. */
  lemma RecentLater(ts: seq<int>, cutoff: int, cutoff': int)
    requires cutoff <= cutoff'
    ensures Recent(Recent(ts, cutoff), cutoff') == Recent(ts, cutoff')
  {
    FilterTwice(ts, (t: int) => t > cutoff, (t: int) => t > cutoff', (t: int) => t > cutoff');
  }

  /** The profiles of the keys `keys` whose recent list is not empty, with that list. */
  function PruneOn(h: History, keys: set<string>, cutoff: int): History {
    map p | p in keys && p in h && Recent(h[p], cutoff) != [] :: Recent(h[p], cutoff)
  }

  /** The loop of `getAllScans` over every profile. */
  function Prune(h: History, cutoff: int): History {
    PruneOn(h, h.Keys, cutoff)
  }

  lemma PruneOnStep(h: History, keys: set<string>, p: string, cutoff: int)
    requires p in h && p !in keys
    ensures PruneOn(h, keys + {p}, cutoff) ==
      if Recent(h[p], cutoff) != [] then PruneOn(h, keys, cutoff)[p := Recent(h[p], cutoff)]
      else PruneOn(h, keys, cutoff)
  {
  }

  /** `getAllScans` as a function of the stored data. */
  function AllScans(stored: StoredData, now: int): History {
    match stored
    case Parsed(history) => Prune(history, now - WindowMs)
    case _ => map[]
  }

  /** `allScans[profileUsername] || []` */
  function HistoryIn(h: History, profile: string): seq<int> {
    if profile in h then h[profile] else []
  }

  /** The history `getScanHistoryForProfile` returns. */
  function HistoryFor(stored: StoredData, profile: string, now: int): seq<int> {
    HistoryIn(AllScans(stored, now), profile)
  }

  /** The map `recordScan` writes back. */
  function Recorded(h: History, profile: string, now: int): History {
    h[profile := HistoryIn(h, profile) + [now]]
  }

  // ---------------------------------------------------------------------
  // The limiter over local storage
  // ---------------------------------------------------------------------

  class ScanStore {
    /** The limiter's entry in local storage. */
    var stored: StoredData

    constructor (initial: StoredData)
      ensures stored == initial
    {
      stored := initial;
    }

    /** `getAllScans`: the stored map with every list filtered to the last hour and empty lists dropped. */
    method GetAllScans(now: int) returns (cleanedHistory: History)
      ensures cleanedHistory == AllScans(stored, now)
      ensures forall p :: p in cleanedHistory ==> cleanedHistory[p] != []
    {
      match stored
      case Parsed(history) =>
        var oneHourAgo := now - WindowMs;
        cleanedHistory := map[];
        var todo := history.Keys;
        while todo != {}
          invariant todo <= history.Keys
          invariant cleanedHistory == PruneOn(history, history.Keys - todo, oneHourAgo)
          decreases |todo|
        {
          var profile :| profile in todo;
          PruneOnStep(history, history.Keys - todo, profile, oneHourAgo);
          assert history.Keys - (todo - {profile}) == (history.Keys - todo) + {profile};
          var validTimestamps := Recent(history[profile], oneHourAgo);
          if |validTimestamps| > 0 {
            cleanedHistory := cleanedHistory[profile := validTimestamps];
          }
          todo := todo - {profile};
        }
        assert history.Keys - todo == history.Keys;
      case Absent =>
        cleanedHistory := map[];
      case Unparsable =>
        cleanedHistory := map[];
    }

    /** `getScanHistoryForProfile`: the profile's recent timestamps, or none. */
    method GetScanHistoryForProfile(profileUsername: string, now: int) returns (history: seq<int>)
      ensures history == HistoryFor(stored, profileUsername, now)
      ensures forall k :: 0 <= k < |history| ==> history[k] > now - WindowMs
    {
      var allScans := GetAllScans(now);
      history := if profileUsername in allScans then allScans[profileUsername] else [];
    }

    /** `recordScan`: append `now` to the profile's pruned list and store the pruned map; the limit is not consulted. */
    method RecordScan(profileUsername: string, now: int)
      modifies this
      ensures stored == Parsed(Recorded(AllScans(old(stored), now), profileUsername, now))
    {
      var allScans := GetAllScans(now);
      if profileUsername !in allScans {
        allScans := allScans[profileUsername := []];
      }
      allScans := allScans[profileUsername := allScans[profileUsername] + [now]];
      stored := Parsed(allScans);
    }

    /** `canScan`: fewer than 400 recent scans of the profile. */
    method CanScan(profileUsername: string, now: int) returns (allowed: bool)
      ensures allowed <==> |HistoryFor(stored, profileUsername, now)| < MaxScansPerProfilePerHour
    {
      var history := GetScanHistoryForProfile(profileUsername, now);
      allowed := |history| < MaxScansPerProfilePerHour;
    }

    /** `getRemainingScans`: how many of the 400 are left, never negative. */
    method GetRemainingScans(profileUsername: string, now: int) returns (remaining: int)
      ensures 0 <= remaining <= MaxScansPerProfilePerHour
      ensures remaining > 0 <==> |HistoryFor(stored, profileUsername, now)| < MaxScansPerProfilePerHour
      ensures |HistoryFor(stored, profileUsername, now)| <= MaxScansPerProfilePerHour ==>
        remaining + |HistoryFor(stored, profileUsername, now)| == MaxScansPerProfilePerHour
    {
      var history := GetScanHistoryForProfile(profileUsername, now);
      remaining := Max(0, MaxScansPerProfilePerHour - |history|);
    }

    /** `getTimeUntilNextScan`, in whole minutes. */
    method GetTimeUntilNextScan(profileUsername: string, now: int) returns (minutes: int)
      ensures minutes == MinutesUntilNextScan(HistoryFor(stored, profileUsername, now), now)
    {
      var history := GetScanHistoryForProfile(profileUsername, now);
      if |history| < MaxScansPerProfilePerHour {
        return 0;
      }
      var oldestScan := MinOf(history);
      var resetTime := oldestScan + WindowMs;
      var timeRemaining := resetTime - now;
      minutes := Max(0, CeilDiv(timeRemaining, 60 * 1000));
    }
  }

  // ---------------------------------------------------------------------
  // Arithmetic of the wait
  // ---------------------------------------------------------------------

  function Max(a: int, b: int): int {
    if a >= b then a else b
  }

  /** `Math.min(...s)` */
  function MinOf(s: seq<int>): (m: int)
    requires |s| > 0
    ensures m in s && forall k :: 0 <= k < |s| ==> m <= s[k]
  {
    if |s| == 1 then s[0]
    else
      var m := MinOf(s[..|s| - 1]);
      assert forall k :: 0 <= k < |s| - 1 ==> s[..|s| - 1][k] == s[k];
      if s[|s| - 1] < m then s[|s| - 1] else m
  }

  /** `Math.ceil(x / d)` for integers. */
  function CeilDiv(x: int, d: int): (r: int)
    requires d > 0
    ensures d * (r - 1) < x <= d * r
  {
    -((-x) / d)
  }

  /** What `getTimeUntilNextScan` returns for a profile's recent history. */
  function MinutesUntilNextScan(history: seq<int>, now: int): int {
    if |history| < MaxScansPerProfilePerHour then 0
    else Max(0, CeilDiv(MinOf(history) + WindowMs - now, 60 * 1000))
  }

  // ---------------------------------------------------------------------
  // Properties of the limiter
  // ---------------------------------------------------------------------

  /** Missing or unparsable data reads as an empty history. */
  lemma NoDataNoHistory(now: int, profile: string)
    ensures AllScans(Absent, now) == map[] && AllScans(Unparsable, now) == map[]
    ensures HistoryFor(Absent, profile, now) == [] && HistoryFor(Unparsable, profile, now) == []
  {
  }

  /** Every list read back is non-empty and holds only timestamps of the last hour. */
  lemma AllScansRecent(stored: StoredData, now: int, p: string)
    requires p in AllScans(stored, now)
    ensures AllScans(stored, now)[p] != []
    ensures forall k :: 0 <= k < |AllScans(stored, now)[p]| ==> AllScans(stored, now)[p][k] > now - WindowMs
  {
  }

  /** A timestamp is kept exactly when it was stored for that profile and is newer than an hour. */
  lemma HistoryForMembers(history: History, p: string, now: int, x: int)
    ensures x in HistoryFor(Parsed(history), p, now) <==>
      p in history && x in history[p] && x > now - WindowMs
  {
    if p in history {
      RecentMembers(history[p], now - WindowMs, x);
    }
  }

  /** Pruning at one time and reading at a later time is reading at the later time. */
  lemma PruneLater(h: History, now: int, now': int)
    requires now <= now'
    ensures Prune(Prune(h, now - WindowMs), now' - WindowMs) == Prune(h, now' - WindowMs)
  {
    var once := Prune(h, now - WindowMs);
    forall p | p in h {
      RecentLater(h[p], now - WindowMs, now' - WindowMs);
    }
    forall p | p in h && Recent(h[p], now - WindowMs) == []
      ensures Recent(h[p], now' - WindowMs) == []
    {
      assert Recent(Recent(h[p], now - WindowMs), now' - WindowMs) == [];
    }
    assert Prune(once, now' - WindowMs).Keys == Prune(h, now' - WindowMs).Keys;
  }

  /** Reading the limiter twice at the same time gives the same map. */
  lemma PruneIdempotent(h: History, now: int)
    ensures Prune(Prune(h, now - WindowMs), now - WindowMs) == Prune(h, now - WindowMs)
  {
    PruneLater(h, now, now);
  }

  /** After `recordScan`, the profile's history has gained exactly `now`, whether or not it was at the limit. */
  lemma {:induction false} RecordThenHistory(stored: StoredData, p: string, now: int)
    ensures HistoryFor(Parsed(Recorded(AllScans(stored, now), p, now)), p, now) == HistoryFor(stored, p, now) + [now]
    ensures |HistoryFor(Parsed(Recorded(AllScans(stored, now), p, now)), p, now)| == |HistoryFor(stored, p, now)| + 1
  {
    ProfileRecent(stored, p, now);
    ReadRecorded(AllScans(stored, now), p, now);
  }

  /** Every timestamp a profile's history reads back is from the last hour. */
  lemma ProfileRecent(stored: StoredData, p: string, now: int)
    ensures forall k :: 0 <= k < |HistoryFor(stored, p, now)| ==> HistoryFor(stored, p, now)[k] > now - WindowMs
  {
    if p in AllScans(stored, now) {
      AllScansRecent(stored, now, p);
    }
  }

  /** Recording a scan on a pruned history and pruning again gives the profile's list with the new scan. */
  lemma {:induction false} ReadRecorded(all: History, p: string, now: int)
    requires forall k :: 0 <= k < |HistoryIn(all, p)| ==> HistoryIn(all, p)[k] > now - WindowMs
    ensures HistoryIn(Prune(Recorded(all, p, now), now - WindowMs), p) == HistoryIn(all, p) + [now]
  {
    var l := HistoryIn(all, p) + [now];
    var recorded := Recorded(all, p, now);
    assert recorded[p] == l;
    assert forall k :: 0 <= k < |l| ==> l[k] > now - WindowMs;
    RecentKeepsAll(l, now - WindowMs);
    assert p in Prune(recorded, now - WindowMs);
  }

  /** `recordScan` leaves the other profiles' histories as they read before. */
  lemma RecordLeavesOthers(stored: StoredData, p: string, q: string, now: int)
    requires q != p
    ensures HistoryFor(Parsed(Recorded(AllScans(stored, now), p, now)), q, now) == HistoryFor(stored, q, now)
  {
    var all := AllScans(stored, now);
    if q in all {
      RecentKeepsAll(all[q], now - WindowMs);
    }
  }

  /** Below the limit the wait is 0; at the limit it is at least the overdue part rounded up to minutes. */
  lemma NoWaitBelowLimit(history: seq<int>, now: int)
    ensures MinutesUntilNextScan(history, now) >= 0
    ensures |history| < MaxScansPerProfilePerHour ==> MinutesUntilNextScan(history, now) == 0
  {
  }

  /**
   * At the limit, with recent timestamps none of which lies in the future,
   * the wait is between 1 and 60 minutes.
   */
  lemma WaitBounds(history: seq<int>, now: int)
    requires |history| >= MaxScansPerProfilePerHour
    requires forall k :: 0 <= k < |history| ==> now - WindowMs < history[k] <= now
    ensures 1 <= MinutesUntilNextScan(history, now) <= CooldownMinutes
  {
    var x := MinOf(history) + WindowMs - now;
    assert 0 < x <= WindowMs;
    var r := CeilDiv(x, 60 * 1000);
    assert 60000 * (r - 1) < x <= 60000 * r;
    if r > 60 {
      MulMonotone(60000, 60, r - 1);
    }
  }

  /** Once the oldest recent scan is an hour old the wait is over. */
  lemma WaitOver(history: seq<int>, now: int)
    requires |history| >= MaxScansPerProfilePerHour
    requires MinOf(history) + WindowMs <= now
    ensures MinutesUntilNextScan(history, now) == 0
  {
  }

  // ---------------------------------------------------------------------
  // formatTimeRemaining
  // ---------------------------------------------------------------------

  /** `formatTimeRemaining` */
  function FormatTimeRemaining(minutes: int): string {
    if minutes <= 0 then "now"
    else if minutes < 60 then NatToString(minutes) + " min"
    else
      var hours := minutes / 60;
      var mins := minutes % 60;
      if mins > 0 then NatToString(hours) + "h " + NatToString(mins) + "min" else NatToString(hours) + "h"
  }

  /** The length of the run of decimal digits at the start of `s`. */
  function LeadingDigits(s: string): (n: nat)
    ensures n <= |s|
  {
    if s != [] && IsAsciiDigit(s[0]) then 1 + LeadingDigits(s[1..]) else 0
  }

  lemma {:induction false} LeadingDigitsOf(d: string, rest: string)
    requires AllDigits(d)
    requires rest == [] || !IsAsciiDigit(rest[0])
    ensures LeadingDigits(d + rest) == |d|
  {
    if d != [] {
      assert (d + rest)[1..] == d[1..] + rest;
      LeadingDigitsOf(d[1..], rest);
    } else {
      assert d + rest == rest;
    }
  }

  /** Reads a duration back from the text `formatTimeRemaining` shows. */
  function ParseTimeRemaining(s: string): Option<int> {
    if s == "now" then Some(0)
    else
      var n := LeadingDigits(s);
      if n == 0 then None else ParseUnit(ParseDigits(s[..n]), s[n..])
  }

  /** What follows the leading number: " min", "h", or "h " and a number of minutes. */
  function ParseUnit(value: int, rest: string): Option<int> {
    if rest == " min" then Some(value)
    else if rest == "h" then Some(60 * value)
    else if |rest| > 2 && rest[..2] == "h " then ParseMinutesAfterHours(value, rest[2..])
    else None
  }

  function ParseMinutesAfterHours(hours: int, tail: string): Option<int> {
    var k := LeadingDigits(tail);
    if k > 0 && tail[k..] == "min" then Some(60 * hours + ParseDigits(tail[..k])) else None
  }

  /** Splits `d + rest` at the end of the digit run `d`. */
  lemma {:induction false} SplitDigits(d: string, rest: string)
    requires |d| > 0 && AllDigits(d)
    requires rest != [] && !IsAsciiDigit(rest[0])
    ensures var s := d + rest; LeadingDigits(s) == |d| && s[..|d|] == d && s[|d|..] == rest
  {
    LeadingDigitsOf(d, rest);
  }

  /**
   * The displayed text determines the wait: "now" for anything not positive,
   * and otherwise the number of minutes, split into hours and minutes from 60 on.
   */
  lemma {:induction false} FormatTimeRemainingRoundTrip(minutes: int)
    ensures ParseTimeRemaining(FormatTimeRemaining(minutes)) == Some(if minutes <= 0 then 0 else minutes)
  {
    if 0 < minutes < 60 {
      RoundTripMinutes(minutes);
    } else if minutes >= 60 && minutes % 60 > 0 {
      RoundTripHoursMinutes(minutes);
    } else if minutes >= 60 {
      RoundTripHours(minutes);
    }
  }

  lemma {:induction false} RoundTripMinutes(minutes: int)
    requires 0 < minutes < 60
    ensures ParseTimeRemaining(FormatTimeRemaining(minutes)) == Some(minutes)
  {
    var d := NatToString(minutes);
    SplitDigits(d, " min");
    ParseNatToString(minutes);
    assert (d + " min")[0] != 'n';
  }

  lemma {:induction false} RoundTripHours(minutes: int)
    requires minutes >= 60 && minutes % 60 == 0
    ensures ParseTimeRemaining(FormatTimeRemaining(minutes)) == Some(minutes)
  {
    var d := NatToString(minutes / 60);
    ParseNatToString(minutes / 60);
    SplitDigits(d, "h");
    assert (d + "h")[0] != 'n';
  }

  lemma {:induction false} RoundTripHoursMinutes(minutes: int)
    requires minutes >= 60 && minutes % 60 > 0
    ensures ParseTimeRemaining(FormatTimeRemaining(minutes)) == Some(minutes)
  {
    var d := NatToString(minutes / 60);
    var e := NatToString(minutes % 60);
    assert FormatTimeRemaining(minutes) == d + ("h " + e + "min");
    ParseHoursMinutes(d, e);
    ParseNatToString(minutes / 60);
    ParseNatToString(minutes % 60);
  }

  /** Hours and minutes are read back from their two digit runs. */
  lemma {:induction false} ParseHoursMinutes(d: string, e: string)
    requires |d| > 0 && AllDigits(d) && |e| > 0 && AllDigits(e)
    ensures ParseTimeRemaining(d + ("h " + e + "min")) == Some(60 * ParseDigits(d) + ParseDigits(e))
  {
    var hours, minutes := ParseDigits(d), ParseDigits(e);
    MinutesAfterHours(hours, e);
    UnitHoursMinutes(hours, e, "h " + e + "min", Some(60 * hours + minutes));
    NumberThenUnit(d, hours, "h " + e + "min", Some(60 * hours + minutes));
  }

  /** The unit part "h <minutes>min" reads the minutes after the hours. */
  lemma {:induction false} UnitHoursMinutes(value: int, e: string, rest: string, total: Option<int>)
    requires rest == "h " + e + "min" && ParseMinutesAfterHours(value, e + "min") == total
    ensures rest != [] && !IsAsciiDigit(rest[0])
    ensures ParseUnit(value, rest) == total
  {
    assert rest[0] == 'h' && |rest| == |e| + 5;
    assert rest[..2] == "h " && rest[2..] == e + "min";
  }

  /** A number followed by a unit is read as that number in that unit. */
  lemma {:induction false} NumberThenUnit(d: string, value: int, rest: string, minutes: Option<int>)
    requires |d| > 0 && AllDigits(d) && value == ParseDigits(d)
    requires rest != [] && !IsAsciiDigit(rest[0])
    requires ParseUnit(value, rest) == minutes
    ensures ParseTimeRemaining(d + rest) == minutes
  {
    SplitDigits(d, rest);
    assert (d + rest)[0] == d[0];
  }

  lemma {:induction false} MinutesAfterHours(hours: int, e: string)
    requires |e| > 0 && AllDigits(e)
    ensures ParseMinutesAfterHours(hours, e + "min") == Some(60 * hours + ParseDigits(e))
  {
    SplitDigits(e, "min");
    MinutesRun(hours, e + "min", e);
  }

  lemma {:induction false} MinutesRun(hours: int, tail: string, e: string)
    requires |e| > 0 && LeadingDigits(tail) == |e| && tail[..|e|] == e && tail[|e|..] == "min"
    ensures ParseMinutesAfterHours(hours, tail) == Some(60 * hours + ParseDigits(e))
  {
  }
}
