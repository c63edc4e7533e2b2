/** The fixed-length time series behind the dashboard charts: one window
    of the latest values per metric key, filled with zeros at the start,
    pushed one value at a time, and refitted when the window length
    changes. Series are plain values: each update builds new sequences
    and leaves the old ones as they were. */
module TimeSeries {
  /** The series per metric key (`Record<string, number[]>`). */
  type Series = map<string, seq<real>>

  /** The default window length, `options.maxLength ?? 60`. */
  const DefaultMaxLength := 60

  /** The default metric keys, in the order of `DEFAULT_SELECTORS`. */
  const DefaultKeys := ["cpu", "ram", "gpu", "vram"]

  /** `new Array(n).fill(0)`. */
  function Zeros(n: nat): (r: seq<real>)
    ensures |r| == n && forall i :: 0 <= i < n ==> r[i] == 0.0
  {
    seq(n, _ => 0.0)
  }

  /** `createSeries`: a window of zeros for every selector key. */
  function CreateSeries(keys: seq<string>, maxLength: nat): (r: Series)
    ensures r.Keys == set k | k in keys
    ensures forall k :: k in r ==> r[k] == Zeros(maxLength)
  {
    map k | k in keys :: Zeros(maxLength)
  }

  /** The resize rule: the most recent `maxLength` values, left-padded with
      zeros when there are fewer; a series of the right length is kept. */
  function Resize(xs: seq<real>, maxLength: nat): (r: seq<real>)
    ensures |r| == maxLength
    ensures forall i :: 0 <= i < maxLength ==>
      r[i] == if i < maxLength - |xs| then 0.0 else xs[|xs| - maxLength + i]
  {
    if |xs| == maxLength then xs
    else if |xs| > maxLength then xs[|xs| - maxLength..]
    else Zeros(maxLength - |xs|) + xs
  }

  /** Resizing to the same length twice changes nothing the second time. */
  lemma ResizeIdempotent(xs: seq<real>, maxLength: nat)
    ensures Resize(Resize(xs, maxLength), maxLength) == Resize(xs, maxLength)
  {
  }

  /** Growing a window and shrinking it back gives the original. */
  lemma GrowThenShrink(xs: seq<real>, n: nat)
    requires |xs| <= n
    ensures Resize(Resize(xs, n), |xs|) == xs
  {
    var r := Resize(Resize(xs, n), |xs|);
    assert forall i :: 0 <= i < |xs| ==> r[i] == xs[i];
  }

  /** `pushValue`: drops the oldest values so that, with the new one
      appended last, at most `maxLength` remain, then left-pads with zeros. */
  function PushValue(series: seq<real>, value: real, maxLength: nat): seq<real>
  {
    var trimmed :=
      if |series| >= maxLength then
        (if |series| - maxLength + 1 <= |series| then series[|series| - maxLength + 1..] else [])
      else series;
    var pushed := trimmed + [value];
    if |pushed| < maxLength then Zeros(maxLength - |pushed|) + pushed else pushed
  }

  /** Pushing is appending and then applying the resize rule. */
  lemma PushValueIsResize(series: seq<real>, value: real, maxLength: nat)
    requires maxLength >= 1
    ensures PushValue(series, value, maxLength) == Resize(series + [value], maxLength)
  {
    var all := series + [value];
    if |series| >= maxLength {
      assert all[|all| - maxLength..] == series[|series| - maxLength + 1..] + [value];
    }
  }

  /** The window after a push: `maxLength` values, the latest
      `maxLength - 1` earlier ones in order, left-padded with zeros, then
      the pushed value. */
  predicate PushedWindow(r: seq<real>, series: seq<real>, value: real, maxLength: nat)
  {
    maxLength >= 1 && |r| == maxLength && r[maxLength - 1] == value
    && forall i :: 0 <= i < maxLength - 1 ==>
         r[i] == if i < maxLength - 1 - |series| then 0.0 else series[|series| - (maxLength - 1) + i]
  }

  lemma ResizeAppendedAt(series: seq<real>, value: real, maxLength: nat, i: nat)
    requires i < maxLength - 1
    ensures Resize(series + [value], maxLength)[i]
      == if i < maxLength - 1 - |series| then 0.0 else series[|series| - (maxLength - 1) + i]
  {
    var all := series + [value];
    var n := |series|;
    if n + 1 >= maxLength {
      var k := n + 1 - maxLength + i;
      assert Resize(all, maxLength)[i] == all[k];
      assert all[k] == series[k];
    } else {
      var pad := maxLength - (n + 1);
      assert Resize(all, maxLength) == Zeros(pad) + all;
      if i >= pad {
        assert all[i - pad] == series[i - pad];
      }
    }
  }

  lemma ResizeAppended(series: seq<real>, value: real, maxLength: nat)
    requires maxLength >= 1
    ensures PushedWindow(Resize(series + [value], maxLength), series, value, maxLength)
  {
    var all := series + [value];
    var r := Resize(all, maxLength);
    assert r[maxLength - 1] == all[|all| - 1] == value;
    forall i | 0 <= i < maxLength - 1
      ensures r[i] == if i < maxLength - 1 - |series| then 0.0 else series[|series| - (maxLength - 1) + i]
    {
      ResizeAppendedAt(series, value, maxLength, i);
    }
  }

  /** After a push the window has exactly `maxLength` values: the latest
      `maxLength - 1` earlier ones in order, left-padded with zeros, then
      the pushed value. */
  lemma PushValueWindow(series: seq<real>, value: real, maxLength: nat)
    requires maxLength >= 1
    ensures PushedWindow(PushValue(series, value, maxLength), series, value, maxLength)
  {
    PushValueIsResize(series, value, maxLength);
    ResizeAppended(series, value, maxLength);
  }

  /** With a zero length the window keeps only the pushed value. */
  lemma PushValueZeroLength(series: seq<real>, value: real)
    ensures PushValue(series, value, 0) == [value]
  {
  }

  /** `prev[key] ?? fallback`. */
  function Lookup(s: Series, key: string, fallback: seq<real>): seq<real>
  {
    if key in s then s[key] else fallback
  }

  /** A series needs refitting when its length differs from the window
      (`updated !== prevSeries`). */
  predicate NeedsResize(prev: Series, key: string, maxLength: nat)
  {
    |Lookup(prev, key, [])| != maxLength
  }

  /** The length effect: when some selector series needs refitting, a new
      record of just the selector keys, each refitted; otherwise the
      previous record as it was. */
  function SyncLengths(prev: Series, keys: seq<string>, maxLength: nat): (r: Series)
    ensures (exists k :: k in keys && NeedsResize(prev, k, maxLength)) ==> r.Keys == set k | k in keys
    ensures forall k :: k in keys ==> k in r || (k !in prev && maxLength == 0)
  {
    if exists k :: k in keys && NeedsResize(prev, k, maxLength) then
      map k | k in keys :: Resize(Lookup(prev, k, []), maxLength)
    else prev
  }

  /** After the length effect every selector series present has the window
      length, and a second run changes nothing. */
  lemma SyncLengthsFits(prev: Series, keys: seq<string>, maxLength: nat)
    ensures var r := SyncLengths(prev, keys, maxLength);
      (forall k :: k in keys && k in r ==> |r[k]| == maxLength)
      && SyncLengths(r, keys, maxLength) == r
  {
  }

  /** The sample effect: every selector series gets its selector's value
      pushed; with no selectors the record is kept. */
  function PushAll(prev: Series, keys: seq<string>, value: string -> real, maxLength: nat): (r: Series)
  {
    if keys == [] then prev
    else map k | k in keys :: PushValue(Lookup(prev, k, Zeros(maxLength)), value(k), maxLength)
  }

  /** After a sample every selector series has the window length and ends
      with that selector's value. */
  lemma PushAllAppends(prev: Series, keys: seq<string>, value: string -> real, maxLength: nat)
    requires maxLength >= 1
    ensures var r := PushAll(prev, keys, value, maxLength);
      forall k :: k in keys ==> k in r && |r[k]| == maxLength && r[k][maxLength - 1] == value(k)
  {
    forall k | k in keys
      ensures var r := PushAll(prev, keys, value, maxLength);
        k in r && |r[k]| == maxLength && r[k][maxLength - 1] == value(k)
    {
      PushValueWindow(Lookup(prev, k, Zeros(maxLength)), value(k), maxLength);
    }
  }

  /** `addDataPoint(key, value)`. */
  function AddDataPoint(prev: Series, key: string, value: real, maxLength: nat): (r: Series)
    ensures r.Keys == prev.Keys + {key}
    ensures forall k :: k in prev && k != key ==> r[k] == prev[k]
  {
    prev[key := PushValue(Lookup(prev, key, Zeros(maxLength)), value, maxLength)]
  }

  /** Adding a point to a missing key starts from a window of zeros. */
  lemma AddDataPointToNewKey(prev: Series, key: string, value: real, maxLength: nat)
    requires key !in prev && maxLength >= 1
    ensures var r := AddDataPoint(prev, key, value, maxLength);
      r[key] == Zeros(maxLength - 1) + [value]
  {
    var r := AddDataPoint(prev, key, value, maxLength);
    PushValueWindow(Zeros(maxLength), value, maxLength);
    assert forall i :: 0 <= i < maxLength ==> r[key][i] == (Zeros(maxLength - 1) + [value])[i];
  }

  /** `getSeriesData(key)`: the key's series, or none for an unknown key. */
  function GetSeriesData(s: Series, key: string): (r: seq<real>)
    ensures key !in s ==> r == []
    ensures key in s ==> r == s[key]
  {
    Lookup(s, key, [])
  }
}
