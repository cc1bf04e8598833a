/** The failure limiter: a tumbling window per key, anchored at the first failure. */
module RateLimit {
  import opened Types

  datatype Endpoint = Activating | Verifying | Challenging

  /** The endpoint name is the first part of the joined key, so keys of different endpoints never meet. */
  datatype Key = Key(endpoint: Endpoint, caller: string)

  datatype Window = Window(start: Time, failures: nat)
  type Table = map<Key, Window>

  /** The configured bound; a value of zero or less in either field turns the limiter off. */
  datatype Limits = Limits(failures: int, window: Time) {
    predicate Enabled() {
      failures > 0 && window > 0
    }
  }

  predicate InWindow(l: Limits, t: Table, k: Key, now: Time) {
    k in t && now - t[k].start < l.window
  }

  predicate IsLimited(l: Limits, t: Table, k: Key, now: Time) {
    l.Enabled() && InWindow(l, t, k, now) && t[k].failures >= l.failures
  }

  function Record(l: Limits, t: Table, k: Key, now: Time): Table {
    if !l.Enabled() then t
    else if InWindow(l, t, k, now) then t[k := t[k].(failures := t[k].failures + 1)]
    else t[k := Window(now, 1)]
  }

  function Reset(t: Table, k: Key): Table {
    t - {k}
  }

  // ----- counting recorded failures -----

  /** How many of the recorded failure times fall in [lo, hi). */
  function CountIn(times: seq<Time>, lo: Time, hi: Time): (n: nat)
    ensures n <= |times|
  {
    if times == [] then 0
    else CountIn(times[..|times| - 1], lo, hi) + (if lo <= times[|times| - 1] < hi then 1 else 0)
  }

  /** How many are at or after lo. */
  function CountFrom(times: seq<Time>, lo: Time): (n: nat) {
    if times == [] then 0
    else CountFrom(times[..|times| - 1], lo) + (if lo <= times[|times| - 1] then 1 else 0)
  }

  /** How many fall in the half-open stretch of the given length that starts at lo. */
  function CountWithin(times: seq<Time>, lo: Time, length: Time): nat {
    CountIn(times, lo, lo + length)
  }

  lemma CountSnoc(times: seq<Time>, t: Time, lo: Time, hi: Time)
    ensures CountIn(times + [t], lo, hi) == CountIn(times, lo, hi) + (if lo <= t < hi then 1 else 0)
    ensures CountFrom(times + [t], lo) == CountFrom(times, lo) + (if lo <= t then 1 else 0)
  {
    assert (times + [t])[..|times|] == times;
  }

  lemma {:induction false} CountLaws(times: seq<Time>, lo: Time, mid: Time, hi: Time)
    requires lo <= mid
    ensures CountFrom(times, mid) <= CountFrom(times, lo)
    ensures CountIn(times, lo, hi) <= CountFrom(times, lo)
    ensures mid <= hi ==> CountIn(times, lo, mid) <= CountIn(times, lo, hi)
    ensures CountFrom(times, lo) == CountIn(times, lo, mid) + CountFrom(times, mid)
  {
    if times != [] {
      CountLaws(times[..|times| - 1], lo, mid, hi);
    }
  }

  /**
   What the window of a key says about the failures recorded for it since its last reset: the window
   holds exactly the failures from its start on, its first one at the start itself, never more than
   the limit; a stretch reaching back less than a window before it meets fewer than the limit of
   earlier ones; and no stretch one window long holds more than twice the limit less one.
   */
  ghost predicate Explains(l: Limits, t: Table, k: Key, times: seq<Time>) {
    && (k !in t ==> times == [])
    && (k in t ==> WindowExplains(l, t[k], times))
    && forall lo :: CountWithin(times, lo, l.window) <= 2 * l.failures - 1
  }

  ghost predicate WindowExplains(l: Limits, w: Window, times: seq<Time>) {
    && CountFrom(times, w.start) == w.failures
    && CountFrom(times, w.start + 1) <= w.failures - 1
    && CountFrom(times, w.start + l.window) == 0
    && 1 <= w.failures <= l.failures
    && forall lo | w.start - l.window < lo <= w.start :: CountIn(times, lo, w.start) <= l.failures - 1
  }

  /** Room for one more: seen from less than a window before now, at most 2N - 2 failures lie behind. */
  lemma Stretch(l: Limits, t: Table, k: Key, times: seq<Time>, now: Time, lo: Time)
    requires l.Enabled() && Explains(l, t, k, times) && !IsLimited(l, t, k, now)
    requires k in t && t[k].start <= now < lo + l.window
    ensures CountFrom(times, lo) <= 2 * l.failures - 2
    ensures !InWindow(l, t, k, now) ==> CountFrom(times, lo) <= l.failures - 1
  {
    var s := t[k].start;
    if lo <= s {
      CountLaws(times, lo, s, s);
    } else {
      CountLaws(times, s, lo, lo);
      CountLaws(times, s + 1, lo, lo);
    }
  }

  /** Recording a failure the limiter let through keeps the account, at any later instant. */
  lemma RecordExplains(l: Limits, t: Table, k: Key, times: seq<Time>, now: Time)
    requires l.Enabled() && Explains(l, t, k, times) && !IsLimited(l, t, k, now)
    requires k in t ==> t[k].start <= now
    ensures Explains(l, Record(l, t, k, now), k, times + [now])
  {
    forall lo ensures CountWithin(times + [now], lo, l.window) <= 2 * l.failures - 1 {
      CountSnoc(times, now, lo, lo + l.window);
      assert CountWithin(times, lo, l.window) <= 2 * l.failures - 1;
      if k in t && lo <= now < lo + l.window {
        Stretch(l, t, k, times, now, lo);
        CountLaws(times, lo, lo, lo + l.window);
      }
    }
    RecordWindow(l, t, k, times, now);
  }

  lemma RecordWindow(l: Limits, t: Table, k: Key, times: seq<Time>, now: Time)
    requires l.Enabled() && Explains(l, t, k, times) && !IsLimited(l, t, k, now)
    requires k in t ==> t[k].start <= now
    ensures WindowExplains(l, Record(l, t, k, now)[k], times + [now])
  {
    hide CountIn, CountFrom;
    var w := Record(l, t, k, now)[k];
    CountSnoc(times, now, w.start, w.start);
    CountSnoc(times, now, w.start + 1, w.start);
    CountSnoc(times, now, w.start + l.window, w.start);
    forall lo | w.start - l.window < lo <= w.start
      ensures CountIn(times + [now], lo, w.start) <= l.failures - 1
    {
      CountSnoc(times, now, lo, w.start);
      EarlierFailures(l, t, k, times, now, lo);
    }
    CountNone(l.window, w.start);
    if k in t && !InWindow(l, t, k, now) {
      NothingAfter(times, t[k].start + l.window, now, l.window);
    }
  }

  lemma CountNone(length: Time, start: Time)
    ensures CountFrom([], start) == CountFrom([], start + 1) == CountFrom([], start + length) == 0
  {
  }

  lemma EarlierFailures(l: Limits, t: Table, k: Key, times: seq<Time>, now: Time, lo: Time)
    requires l.Enabled() && Explains(l, t, k, times) && !IsLimited(l, t, k, now)
    requires k in t ==> t[k].start <= now
    requires var start := Record(l, t, k, now)[k].start; start - l.window < lo <= start
    ensures CountIn(times, lo, Record(l, t, k, now)[k].start) <= l.failures - 1
  {
    if k in t && !InWindow(l, t, k, now) {
      Stretch(l, t, k, times, now, lo);
      CountLaws(times, lo, lo, now);
    }
  }

  lemma NothingAfter(times: seq<Time>, end: Time, now: Time, length: Time)
    requires CountFrom(times, end) == 0 && end <= now && length > 0
    ensures CountFrom(times, now) == CountFrom(times, now + 1) == CountFrom(times, now + length) == 0
  {
    CountLaws(times, end, now, now);
    CountLaws(times, now, now + 1, now);
    CountLaws(times, now, now + length, now);
  }

  // ----- the bound is reached -----

  /** The failures recorded when every attempt fails, with the table they leave. */
  function Play(l: Limits, k: Key, attempts: seq<Time>): (Table, seq<Time>) {
    if attempts == [] then (map[], [])
    else
      var n := |attempts| - 1;
      var (t, times) := Play(l, k, attempts[..n]);
      if IsLimited(l, t, k, attempts[n]) then (t, times)
      else (Record(l, t, k, attempts[n]), times + [attempts[n]])
  }

  function Repeat(x: Time, n: nat): (r: seq<Time>)
    ensures |r| == n
  {
    seq(n, _ => x)
  }

  lemma PlayNext(l: Limits, k: Key, before: seq<Time>, x: Time)
    requires l.Enabled() && !IsLimited(l, Play(l, k, before).0, k, x)
    ensures var (t, times) := Play(l, k, before);
            Play(l, k, before + [x]) == (Record(l, t, k, x), times + [x])
  {
    assert (before + [x])[..|before|] == before;
  }

  lemma {:induction false} PlayRepeat(l: Limits, k: Key, before: seq<Time>, x: Time, n: nat)
    requires l.Enabled()
    requires InWindow(l, Play(l, k, before).0, k, x) && Play(l, k, before).0[k].failures + n <= l.failures
    ensures var (t, times) := Play(l, k, before);
            var (t', times') := Play(l, k, before + Repeat(x, n));
            && k in t' && t'[k] == Window(t[k].start, t[k].failures + n)
            && times' == times + Repeat(x, n)
  {
    hide Play, Repeat;
    RepeatSnoc(x, n);
    if n == 0 {
      assert before + [] == before && Play(l, k, before).1 + [] == Play(l, k, before).1;
    } else {
      var earlier := before + Repeat(x, n - 1);
      PlayRepeat(l, k, before, x, n - 1);
      PlayNext(l, k, earlier, x);
      assert before + (Repeat(x, n - 1) + [x]) == earlier + [x];
      var times := Play(l, k, before).1;
      assert times + (Repeat(x, n - 1) + [x]) == times + Repeat(x, n - 1) + [x];
    }
  }

  lemma RepeatSnoc(x: Time, n: nat)
    ensures Repeat(x, n) == if n == 0 then [] else Repeat(x, n - 1) + [x]
  {
  }

  lemma {:induction false} CountRepeat(times: seq<Time>, x: Time, n: nat, lo: Time, hi: Time)
    ensures CountIn(times + Repeat(x, n), lo, hi) == CountIn(times, lo, hi) + (if lo <= x < hi then n else 0)
  {
    if n == 0 {
      assert times + Repeat(x, 0) == times;
    } else {
      CountRepeat(times, x, n - 1, lo, hi);
      assert times + Repeat(x, n) == times + Repeat(x, n - 1) + [x];
      CountSnoc(times + Repeat(x, n - 1), x, lo, hi);
    }
  }

  /** One failure, then N - 1 at the end of its window, then N when the next window opens. */
  function Burst(l: Limits): seq<Time>
    requires l.Enabled()
  {
    [0] + Repeat(l.window - 1, l.failures - 1) + [l.window] + Repeat(l.window, l.failures - 1)
  }

  lemma BurstRecorded(l: Limits, k: Key)
    requires l.Enabled() && l.window >= 2
    ensures Play(l, k, Burst(l)).1 == Burst(l)
  {
    hide Repeat;
    var n, w := l.failures, l.window;
    PlayNext(l, k, [], 0);
    assert [] + [0] == [0];
    hide Play;
    PlayRepeat(l, k, [0], w - 1, n - 1);
    var first := [0] + Repeat(w - 1, n - 1);
    PlayNext(l, k, first, w);
    PlayRepeat(l, k, first + [w], w, n - 1);
  }

  /** No smaller bound holds: with N the limit and W >= 2 the window, 2N - 1 failures fit into [W - 1, 2W - 1). */
  lemma BoundIsReached(l: Limits, k: Key)
    requires l.Enabled() && l.window >= 2
    ensures CountWithin(Play(l, k, Burst(l)).1, l.window - 1, l.window) == 2 * l.failures - 1
  {
    var n, w := l.failures, l.window;
    BurstRecorded(l, k);
    var lo, hi := w - 1, 2 * w - 1;
    assert [] + [0] == [0];
    CountSnoc([], 0, lo, hi);
    var first := [0] + Repeat(w - 1, n - 1);
    CountRepeat([0], w - 1, n - 1, lo, hi);
    CountSnoc(first, w, lo, hi);
    CountRepeat(first + [w], w, n - 1, lo, hi);
  }
}
