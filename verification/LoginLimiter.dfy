/**
 The login failure limiter. A key's window is anchored at its first recorded
 failure, it does not slide; an attempt is admitted by `Allow` and, when it
 fails, counted later by `Record`. Times are integers read from any clock.
 */
module LoginLimiter {
  import opened Text

  datatype Entry = Entry(count: nat, windowStart: int)

  type Slot = Option<Entry>

  /** The failures a key may have before an attempt is refused. */
  function Limit(lockoutThreshold: int): (r: int)
    ensures r >= 1
  {
    if lockoutThreshold - 1 < 1 then 1 else lockoutThreshold - 1
  }

  /** No entry, or one whose window has passed. */
  predicate Stale(slot: Slot, window: int, now: int) {
    slot.None? || now - slot.value.windowStart >= window
  }

  predicate Admits(slot: Slot, limit: int, window: int, now: int) {
    Stale(slot, window, now) || slot.value.count < limit
  }

  function Asked(slot: Slot, window: int, now: int): Slot {
    if Stale(slot, window, now) then None else slot
  }

  function Recorded(slot: Slot, window: int, now: int): Entry {
    if Stale(slot, window, now) then Entry(1, now) else Entry(slot.value.count + 1, slot.value.windowStart)
  }

  function SlotOf(entries: map<string, Entry>, key: string): Slot {
    if key in entries then Some(entries[key]) else None
  }

  class LoginFailureLimiter {
    var entries: map<string, Entry>
    const window: int

    constructor (window: int)
      ensures entries == map[] && this.window == window
    {
      entries := map[];
      this.window := window;
    }

    method Allow(key: string, lockoutThreshold: int, now: int) returns (allowed: bool)
      modifies this
      ensures allowed == Admits(SlotOf(old(entries), key), Limit(lockoutThreshold), window, now)
      ensures SlotOf(entries, key) == Asked(SlotOf(old(entries), key), window, now)
      ensures forall k | k != key :: SlotOf(entries, k) == SlotOf(old(entries), k)
    {
      var limit := lockoutThreshold - 1;
      if limit < 1 {
        limit := 1;
      }
      if key !in entries || now - entries[key].windowStart >= window {
        if key in entries {
          entries := entries - {key};
        }
        return true;
      }
      return entries[key].count < limit;
    }

    method Record(key: string, now: int)
      modifies this
      ensures SlotOf(entries, key) == Some(Recorded(SlotOf(old(entries), key), window, now))
      ensures forall k | k != key :: SlotOf(entries, k) == SlotOf(old(entries), k)
    {
      var entry;
      if key !in entries || now - entries[key].windowStart >= window {
        entry := Entry(0, now);
      } else {
        entry := entries[key];
      }
      entries := entries[key := entry.(count := entry.count + 1)];
    }

    method Clear(key: string)
      modifies this
      ensures SlotOf(entries, key) == None
      ensures forall k | k != key :: SlotOf(entries, k) == SlotOf(old(entries), k)
    {
      entries := entries - {key};
    }
  }

  // ------------------------------------------- attempts that overlap in time

  /** What happens to one key: an attempt asks, a pending attempt fails, or it ends some other way. */
  datatype Act = Ask(at: int) | Fail(at: int) | End

  /** A key's entry and the admitted attempts that have neither failed nor ended. */
  datatype Overlap = Overlap(slot: Slot, pending: nat)

  ghost predicate Overlaps(a: Overlap, act: Act, b: Overlap, limit: int, window: int) {
    match act
    case Ask(now) =>
      b == Overlap(Asked(a.slot, window, now), if Admits(a.slot, limit, window, now) then a.pending + 1 else a.pending)
    case Fail(now) =>
      a.pending > 0 && b == Overlap(Some(Recorded(a.slot, window, now)), a.pending - 1)
    case End =>
      a.pending > 0 && b == Overlap(a.slot, a.pending - 1)
  }

  /** A run from an empty key in which at most `c` attempts are ever pending. */
  ghost predicate OverlapRun(states: seq<Overlap>, acts: seq<Act>, limit: int, window: int, c: nat) {
    && |states| == |acts| + 1
    && states[0] == Overlap(None, 0)
    && (forall i | 0 <= i < |acts| :: Overlaps(states[i], acts[i], states[i + 1], limit, window))
    && (forall i | 0 <= i < |states| :: states[i].pending <= c)
  }

  function Count(slot: Slot): nat {
    if slot.Some? then slot.value.count else 0
  }

  /** However attempts interleave, and whatever the clock says, no window counts more than limit - 1 + c. */
  lemma {:induction false} OverlapBound(states: seq<Overlap>, acts: seq<Act>, limit: int, window: int, c: nat, n: nat)
    requires limit >= 1 && OverlapRun(states, acts, limit, window, c) && n < |states|
    ensures Count(states[n].slot) + states[n].pending <= limit - 1 + c
  {
    if n > 0 {
      OverlapBound(states, acts, limit, window, c, n - 1);
      assert Overlaps(states[n - 1], acts[n - 1], states[n], limit, window);
    }
  }

  /** Runs are extended one act at a time. */
  lemma OverlapExtend(states: seq<Overlap>, acts: seq<Act>, act: Act, next: Overlap, limit: int, window: int, c: nat)
    requires OverlapRun(states, acts, limit, window, c) && next.pending <= c
    requires Overlaps(states[|acts|], act, next, limit, window)
    ensures OverlapRun(states + [next], acts + [act], limit, window, c)
  {
    var all, moves := states + [next], acts + [act];
    forall i | 0 <= i < |moves|
      ensures Overlaps(all[i], moves[i], all[i + 1], limit, window)
    {
      if i < |acts| {
        assert Overlaps(states[i], acts[i], states[i + 1], limit, window);
      }
    }
  }

  /** Some run at time 0 reaches a given count and pending number, as long as the bound allows it. */
  lemma {:induction false} OverlapReaches(limit: int, window: int, c: nat, count: nat, pending: nat)
    returns (states: seq<Overlap>, acts: seq<Act>)
    requires limit >= 1 && window > 0 && c >= 1
    requires pending <= c && count + pending <= limit - 1 + c
    ensures OverlapRun(states, acts, limit, window, c)
    ensures states[|acts|].pending == pending
    ensures states[|acts|].slot == if count == 0 then None else Some(Entry(count, 0))
    decreases count, pending
  {
    if count == 0 && pending == 0 {
      states, acts := [Overlap(None, 0)], [];
    } else {
      var act, next;
      if pending > 0 && count < limit {
        states, acts := OverlapReaches(limit, window, c, count, pending - 1);
        act := Ask(0);
        next := Overlap(Asked(states[|acts|].slot, window, 0), pending);
      } else {
        states, acts := OverlapReaches(limit, window, c, count - 1, pending + 1);
        act := Fail(0);
        next := Overlap(Some(Recorded(states[|acts|].slot, window, 0)), pending);
      }
      OverlapExtend(states, acts, act, next, limit, window, c);
      states, acts := states + [next], acts + [act];
    }
  }

  /** The bound is exact: some run with at most c pending attempts counts limit - 1 + c failures in one window. */
  lemma OverlapBoundIsExact(limit: int, window: int, c: nat)
    requires limit >= 1 && window > 0 && c >= 1
    ensures exists states: seq<Overlap>, acts: seq<Act> ::
              OverlapRun(states, acts, limit, window, c) && Count(states[|acts|].slot) == limit - 1 + c
  {
    var states, acts := OverlapReaches(limit, window, c, limit - 1 + c, 0);
  }

  // ------------------------------------------------ attempts one after another

  /** An attempt that would fail if it is admitted: when it asks and when it would be recorded. */
  datatype Attempt = Attempt(asked: int, failed: int)

  /** A recorded failure: its time, the start of the window it counted in, and its number there. */
  datatype Mark = Mark(time: int, start: int, number: nat)

  /** Each attempt ends before the next one asks, on a clock that never goes back. */
  predicate Sequential(attempts: seq<Attempt>) {
    && (forall i | 0 <= i < |attempts| :: attempts[i].asked <= attempts[i].failed)
    && (forall i | 0 <= i < |attempts| - 1 :: attempts[i].failed <= attempts[i + 1].asked)
  }

  datatype Play = Play(slot: Slot, log: seq<Mark>)

  /** One attempt: ask, and when admitted fail and be recorded. */
  function PlayOne(p: Play, a: Attempt, limit: int, window: int): Play {
    var asked := Asked(p.slot, window, a.asked);
    if !Admits(p.slot, limit, window, a.asked) then Play(asked, p.log)
    else
      var entry := Recorded(asked, window, a.failed);
      Play(Some(entry), p.log + [Mark(a.failed, entry.windowStart, entry.count)])
  }

  function PlayAll(attempts: seq<Attempt>, limit: int, window: int): Play {
    if attempts == [] then Play(None, [])
    else PlayOne(PlayAll(attempts[..|attempts| - 1], limit, window), attempts[|attempts| - 1], limit, window)
  }

  /** A mark continues the window of the mark before it, or opens a later window at its own time. */
  ghost predicate Follows(a: Mark, b: Mark, window: int) {
    && a.time <= b.time
    && (|| (b.start == a.start && b.number == a.number + 1)
        || (b.start == b.time && b.number == 1 && b.start >= a.start + window))
  }

  ghost predicate Chain(log: seq<Mark>, limit: int, window: int) {
    && (forall i | 0 <= i < |log| :: InWindow(log[i], limit, window))
    && (forall i | 0 <= i < |log| - 1 :: Follows(log[i], log[i + 1], window))
    && (log != [] ==> log[0].number == 1)
  }

  ghost predicate InWindow(m: Mark, limit: int, window: int) {
    1 <= m.number <= limit && m.start <= m.time < m.start + window && (m.number == 1 ==> m.time == m.start)
  }

  lemma SequentialPrefix(attempts: seq<Attempt>)
    requires Sequential(attempts) && attempts != []
    ensures Sequential(attempts[..|attempts| - 1])
  {
  }

  /** The log is a chain, and the slot, when there is one, is the window of the last mark. */
  lemma {:induction false} PlayIsChain(attempts: seq<Attempt>, limit: int, window: int)
    requires limit >= 1 && window > 0 && Sequential(attempts)
    ensures var p := PlayAll(attempts, limit, window);
            && Chain(p.log, limit, window)
            && (p.slot.Some? ==> p.log != [])
            && (p.slot.Some? ==> p.slot.value == Entry(Last(p.log).number, Last(p.log).start))
            && (p.log != [] && p.slot.None? ==> attempts[|attempts| - 1].failed >= Last(p.log).start + window)
            && (p.log != [] ==> Last(p.log).time <= attempts[|attempts| - 1].failed)
  {
    if attempts != [] {
      var n := |attempts|;
      SequentialPrefix(attempts);
      PlayIsChain(attempts[..n - 1], limit, window);
      var p := PlayAll(attempts[..n - 1], limit, window);
      var a := attempts[n - 1];
      if n > 1 {
        assert attempts[..n - 1][n - 2] == attempts[n - 2];
        assert attempts[n - 2].failed <= a.asked;
      }
      var q := PlayAll(attempts, limit, window);
      if Admits(p.slot, limit, window, a.asked) && p.log != [] {
        assert q.log[..|p.log|] == p.log;
        assert Follows(Last(p.log), Last(q.log), window);
      }
    }
  }

  function Last(log: seq<Mark>): Mark
    requires log != []
  {
    log[|log| - 1]
  }

  /** Along a chain a later mark is in the same window, numbered by its distance, or in a later window. */
  lemma {:induction false} ChainApart(log: seq<Mark>, limit: int, window: int, i: nat, j: nat)
    requires window > 0 && Chain(log, limit, window) && i <= j < |log|
    ensures log[i].time <= log[j].time
    ensures || (log[j].start == log[i].start && log[j].number == log[i].number + (j - i))
            || (log[j].start >= log[i].start + window && log[j].number <= j - i)
    decreases j
  {
    if i < j {
      ChainApart(log, limit, window, i, j - 1);
      assert Follows(log[j - 1], log[j], window);
    }
  }

  /** Marks less than a window's length apart come from at most two windows. */
  lemma AtMostTwoWindows(log: seq<Mark>, limit: int, window: int, i: nat, k: nat, j: nat)
    requires window > 0 && Chain(log, limit, window) && i <= k <= j < |log|
    requires log[j].time < log[i].time + window
    ensures log[k].start == log[i].start || log[k].start == log[j].start
  {
    ChainApart(log, limit, window, i, k);
    ChainApart(log, limit, window, k, j);
  }

  /** From mark i to mark j inside one interval of a window's length there are at most 2 * limit - 1 marks. */
  lemma IntervalBound(log: seq<Mark>, limit: int, window: int, i: nat, j: nat)
    requires limit >= 1 && window > 0 && Chain(log, limit, window) && i <= j < |log|
    requires log[j].time < log[i].time + window
    ensures j - i + 1 <= 2 * limit - 1
  {
    ChainApart(log, limit, window, i, j);
    if log[j].start != log[i].start {
      // k is the last mark before the window of mark j; it is in the window of mark i
      var k := j - log[j].number;
      ChainApart(log, limit, window, k, j);
      AtMostTwoWindows(log, limit, window, i, k, j);
      ChainApart(log, limit, window, i, k);
      assert log[k].number == log[i].number + (k - i);
      // were mark i the first of its window, mark j would be a whole window later
      assert log[i].number != 1;
    }
  }

  /** The times in a half-open interval that starts at `from` and is a window long. */
  function CountIn(log: seq<Mark>, from: int, window: int): nat {
    if log == [] then 0
    else CountIn(log[..|log| - 1], from, window) + (if from <= Last(log).time < from + window then 1 else 0)
  }

  /** In a log sorted by time the marks of an interval are consecutive. */
  lemma {:induction false} CountIsConsecutive(log: seq<Mark>, from: int, window: int) returns (lo: nat, hi: nat)
    requires forall i, j | 0 <= i <= j < |log| :: log[i].time <= log[j].time
    ensures lo <= hi <= |log| && CountIn(log, from, window) == hi - lo
    ensures forall i | lo <= i < hi :: from <= log[i].time < from + window
    ensures forall i | 0 <= i < lo :: log[i].time < from
    ensures hi < |log| ==> log[hi].time >= from + window
  {
    if log == [] {
      lo, hi := 0, 0;
    } else {
      lo, hi := CountIsConsecutive(log[..|log| - 1], from, window);
      assert lo < |log| ==> log[lo].time <= Last(log).time;
      if Last(log).time < from {
        lo, hi := |log|, |log|;
      } else if Last(log).time < from + window {
        hi := |log|;
      }
    }
  }

  /**
   Although windows are anchored and not sliding: with one attempt at a time and
   a clock that never goes back, no half-open interval of a window's length
   holds more than 2 * limit - 1 recorded failures of a key.
   */
  lemma SlidingBound(attempts: seq<Attempt>, limit: int, window: int, from: int)
    requires limit >= 1 && window > 0 && Sequential(attempts)
    ensures CountIn(PlayAll(attempts, limit, window).log, from, window) <= 2 * limit - 1
  {
    PlayIsChain(attempts, limit, window);
    var log := PlayAll(attempts, limit, window).log;
    forall i, j | 0 <= i <= j < |log|
      ensures log[i].time <= log[j].time
    {
      ChainApart(log, limit, window, i, j);
    }
    var lo, hi := CountIsConsecutive(log, from, window);
    if lo < hi {
      IntervalBound(log, limit, window, lo, hi - 1);
    }
  }

  /** One failure, then limit - 1 just before its window ends, then limit in the next window. */
  function BurstTime(k: nat, limit: int, window: int): int {
    if k == 0 then 0 else if k < limit then window - 1 else window
  }

  function Burst(n: nat, limit: int, window: int): (r: seq<Attempt>)
    ensures |r| == n
  {
    seq(n, k requires 0 <= k < n => Attempt(BurstTime(k, limit, window), BurstTime(k, limit, window)))
  }

  lemma BurstUnfolds(n: nat, limit: int, window: int)
    requires n > 0
    ensures PlayAll(Burst(n, limit, window), limit, window)
         == PlayOne(PlayAll(Burst(n - 1, limit, window), limit, window),
                    Attempt(BurstTime(n - 1, limit, window), BurstTime(n - 1, limit, window)), limit, window)
  {
    assert Burst(n, limit, window)[..n - 1] == Burst(n - 1, limit, window);
  }

  /** What the first n attempts of the burst leave. */
  ghost predicate BurstLeaves(p: Play, n: nat, limit: int, window: int) {
    && p.slot == (if n == 0 then None else if n <= limit then Some(Entry(n, 0)) else Some(Entry(n - limit, window)))
    && CountIn(p.log, window - 1, window) == (if n == 0 then 0 else n - 1)
  }

  /** The next attempt of the burst is admitted and recorded. */
  lemma BurstGoesOn(p: Play, n: nat, limit: int, window: int)
    requires limit >= 1 && window >= 2 && 0 < n <= 2 * limit && BurstLeaves(p, n - 1, limit, window)
    ensures var time := BurstTime(n - 1, limit, window);
            BurstLeaves(PlayOne(p, Attempt(time, time), limit, window), n, limit, window)
  {
    var time := BurstTime(n - 1, limit, window);
    var q := PlayOne(p, Attempt(time, time), limit, window);
    assert q.log[..|q.log| - 1] == p.log;
  }

  lemma {:induction false} BurstIsRecorded(n: nat, limit: int, window: int)
    requires limit >= 1 && window >= 2 && n <= 2 * limit
    ensures BurstLeaves(PlayAll(Burst(n, limit, window), limit, window), n, limit, window)
  {
    if n > 0 {
      BurstIsRecorded(n - 1, limit, window);
      BurstGoesOn(PlayAll(Burst(n - 1, limit, window), limit, window), n, limit, window);
      BurstUnfolds(n, limit, window);
    }
  }

  /** The bound cannot be lowered: some sequential attempts have 2 * limit - 1 failures in one interval. */
  lemma SlidingBoundIsExact(limit: int, window: int)
    requires limit >= 1 && window >= 2
    ensures exists attempts, from: int ::
              && Sequential(attempts)
              && CountIn(PlayAll(attempts, limit, window).log, from, window) == 2 * limit - 1
  {
    var attempts := Burst(2 * limit, limit, window);
    assert Sequential(attempts);
    BurstIsRecorded(2 * limit, limit, window);
    assert CountIn(PlayAll(attempts, limit, window).log, window - 1, window) == 2 * limit - 1;
  }

  // ------------------------------------------------------- in the lockout threshold

  /** A lockout threshold of 2 or less leaves one failure in a window, a larger one leaves one less than itself. */
  lemma OverlapBoundOfThreshold(states: seq<Overlap>, acts: seq<Act>, lockoutThreshold: int, window: int, c: nat, n: nat)
    requires OverlapRun(states, acts, Limit(lockoutThreshold), window, c) && n < |states|
    ensures Count(states[n].slot) + states[n].pending <= if lockoutThreshold <= 2 then c else lockoutThreshold - 2 + c
  {
    OverlapBound(states, acts, Limit(lockoutThreshold), window, c, n);
  }

  /** With one attempt at a time no interval of a window's length holds more than 2 * threshold - 3 failures, or one. */
  lemma SlidingBoundOfThreshold(attempts: seq<Attempt>, lockoutThreshold: int, window: int, from: int)
    requires window > 0 && Sequential(attempts)
    ensures CountIn(PlayAll(attempts, Limit(lockoutThreshold), window).log, from, window)
         <= if lockoutThreshold <= 2 then 1 else 2 * lockoutThreshold - 3
  {
    SlidingBound(attempts, Limit(lockoutThreshold), window, from);
  }

  /** Both bounds are reached, for every threshold. */
  lemma ThresholdBoundsAreExact(lockoutThreshold: int, window: int, c: nat)
    requires window >= 2 && c >= 1
    ensures exists states: seq<Overlap>, acts: seq<Act> ::
              && OverlapRun(states, acts, Limit(lockoutThreshold), window, c)
              && Count(states[|acts|].slot) == if lockoutThreshold <= 2 then c else lockoutThreshold - 2 + c
    ensures exists attempts, from: int ::
              && Sequential(attempts)
              && CountIn(PlayAll(attempts, Limit(lockoutThreshold), window).log, from, window)
                 == if lockoutThreshold <= 2 then 1 else 2 * lockoutThreshold - 3
  {
    OverlapBoundIsExact(Limit(lockoutThreshold), window, c);
    SlidingBoundIsExact(Limit(lockoutThreshold), window);
  }
}
