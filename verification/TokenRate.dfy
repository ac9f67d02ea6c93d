/** The per-token sliding window of accepted requests, and the clock read outside its lock. */
module TokenRate {

  const WINDOW := 60.0

  datatype Verdict = Accepted | Refused(retryAfter: int)

  /** What one locked section leaves: the deque and its verdict. */
  datatype Outcome = Outcome(window: seq<real>, verdict: Verdict)

  /** The deque once the times at its left end that have left the window are popped. */
  function Popped(window: seq<real>, now: real): seq<real> {
    if window == [] || window[0] > now - WINDOW then window else Popped(window[1..], now)
  }

  /** Popping splits the deque: what goes has left the window, and what stays begins inside it. */
  lemma {:induction false} PoppedSplits(window: seq<real>, now: real)
    ensures var w := Popped(window, now);
            && |w| <= |window| && w == window[|window| - |w|..]
            && (w != [] ==> w[0] > now - WINDOW)
            && (forall k :: 0 <= k < |window| - |w| ==> window[k] <= now - WINDOW)
  {
    if window != [] && window[0] <= now - WINDOW {
      PoppedSplits(window[1..], now);
    }
  }

  /** The whole seconds after which the first time of the deque has left the window. */
  function RetryAfter(first: real, now: real): (seconds: int)
    ensures seconds >= 1 && seconds as real > first + WINDOW - now
    ensures first + WINDOW > now ==> seconds as real <= first + WINDOW - now + 1.0
  {
    var wait := (first + WINDOW - now).Floor + 1;
    if wait > 1 then wait else 1
  }

  /** One locked section entered with the clock value `now`. */
  function Section(limit: nat, window: seq<real>, now: real): Outcome
    requires limit >= 1
  {
    var w := Popped(window, now);
    if |w| >= limit then Outcome(w, Refused(RetryAfter(w[0], now))) else Outcome(w + [now], Accepted)
  }

  /** The deque and the accepted times after sections entered with these clock values, in order. */
  datatype History = History(window: seq<real>, accepted: seq<real>)

  /** One more section. */
  function Entered(limit: nat, h: History, now: real): History
    requires limit >= 1
  {
    var out := Section(limit, h.window, now);
    History(out.window, if out.verdict.Accepted? then h.accepted + [now] else h.accepted)
  }

  function Sections(limit: nat, nows: seq<real>): History
    requires limit >= 1
  {
    if nows == [] then History([], [])
    else Entered(limit, Sections(limit, nows[..|nows| - 1]), nows[|nows| - 1])
  }

  lemma NoSections(limit: nat)
    requires limit >= 1
    ensures Sections(limit, []) == History([], [])
  {
  }

  lemma OneMoreSection(limit: nat, nows: seq<real>, now: real)
    requires limit >= 1
    ensures Sections(limit, nows + [now]) == Entered(limit, Sections(limit, nows), now)
  {
    hide Entered;
    assert (nows + [now])[..|nows|] == nows;
  }

  /** The times that lie in the window ending at `x`, and how many they are. */
  function Within(times: seq<real>, x: real): seq<real> {
    if times == [] then []
    else
      var last := times[|times| - 1];
      Within(times[..|times| - 1], x) + if x - WINDOW < last <= x then [last] else []
  }

  function InWindow(times: seq<real>, x: real): nat {
    |Within(times, x)|
  }

  /** The quota: no window of one minute, wherever it ends, holds more than `limit` requests. */
  ghost predicate QuotaKept(limit: nat, times: seq<real>) {
    forall x :: InWindow(times, x) <= limit
  }

  predicate Sorted(times: seq<real>) {
    forall i, j :: 0 <= i <= j < |times| ==> times[i] <= times[j]
  }

  /** Any `limit + 1` consecutive times span at least a window. */
  ghost predicate Spaced(limit: nat, times: seq<real>) {
    forall i, j :: 0 <= i && j == i + limit && j < |times| ==> times[j] - times[i] >= WINDOW
  }

  lemma {:induction false} OldOnesDoNotCount(times: seq<real>, x: real, k: nat)
    requires k <= |times| && forall i :: 0 <= i < k ==> times[i] <= x - WINDOW
    ensures InWindow(times, x) <= |times| - k
  {
    if |times| > k {
      OldOnesDoNotCount(times[..|times| - 1], x, k);
    } else if times != [] {
      OldOnesDoNotCount(times[..|times| - 1], x, k - 1);
    }
  }

  lemma {:induction false} SpacedKeepsQuota(limit: nat, times: seq<real>, x: real)
    requires Sorted(times) && Spaced(limit, times)
    ensures InWindow(times, x) <= limit
  {
    if times != [] {
      var n := |times| - 1;
      if x - WINDOW < times[n] <= x {
        var k := if n + 1 > limit then n + 1 - limit else 0;
        forall i | 0 <= i < k
          ensures times[i] <= x - WINDOW
        {
          assert times[i + limit] - times[i] >= WINDOW;
        }
        OldOnesDoNotCount(times, x, k);
      } else {
        SpacedKeepsQuota(limit, times[..n], x);
      }
    }
  }

  // ---------------------------------------------------------------------
  // Sections in clock order
  // ---------------------------------------------------------------------

  /** The deque is the accepted times from some index on; those before it lie a window back. */
  ghost predicate Holds(window: seq<real>, accepted: seq<real>, now: real) {
    && |window| <= |accepted| && window == accepted[|accepted| - |window|..]
    && forall k :: 0 <= k < |accepted| - |window| ==> accepted[k] <= now - WINDOW
  }

  /** What holds between in-order sections: the deque is exactly the accepted times in the
      window ending at the last one. */
  ghost predicate InOrder(limit: nat, h: History, now: real) {
    && Sorted(h.accepted) && Spaced(limit, h.accepted) && |h.window| <= limit
    && Holds(h.window, h.accepted, now) && (h.window != [] ==> h.window[0] > now - WINDOW)
    && (forall k :: 0 <= k < |h.accepted| ==> h.accepted[k] <= now)
  }

  lemma PoppedHolds(window: seq<real>, accepted: seq<real>, was: real, now: real)
    requires Holds(window, accepted, was) && was <= now
    ensures Holds(Popped(window, now), accepted, now) && |Popped(window, now)| <= |window|
    ensures Popped(window, now) != [] ==> Popped(window, now)[0] > now - WINDOW
  {
    PoppedSplits(window, now);
    hide Popped;
    var w := Popped(window, now);
    var from := |accepted| - |window|;
    forall k | 0 <= k < |accepted| - |w|
      ensures accepted[k] <= now - WINDOW
    {
      if k >= from {
        assert accepted[k] == window[k - from];
      }
    }
  }

  /** The popped deque holds the accepted times in the window ending now, and no others. */
  lemma PoppedIsWithin(w: seq<real>, accepted: seq<real>, now: real)
    requires Sorted(accepted) && Holds(w, accepted, now) && (w != [] ==> w[0] > now - WINDOW)
    requires forall k :: 0 <= k < |accepted| ==> accepted[k] <= now
    ensures Within(accepted, now) == w
  {
    var from := |accepted| - |w|;
    if w != [] {
      assert accepted[from] == w[0];
    }
    WithinIsSuffix(accepted, now, from);
  }

  /** Accepting keeps the spacing: the time `limit` places back has left the window. */
  lemma AcceptKeepsSpacing(limit: nat, w: seq<real>, accepted: seq<real>, now: real)
    requires limit >= 1 && Spaced(limit, accepted) && Holds(w, accepted, now) && |w| < limit
    ensures Spaced(limit, accepted + [now])
  {
  }

  lemma AcceptHolds(w: seq<real>, accepted: seq<real>, now: real)
    requires Holds(w, accepted, now) && Sorted(accepted) && forall k :: 0 <= k < |accepted| ==> accepted[k] <= now
    ensures Holds(w + [now], accepted + [now], now) && Sorted(accepted + [now])
  {
    var a := accepted + [now];
    assert w + [now] == a[|a| - |w| - 1..];
  }

  lemma OneMoreInOrder(limit: nat, h: History, was: real, now: real)
    requires limit >= 1 && InOrder(limit, h, was) && was <= now
    ensures InOrder(limit, Entered(limit, h, now), now)
    ensures Entered(limit, h, now).accepted
            == if InWindow(h.accepted, now) < limit then h.accepted + [now] else h.accepted
  {
    hide Popped, Holds, Spaced, Sorted, Within, RetryAfter;
    var w := Popped(h.window, now);
    PoppedHolds(h.window, h.accepted, was, now);
    PoppedIsWithin(w, h.accepted, now);
    if |w| < limit {
      AcceptKeepsSpacing(limit, w, h.accepted, now);
      AcceptHolds(w, h.accepted, now);
    }
  }

  lemma {:induction false} WithinIsSuffix(times: seq<real>, x: real, k: nat)
    requires k <= |times| && (forall i :: 0 <= i < k ==> times[i] <= x - WINDOW)
    requires forall i :: k <= i < |times| ==> x - WINDOW < times[i] <= x
    ensures Within(times, x) == times[k..]
  {
    if |times| > k {
      WithinIsSuffix(times[..|times| - 1], x, k);
    } else if times != [] {
      WithinIsSuffix(times[..|times| - 1], x, k - 1);
    }
  }

  /** Sections entered in clock order, one after another. */
  lemma {:induction false} StaysInOrder(limit: nat, nows: seq<real>, now: real)
    requires limit >= 1 && Sorted(nows + [now])
    ensures InOrder(limit, Sections(limit, nows + [now]), now)
    ensures var accepted := Sections(limit, nows).accepted;
            Sections(limit, nows + [now]).accepted
            == if InWindow(accepted, now) < limit then accepted + [now] else accepted
    decreases |nows|
  {
    hide Sections, InWindow, Entered, Sorted, Spaced, Holds;
    OneMoreSection(limit, nows, now);
    if nows == [] {
      NothingInOrder(limit, now);
      OneMoreInOrder(limit, Sections(limit, nows), now, now);
    } else {
      var before, last := nows[..|nows| - 1], nows[|nows| - 1];
      assert nows == before + [last];
      SortedPrefix(nows, now);
      StaysInOrder(limit, before, last);
      OneMoreInOrder(limit, Sections(limit, nows), last, now);
    }
  }

  lemma NothingInOrder(limit: nat, now: real)
    requires limit >= 1
    ensures InOrder(limit, Sections(limit, []), now)
  {
  }

  /** Entered in clock order, the deque is the accepted times of the last window, all of them
      and no others; a request is accepted exactly when fewer than `limit` were accepted in the
      window ending now; and the quota holds for every window there is. */
  lemma SlidingWindow(limit: nat, nows: seq<real>, now: real)
    requires limit >= 1 && Sorted(nows + [now])
    ensures var before, after := Sections(limit, nows), Sections(limit, nows + [now]);
            && after.window == Within(after.accepted, now)
            && after.accepted
               == (if InWindow(before.accepted, now) < limit then before.accepted + [now] else before.accepted)
            && QuotaKept(limit, after.accepted)
    ensures InOrder(limit, Sections(limit, nows + [now]), now)
  {
    hide Sections, Within, Sorted, Spaced, Holds;
    StaysInOrder(limit, nows, now);
    var after := Sections(limit, nows + [now]);
    PoppedIsWithin(after.window, after.accepted, now);
    forall x {
      SpacedKeepsQuota(limit, after.accepted, x);
    }
  }

  lemma SortedPrefix(times: seq<real>, last: real)
    requires Sorted(times + [last])
    ensures Sorted(times) && (times != [] ==> times[|times| - 1] <= last)
  {
    assert forall i :: 0 <= i < |times| ==> times[i] == (times + [last])[i];
    if times != [] {
      assert (times + [last])[|times|] == last;
    }
  }

  // ---------------------------------------------------------------------
  // Waiting to retry, on any interleaving
  // ---------------------------------------------------------------------

  /** In whatever order the sections are entered, the deque never exceeds the limit. */
  lemma {:induction false} NeverOverfull(limit: nat, nows: seq<real>)
    requires limit >= 1
    ensures |Sections(limit, nows).window| <= limit
  {
    if nows != [] {
      NeverOverfull(limit, nows[..|nows| - 1]);
      PoppedSplits(Sections(limit, nows[..|nows| - 1]).window, nows[|nows| - 1]);
      hide Popped, RetryAfter;
    }
  }

  lemma {:induction false} AcceptedGrows(limit: nat, nows: seq<real>, more: seq<real>)
    requires limit >= 1
    ensures Sections(limit, nows).accepted <= Sections(limit, nows + more).accepted
  {
    if more == [] {
      assert nows + more == nows;
    } else {
      var n := |more| - 1;
      AcceptedGrows(limit, nows, more[..n]);
      assert nows + more == nows + more[..n] + [more[n]];
      OneMoreSection(limit, nows + more[..n], more[n]);
      hide Sections, Section;
    }
  }

  /** A refusal pops nothing: it leaves the deque it found, which is full. */
  lemma RefusalKeepsDeque(limit: nat, window: seq<real>, now: real)
    requires limit >= 1 && |window| <= limit && Section(limit, window, now).verdict.Refused?
    ensures Section(limit, window, now).window == window && |window| == limit && window[0] > now - WINDOW
    ensures Section(limit, window, now).verdict == Refused(RetryAfter(window[0], now))
  {
    PoppedSplits(window, now);
  }

  /** While nothing is accepted the deque stays what the first refusal left. */
  lemma {:induction false} DequeWhileRefused(limit: nat, nows: seq<real>, between: seq<real>)
    requires limit >= 1 && Sections(limit, nows + between).accepted == Sections(limit, nows).accepted
    ensures Sections(limit, nows + between).window == Sections(limit, nows).window
  {
    if between == [] {
      assert nows + between == nows;
    } else {
      var n := |between| - 1;
      var h := Sections(limit, nows + between[..n]);
      assert nows + between == nows + between[..n] + [between[n]];
      OneMoreSection(limit, nows + between[..n], between[n]);
      hide Sections, Section;
      AcceptedGrows(limit, nows, between[..n]);
      AcceptedGrows(limit, nows + between[..n], [between[n]]);
      DequeWhileRefused(limit, nows, between[..n]);
      NeverOverfull(limit, nows + between[..n]);
      RefusalKeepsDeque(limit, h.window, between[n]);
    }
  }

  /** A caller refused at `now` who waits the advertised seconds is accepted, whatever has been
      refused meanwhile, as long as nothing has been accepted; and no earlier than the moment the
      deque's first time leaves the window, which is at most a second less. Nothing is asked of
      the order in which any of the sections were entered. */
  lemma RetryAfterWorks(limit: nat, nows: seq<real>, now: real, between: seq<real>, later: real)
    requires limit >= 1
    requires Section(limit, Sections(limit, nows).window, now).verdict.Refused?
    requires Sections(limit, nows + [now] + between).accepted == Sections(limit, nows).accepted
    ensures var seconds := Section(limit, Sections(limit, nows).window, now).verdict.retryAfter;
            var again := Section(limit, Sections(limit, nows + [now] + between).window, later).verdict;
            && seconds >= 1
            && (later >= now + seconds as real ==> again.Accepted?)
            && (later < now + seconds as real - 1.0 ==> again.Refused?)
    ensures var window := Sections(limit, nows).window;
            && |window| == limit
            && (Section(limit, Sections(limit, nows + [now] + between).window, later).verdict.Accepted?
                <==> later >= window[0] + WINDOW)
  {
    hide Sections, Section, RetryAfter;
    var window := Sections(limit, nows).window;
    NeverOverfull(limit, nows);
    RefusalKeepsDeque(limit, window, now);
    OneMoreSection(limit, nows, now);
    RefusedOnce(limit, nows, now);
    DequeWhileRefused(limit, nows + [now], between);
    FullDequeOpens(limit, window, later);
  }

  lemma RefusedOnce(limit: nat, nows: seq<real>, now: real)
    requires limit >= 1 && Section(limit, Sections(limit, nows).window, now).verdict.Refused?
    ensures Sections(limit, nows + [now]).accepted == Sections(limit, nows).accepted
    ensures Sections(limit, nows + [now]).window == Section(limit, Sections(limit, nows).window, now).window
  {
    hide Sections, Section;
    OneMoreSection(limit, nows, now);
  }

  /** A full deque lets the next request in exactly once its first time has left the window. */
  lemma FullDequeOpens(limit: nat, window: seq<real>, now: real)
    requires limit >= 1 && |window| == limit
    ensures Section(limit, window, now).verdict.Accepted? <==> now >= window[0] + WINDOW
  {
    PoppedSplits(window, now);
    hide RetryAfter;
    var w := Popped(window, now);
    assert window[0] <= now - WINDOW ==> w != window;
  }

  // ---------------------------------------------------------------------
  // Any interleaving
  // ---------------------------------------------------------------------

  /** A request reads the monotonic clock before it takes the lock. */
  datatype Event = ReadClock(thread: nat, time: real) | Enter(thread: nat)

  /** The clock, the values read by requests still waiting, and those entered so far. */
  datatype Schedule = Schedule(clock: real, pending: map<nat, real>, nows: seq<real>)

  predicate Possible(s: Schedule, e: Event) {
    match e
    case ReadClock(thread, time) => time >= s.clock && thread !in s.pending
    case Enter(thread) => thread in s.pending
  }

  function Happen(s: Schedule, e: Event): Schedule
    requires Possible(s, e)
  {
    match e
    case ReadClock(thread, time) => s.(clock := time, pending := s.pending[thread := time])
    case Enter(thread) => s.(pending := s.pending - {thread}, nows := s.nows + [s.pending[thread]])
  }

  const START := Schedule(0.0, map[], [])

  /** The events, one possible step after another from the start, pass through these states. */
  ghost predicate IsTrace(events: seq<Event>, states: seq<Schedule>) {
    && |states| == |events| + 1 && states[0] == START
    && forall k :: 0 <= k < |events| ==> Possible(states[k], events[k]) && states[k + 1] == Happen(states[k], events[k])
  }

  /** The quota on every interleaving of clock reads and sections. */
  ghost predicate QuotaOnEveryRun(limit: nat)
    requires limit >= 1
  {
    forall events: seq<Event>, states: seq<Schedule> :: IsTrace(events, states) ==>
        QuotaKept(limit, Sections(limit, states[|events|].nows).accepted)
  }

  /** The trace with one more event. */
  lemma Extend(events: seq<Event>, states: seq<Schedule>, e: Event)
    requires IsTrace(events, states) && Possible(states[|events|], e)
    ensures IsTrace(events + [e], states + [Happen(states[|events|], e)])
  {
  }

  /** With a limit of one, an accepted time always lies a full window after the one before. */
  lemma {:induction false} SingleIsSpaced(nows: seq<real>)
    ensures var h := Sections(1, nows);
            && Spaced(1, h.accepted) && Sorted(h.accepted)
            && h.window == (if h.accepted == [] then [] else [h.accepted[|h.accepted| - 1]])
  {
    if nows != [] {
      SingleIsSpaced(nows[..|nows| - 1]);
      OneMoreSingle(Sections(1, nows[..|nows| - 1]), nows[|nows| - 1]);
    }
  }

  lemma OneMoreSingle(h: History, now: real)
    requires Spaced(1, h.accepted) && Sorted(h.accepted)
    requires h.window == if h.accepted == [] then [] else [h.accepted[|h.accepted| - 1]]
    ensures var g := Entered(1, h, now);
            && Spaced(1, g.accepted) && Sorted(g.accepted)
            && g.window == (if g.accepted == [] then [] else [g.accepted[|g.accepted| - 1]])
  {
    PoppedSplits(h.window, now);
    hide Popped, RetryAfter;
    var w := Popped(h.window, now);
    if w == [] && h.accepted != [] {
      assert h.window[0] <= now - WINDOW;
    }
  }

  /** `n` requests at time zero, one after the other, are all accepted up to the limit. */
  lemma {:induction false} Fill(limit: nat, n: nat) returns (events: seq<Event>, states: seq<Schedule>)
    requires limit >= 1 && n <= limit
    ensures IsTrace(events, states) && states[|events|] == Schedule(0.0, map[], seq(n, _ => 0.0))
    ensures Sections(limit, seq(n, _ => 0.0)) == History(seq(n, _ => 0.0), seq(n, _ => 0.0))
  {
    hide Sections, Entered;
    if n == 0 {
      NoSections(limit);
      return [], [START];
    }
    events, states := Fill(limit, n - 1);
    OneMoreZero(limit, n);
    var s0 := states[|events|];
    var s1 := Happen(s0, ReadClock(0, 0.0));
    Extend(events, states, ReadClock(0, 0.0));
    events, states := events + [ReadClock(0, 0.0)], states + [s1];
    Extend(events, states, Enter(0));
    events, states := events + [Enter(0)], states + [Happen(s1, Enter(0))];
  }

  lemma OneMoreZero(limit: nat, n: nat)
    requires 0 < n <= limit
    requires Sections(limit, seq(n - 1, _ => 0.0)) == History(seq(n - 1, _ => 0.0), seq(n - 1, _ => 0.0))
    ensures Sections(limit, seq(n, _ => 0.0)) == History(seq(n, _ => 0.0), seq(n, _ => 0.0))
    ensures seq(n, _ => 0.0) == seq(n - 1, _ => 0.0) + [0.0]
  {
    hide Sections, Popped, RetryAfter;
    var before := seq(n - 1, _ => 0.0);
    assert seq(n, _ => 0.0) == before + [0.0];
    OneMoreSection(limit, before, 0.0);
    NonePopped(before, 0.0);
  }

  lemma NonePopped(window: seq<real>, now: real)
    requires window != [] ==> window[0] > now - WINDOW
    ensures Popped(window, now) == window
  {
  }

  lemma {:induction false} ZerosCount(n: nat, x: real)
    requires 0.0 <= x < WINDOW
    ensures InWindow(seq(n, _ => 0.0), x) == n
  {
    if n > 0 {
      assert seq(n, _ => 0.0)[..n - 1] == seq(n - 1, _ => 0.0);
      ZerosCount(n - 1, x);
    }
  }

  /** Two sections after a full window of zeros: entered at 60 they all go, and 59 still enters. */
  lemma LateEntry(limit: nat, zeros: seq<real>)
    requires limit >= 2 && |zeros| == limit && zeros == seq(limit, _ => 0.0)
    ensures Entered(limit, Entered(limit, History(zeros, zeros), 60.0), 59.0).accepted == zeros + [60.0] + [59.0]
    ensures InWindow(zeros + [60.0] + [59.0], 59.0) == limit + 1
  {
    AllPopped(zeros, 60.0);
    NonePopped([60.0], 59.0);
    ZerosCount(limit, 59.0);
    WithinOneMore(zeros, 60.0, 59.0);
    WithinOneMore(zeros + [60.0], 59.0, 59.0);
    hide Within, Popped, RetryAfter;
  }

  lemma WithinOneMore(times: seq<real>, last: real, x: real)
    ensures InWindow(times + [last], x) == InWindow(times, x) + if x - WINDOW < last <= x then 1 else 0
  {
    assert (times + [last])[..|times|] == times;
  }

  /** Two requests that read the clock at 59 and 60 and enter the other way round: the later
      value empties the deque, so the earlier one is accepted beyond the limit. */
  lemma RaceBreaksQuota(limit: nat) returns (events: seq<Event>, states: seq<Schedule>)
    requires limit >= 2
    ensures IsTrace(events, states)
    ensures InWindow(Sections(limit, states[|events|].nows).accepted, 59.0) == limit + 1
  {
    hide Sections, InWindow, Entered;
    events, states := Fill(limit, limit);
    var zeros := seq(limit, _ => 0.0);
    var s1 := Happen(states[|events|], ReadClock(1, 59.0));
    Extend(events, states, ReadClock(1, 59.0));
    events, states := events + [ReadClock(1, 59.0)], states + [s1];
    var s2 := Happen(s1, ReadClock(2, 60.0));
    Extend(events, states, ReadClock(2, 60.0));
    events, states := events + [ReadClock(2, 60.0)], states + [s2];
    var s3 := Happen(s2, Enter(2));
    Extend(events, states, Enter(2));
    events, states := events + [Enter(2)], states + [s3];
    var s4 := Happen(s3, Enter(1));
    Extend(events, states, Enter(1));
    events, states := events + [Enter(1)], states + [s4];
    OneMoreSection(limit, zeros, 60.0);
    OneMoreSection(limit, zeros + [60.0], 59.0);
    LateEntry(limit, zeros);
    assert s4.nows == zeros + [60.0] + [59.0];
  }

  lemma {:induction false} AllPopped(window: seq<real>, now: real)
    requires forall k :: 0 <= k < |window| ==> window[k] <= now - WINDOW
    ensures Popped(window, now) == []
  {
    if window != [] {
      AllPopped(window[1..], now);
    }
  }

  /** The quota survives every interleaving exactly when the limit is one: with the clock read
      outside the lock, a larger limit can be exceeded. */
  lemma QuotaOnEveryRunIff(limit: nat)
    requires limit >= 1
    ensures QuotaOnEveryRun(limit) <==> limit == 1
  {
    hide Sections, InWindow;
    if limit == 1 {
      forall events: seq<Event>, states: seq<Schedule> | IsTrace(events, states)
        ensures QuotaKept(1, Sections(1, states[|events|].nows).accepted)
      {
        SingleIsSpaced(states[|events|].nows);
        forall x {
          SpacedKeepsQuota(1, Sections(1, states[|events|].nows).accepted, x);
        }
      }
    } else {
      var events, states := RaceBreaksQuota(limit);
      assert !QuotaKept(limit, Sections(limit, states[|events|].nows).accepted);
    }
  }

  // ---------------------------------------------------------------------
  // The limiter
  // ---------------------------------------------------------------------

  /** What a token's requests in clock order find and leave. */
  lemma InClockOrder(limit: nat, before: seq<real>, now: real)
    requires limit >= 1 && Sorted(before + [now])
    ensures var after := Sections(limit, before + [now]); after.window == Within(after.accepted, now)
    ensures Section(limit, Sections(limit, before).window, now).verdict.Accepted?
            <==> InWindow(Sections(limit, before).accepted, now) < limit
  {
    hide Sections, Section, InWindow;
    SlidingWindow(limit, before, now);
    OneMoreSection(limit, before, now);
  }

  class TokenRateLimiter {
    const limit: nat
    var requests: map<string, seq<real>>
    /** The clock values each token's sections were entered with, since the last reset. */
    ghost var nows: map<string, seq<real>>

    ghost predicate Valid()
      reads this
    {
      && limit >= 1 && requests.Keys == nows.Keys
      && forall token :: token in requests ==> requests[token] == Sections(limit, nows[token]).window
    }

    constructor (limit: nat)
      requires limit >= 1
      ensures Valid() && this.limit == limit && requests == map[]
    {
      this.limit := limit;
      requests, nows := map[], map[];
    }

    /** The locked section of one request, entered with the clock value read before it. */
    method CheckTokenRate(token: string, now: real) returns (verdict: Verdict)
      requires Valid()
      modifies this
      ensures Valid()
      ensures var before := if token in old(nows) then old(nows)[token] else [];
              && nows == old(nows)[token := before + [now]]
              && verdict == Section(limit, Sections(limit, before).window, now).verdict
              && requests == old(requests)[token := Sections(limit, before + [now]).window]
      ensures Sorted(nows[token]) ==>
                requests[token] == Within(Sections(limit, nows[token]).accepted, now)
    {
      hide Sections, RetryAfter, Within, Sorted;
      ghost var before := if token in nows then nows[token] else [];
      NoSections(limit);
      OneMoreSection(limit, before, now);
      if Sorted(before + [now]) {
        InClockOrder(limit, before, now);
      }
      var window := if token in requests then requests[token] else [];
      ghost var start := window;
      while window != [] && window[0] <= now - WINDOW
        invariant Popped(window, now) == Popped(start, now)
        decreases |window|
      {
        window := window[1..];
      }
      if |window| >= limit {
        verdict := Refused(RetryAfter(window[0], now));
      } else {
        window := window + [now];
        verdict := Accepted;
      }
      requests, nows := requests[token := window], nows[token := before + [now]];
    }

    method Reset()
      requires Valid()
      modifies this
      ensures Valid() && requests == map[]
    {
      requests, nows := map[], map[];
    }
  }
}
