/**
 * One pass of the `while True` loop of `main_code`: walk a snapshot of the
 * channel list, roll for each channel, dispatch the ones whose chance beats
 * the roll, drop a channel from the live list (and rewrite the file) when it
 * is forbidden, sleep a short interval after every other channel, and sleep
 * the long interval once at the end. Randomness comes in as one `Draw` per
 * snapshot entry, and the sleeps and file writes as a trace of events.
 */
module Scheduler {
  import opened Channels
  import opened Dispatcher

  /** What the pass draws for one snapshot entry: `randint(0, 100)`, `uniform(10, 20)`, and the replies `send_post` would get. */
  datatype Draw = Draw(roll: int, interval: real, replies: seq<Reply>)

  /** What happened to one channel of the snapshot. */
  datatype Decision = Skipped | Dispatched(outcome: Outcome)

  /** The observable effects of a pass, in order. */
  datatype Event =
    | RetrySleep(seconds: real)          // a back-off sleep inside send_post
    | IntervalSleep(seconds: real)       // time.sleep(interval)
    | Persist(channels: seq<Channel>)    // update_channels_json(file_name, channels)
    | LongSleep(wholeSeconds: int)       // time.sleep(sleep)

  /**
   * How a pass ends: it completes, the process exits on 401, or a long sleep
   * `time.sleep` refuses makes it raise and the program stops.
   */
  datatype PassEnd = Completed | Exited | Crashed

  datatype PassState = PassState(live: seq<Channel>, decisions: seq<Decision>, trace: seq<Event>, exited: bool)

  datatype PassResult = PassResult(live: seq<Channel>, decisions: seq<Decision>, trace: seq<Event>, end: PassEnd)

  /**
   * Longest whole number of seconds `time.sleep` accepts: CPython multiplies
   * an int by 10^9 into signed 64-bit nanoseconds and raises OverflowError
   * when that overflows.
   */
  const MaxWholeSleep: int := 9223372036

  /** Long sleeps `time.sleep` performs rather than raising. */
  predicate WholeSleepable(seconds: int)
  {
    0 <= seconds <= MaxWholeSleep
  }

  /** `random.randint(0, 100)` and `random.uniform(10, 20)` ranges; enough replies for every request. */
  predicate ValidDraw(d: Draw)
  {
    0 <= d.roll <= 100 && 10.0 <= d.interval <= 20.0 && |d.replies| >= MaxAttempts
  }

  predicate ValidDraws(channels: seq<Channel>, draws: seq<Draw>)
  {
    |draws| == |channels| && forall i :: 0 <= i < |draws| ==> ValidDraw(draws[i])
  }

  // ---------------------------------------------------------------------------
  // list.remove
  // ---------------------------------------------------------------------------

  /** Position of the first element equal to `x`. */
  function FirstIndex<T(==)>(s: seq<T>, x: T): (k: nat)
    requires x in s
    ensures k < |s| && s[k] == x && x !in s[..k]
  {
    if s[0] == x then 0 else 1 + FirstIndex(s[1..], x)
  }

  /**
   * `s.remove(x)`: drops the first element equal to `x`; the others keep their
   * order. Python raises when `x` is absent, which a pass never lets happen.
   */
  function RemoveFirst<T(==)>(s: seq<T>, x: T): (r: seq<T>)
    requires x in s
    ensures |r| == |s| - 1
  {
    if s[0] == x then s[1..] else [s[0]] + RemoveFirst(s[1..], x)
  }

  /** What is left is everything before the first `x` followed by everything after it. */
  lemma {:induction false} RemoveFirstSplits<T>(s: seq<T>, x: T)
    requires x in s
    ensures RemoveFirst(s, x) == s[..FirstIndex(s, x)] + s[FirstIndex(s, x) + 1..]
  {
    if s[0] == x {
      assert s[..0] + s[1..] == s[1..];
    } else {
      var t := s[1..];
      var k := FirstIndex(t, x);
      assert FirstIndex(s, x) == k + 1;
      assert RemoveFirst(s, x) == [s[0]] + RemoveFirst(t, x);
      RemoveFirstSplits(t, x);
      SplitShift(s, k);
    }
  }

  lemma SplitShift<T>(s: seq<T>, k: nat)
    requires k + 1 < |s|
    ensures [s[0]] + (s[1..][..k] + s[1..][k + 1..]) == s[..k + 1] + s[k + 2..]
  {
    assert [s[0]] + s[1..][..k] == s[..k + 1];
    assert s[1..][k + 1..] == s[k + 2..];
  }

  /** Exactly one occurrence of `x` goes. */
  lemma {:induction false} RemoveFirstMultiset<T>(s: seq<T>, x: T)
    requires x in s
    ensures multiset(RemoveFirst(s, x)) == multiset(s) - multiset{x}
  {
    assert s == [s[0]] + s[1..];
    if s[0] != x {
      RemoveFirstMultiset(s[1..], x);
    }
  }

  /** `rest` is what `s` ends with. */
  predicate EndsWith<T(==)>(s: seq<T>, rest: seq<T>)
  {
    |rest| <= |s| && s[|s| - |rest|..] == rest
  }

  /**
   * A list that ends with `x` and then `rest` holds `x`, and both it and
   * what removing the first `x` leaves still end with `rest`.
   */
  lemma {:induction false} RemoveFirstKeepsTail<T>(s: seq<T>, x: T, rest: seq<T>)
    requires EndsWith(s, [x] + rest)
    ensures x in s && EndsWith(s, rest) && EndsWith(RemoveFirst(s, x), rest)
  {
    var q := |s| - |rest| - 1;
    assert s[q..] == [x] + rest;
    assert s[q] == x && s[q + 1..] == rest;
    if s[0] != x {
      var t := s[1..];
      assert t[|t| - |rest| - 1..] == s[q..];
      RemoveFirstKeepsTail(t, x, rest);
      var r := RemoveFirst(t, x);
      assert ([s[0]] + r)[|r| + 1 - |rest|..] == r[|r| - |rest|..];
    }
  }

  // ---------------------------------------------------------------------------
  // The roll
  // ---------------------------------------------------------------------------

  /** `channel['chance'] >= roll`. */
  predicate Dispatches(chance: int, roll: int)
  {
    chance >= roll
  }

  /** How many of the rolls 0 .. n - 1 dispatch a channel with this chance. */
  function DispatchingRolls(chance: int, n: nat): nat
  {
    if n == 0 then 0 else DispatchingRolls(chance, n - 1) + (if Dispatches(chance, n - 1) then 1 else 0)
  }

  /**
   * The roll is `randint(0, 100)`, inclusive at both ends, so a chance of c
   * dispatches on c + 1 of the 101 rolls: chance 100 always, and chance 0
   * still on roll 0, once in 101 passes.
   */
  lemma {:induction false} DispatchOdds(chance: int, n: nat)
    ensures DispatchingRolls(chance, n) == if chance < 0 then 0 else if chance >= n then n else chance + 1
  {
    if n > 0 {
      DispatchOdds(chance, n - 1);
    }
  }

  // ---------------------------------------------------------------------------
  // The pass, as a specification
  // ---------------------------------------------------------------------------

  function RetrySleeps(sleeps: seq<real>): (events: seq<Event>)
    ensures |events| == |sleeps|
  {
    if sleeps == [] then [] else RetrySleeps(sleeps[..|sleeps| - 1]) + [RetrySleep(sleeps[|sleeps| - 1])]
  }

  /**
   * One turn of `for channel in channels[:]` on a pass that has not exited;
   * `result` is what `send_post` does for this channel if it is dispatched.
   */
  function Visit(st: PassState, channel: Channel, draw: Draw, result: DispatchResult): (r: PassState)
    requires channel in st.live
    ensures r.live == st.live || r.live == RemoveFirst(st.live, channel)
  {
    if !Dispatches(channel.chance, draw.roll) then
      PassState(st.live, st.decisions + [Skipped], st.trace + [IntervalSleep(draw.interval)], false)
    else
      var trace := st.trace + RetrySleeps(result.sleeps);
      var decisions := st.decisions + [Dispatched(result.outcome)];
      match result.outcome
      case Forbidden =>
        var live := RemoveFirst(st.live, channel);
        PassState(live, decisions, trace + [Persist(live)], false)
      case Fatal =>
        PassState(st.live, decisions, trace, true)
      case _ =>
        PassState(st.live, decisions, trace + [IntervalSleep(draw.interval)], false)
  }

  /** What `send_post` does for each snapshot entry, were it dispatched. */
  function Results(draws: seq<Draw>): (results: seq<DispatchResult>)
    requires forall i :: 0 <= i < |draws| ==> |draws[i].replies| >= MaxAttempts
    ensures |results| == |draws|
    ensures forall i :: 0 <= i < |draws| ==> results[i] == Dispatch(draws[i].replies)
  {
    if draws == [] then []
    else Results(draws[..|draws| - 1]) + [Dispatch(draws[|draws| - 1].replies)]
  }

  /**
   * The state after the first `k` entries of the snapshot. `remove` would
   * raise if the channel were missing from the live list; `SnapshotTailIsLive`
   * shows it never is, so the guard below always holds.
   */
  function PassUpTo(channels: seq<Channel>, draws: seq<Draw>, results: seq<DispatchResult>, k: nat): (st: PassState)
    requires |draws| == |channels| == |results| && k <= |channels|
    ensures |st.decisions| <= k
  {
    if k == 0 then PassState(channels, [], [], false)
    else
      var st := PassUpTo(channels, draws, results, k - 1);
      if st.exited || channels[k - 1] !in st.live then st
      else Visit(st, channels[k - 1], draws[k - 1], results[k - 1])
  }

  /** The whole pass: every snapshot entry, then the long sleep. */
  function Pass(channels: seq<Channel>, draws: seq<Draw>, longSleep: int): PassResult
    requires ValidDraws(channels, draws)
  {
    var st := PassUpTo(channels, draws, Results(draws), |channels|);
    if st.exited then PassResult(st.live, st.decisions, st.trace, Exited)
    else if !WholeSleepable(longSleep) then PassResult(st.live, st.decisions, st.trace, Crashed)
    else PassResult(st.live, st.decisions, st.trace + [LongSleep(longSleep)], Completed)
  }

  /** Once the process has exited, the later snapshot entries change nothing. */
  lemma {:induction false} ExitedStays(channels: seq<Channel>, draws: seq<Draw>, results: seq<DispatchResult>, j: nat, k: nat)
    requires |draws| == |channels| == |results| && j <= k <= |channels|
    requires PassUpTo(channels, draws, results, j).exited
    ensures PassUpTo(channels, draws, results, k) == PassUpTo(channels, draws, results, j)
    decreases k
  {
    if j < k {
      ExitedStays(channels, draws, results, j, k - 1);
      PassStep(channels, draws, results, k);
    }
  }

  // ---------------------------------------------------------------------------
  // What a pass does
  // ---------------------------------------------------------------------------

  /** `r` is what entry `c` of the snapshot turns `st` into. */
  predicate Steps(st: PassState, c: Channel, draw: Draw, result: DispatchResult, r: PassState)
  {
    if st.exited || c !in st.live then r == st else r == Visit(st, c, draw, result)
  }

  /** Entry k of the snapshot either finds the process gone or is visited. */
  lemma PassStep(channels: seq<Channel>, draws: seq<Draw>, results: seq<DispatchResult>, k: nat)
    requires |draws| == |channels| == |results| && 0 < k <= |channels|
    ensures Steps(PassUpTo(channels, draws, results, k - 1), channels[k - 1], draws[k - 1], results[k - 1],
                  PassUpTo(channels, draws, results, k))
  {
  }

  /**
   * The snapshot entries not yet visited are, in order, the end of the live
   * list: removing a forbidden channel takes its first occurrence, which is
   * never a later entry, so every entry is still there when its turn comes
   * and `remove` never raises.
   */
  lemma {:induction false} SnapshotTailIsLive(channels: seq<Channel>, draws: seq<Draw>, results: seq<DispatchResult>, k: nat)
    requires |draws| == |channels| == |results| && k <= |channels|
    ensures var st := PassUpTo(channels, draws, results, k);
      !st.exited ==> |st.decisions| == k && EndsWith(st.live, channels[k..])
  {
    if k > 0 {
      SnapshotTailIsLive(channels, draws, results, k - 1);
      PassStep(channels, draws, results, k);
      var prev := PassUpTo(channels, draws, results, k - 1);
      if !prev.exited {
        assert channels[k - 1..] == [channels[k - 1]] + channels[k..];
        RemoveFirstKeepsTail(prev.live, channels[k - 1], channels[k..]);
        VisitDecides(prev, channels[k - 1], draws[k - 1], results[k - 1]);
      }
    }
  }

  /** Hence the entry a turn is about is always in the live list. */
  lemma EntryIsLive(channels: seq<Channel>, draws: seq<Draw>, results: seq<DispatchResult>, k: nat)
    requires |draws| == |channels| == |results| && k < |channels|
    ensures var st := PassUpTo(channels, draws, results, k);
      !st.exited ==> |st.decisions| == k && channels[k] in st.live
  {
    SnapshotTailIsLive(channels, draws, results, k);
    var st := PassUpTo(channels, draws, results, k);
    if !st.exited {
      assert channels[k..] == [channels[k]] + channels[k + 1..];
      RemoveFirstKeepsTail(st.live, channels[k], channels[k + 1..]);
    }
  }

  /** A turn on entry k of a pass that is still running visits it. */
  lemma PassTurn(channels: seq<Channel>, draws: seq<Draw>, results: seq<DispatchResult>, k: nat)
    requires |draws| == |channels| == |results| && k < |channels|
    ensures var st := PassUpTo(channels, draws, results, k);
      !st.exited ==>
        channels[k] in st.live
        && PassUpTo(channels, draws, results, k + 1) == Visit(st, channels[k], draws[k], results[k])
  {
    EntryIsLive(channels, draws, results, k);
    PassStep(channels, draws, results, k + 1);
  }

  /** What the roll and `send_post` decide for one channel. */
  function Expected(channel: Channel, draw: Draw, result: DispatchResult): (d: Decision)
    ensures d == Skipped <==> !Dispatches(channel.chance, draw.roll)
    ensures d.Dispatched? ==> d.outcome == result.outcome
  {
    if Dispatches(channel.chance, draw.roll) then Dispatched(result.outcome) else Skipped
  }

  /**
   * A turn records its decision; the pass stops exactly on a 401; only a
   * 403 takes the channel out of the live list.
   */
  lemma VisitDecides(st: PassState, channel: Channel, draw: Draw, result: DispatchResult)
    requires channel in st.live
    ensures var r := Visit(st, channel, draw, result);
      var d := Expected(channel, draw, result);
      r.decisions == st.decisions + [d]
      && (r.exited <==> d == Dispatched(Fatal))
      && r.live == (if d == Dispatched(Forbidden) then RemoveFirst(st.live, channel) else st.live)
  {
  }

  /** The decisions the roll and `send_post` make for the first n snapshot entries. */
  function ExpectedUpTo(channels: seq<Channel>, draws: seq<Draw>, results: seq<DispatchResult>, n: nat): (ds: seq<Decision>)
    requires |draws| == |channels| == |results| && n <= |channels|
    ensures |ds| == n
  {
    if n == 0 then [] else ExpectedUpTo(channels, draws, results, n - 1) + [Expected(channels[n - 1], draws[n - 1], results[n - 1])]
  }

  /** The decision for entry i, for every entry the pass reached. */
  lemma {:induction false} DecisionAt(channels: seq<Channel>, draws: seq<Draw>, results: seq<DispatchResult>, n: nat, i: nat)
    requires |draws| == |channels| == |results| && i < n <= |channels|
    ensures ExpectedUpTo(channels, draws, results, n)[i] == Expected(channels[i], draws[i], results[i])
    decreases n
  {
    if i < n - 1 {
      DecisionAt(channels, draws, results, n - 1, i);
    }
  }

  /**
   * After k entries the decisions are the expected ones for the entries
   * visited; all k were visited unless a 401 came, and then it came last.
   */
  predicate DecidedSoFar(channels: seq<Channel>, draws: seq<Draw>, results: seq<DispatchResult>, k: nat, st: PassState)
    requires |draws| == |channels| == |results| && k <= |channels|
  {
    var n := |st.decisions|;
    n <= k
    && st.decisions == ExpectedUpTo(channels, draws, results, n)
    && (!st.exited ==> n == k && Dispatched(Fatal) !in st.decisions)
    && (st.exited ==> n > 0 && st.decisions[n - 1] == Dispatched(Fatal) && Dispatched(Fatal) !in st.decisions[..n - 1])
  }

  /** A turn on entry k - 1 extends the decisions by the expected one. */
  lemma VisitDecidesSoFar(channels: seq<Channel>, draws: seq<Draw>, results: seq<DispatchResult>, k: nat, st: PassState, r: PassState)
    requires |draws| == |channels| == |results| && 0 < k <= |channels|
    requires DecidedSoFar(channels, draws, results, k - 1, st) && !st.exited && channels[k - 1] in st.live
    requires r == Visit(st, channels[k - 1], draws[k - 1], results[k - 1])
    ensures DecidedSoFar(channels, draws, results, k, r)
  {
    var d := Expected(channels[k - 1], draws[k - 1], results[k - 1]);
    VisitDecides(st, channels[k - 1], draws[k - 1], results[k - 1]);
    assert r.decisions == st.decisions + [d];
    assert r.decisions[..k - 1] == st.decisions;
    assert ExpectedUpTo(channels, draws, results, k) == ExpectedUpTo(channels, draws, results, k - 1) + [d];
  }

  lemma DecideStep(channels: seq<Channel>, draws: seq<Draw>, results: seq<DispatchResult>, k: nat)
    requires |draws| == |channels| == |results| && 0 < k <= |channels|
    requires DecidedSoFar(channels, draws, results, k - 1, PassUpTo(channels, draws, results, k - 1))
    ensures DecidedSoFar(channels, draws, results, k, PassUpTo(channels, draws, results, k))
  {
    PassStep(channels, draws, results, k);
    EntryIsLive(channels, draws, results, k - 1);
    var st := PassUpTo(channels, draws, results, k - 1);
    if !st.exited {
      VisitDecidesSoFar(channels, draws, results, k, st, PassUpTo(channels, draws, results, k));
    }
  }

  /**
   * Every snapshot entry is visited in order until the process exits: the
   * decisions are the roll's and `send_post`'s for the entries visited,
   * removals do not make the pass skip an entry, and only a 401 stops it
   * early, as the last decision.
   */
  lemma {:induction false} PassDecisions(channels: seq<Channel>, draws: seq<Draw>, results: seq<DispatchResult>, k: nat)
    requires |draws| == |channels| == |results| && k <= |channels|
    ensures DecidedSoFar(channels, draws, results, k, PassUpTo(channels, draws, results, k))
  {
    if k > 0 {
      PassDecisions(channels, draws, results, k - 1);
      DecideStep(channels, draws, results, k);
    }
  }

  // Counting events and decisions

  function CountIntervals(trace: seq<Event>): nat
  {
    if trace == [] then 0 else CountIntervals(trace[..|trace| - 1]) + (if trace[|trace| - 1].IntervalSleep? then 1 else 0)
  }

  function CountPersists(trace: seq<Event>): nat
  {
    if trace == [] then 0 else CountPersists(trace[..|trace| - 1]) + (if trace[|trace| - 1].Persist? then 1 else 0)
  }

  function CountLongSleeps(trace: seq<Event>): nat
  {
    if trace == [] then 0 else CountLongSleeps(trace[..|trace| - 1]) + (if trace[|trace| - 1].LongSleep? then 1 else 0)
  }

  /** Decisions after which the pass sleeps the interval: skipped, sent or failed. */
  predicate Waits(d: Decision)
  {
    d == Skipped || d == Dispatched(Sent) || d == Dispatched(Failed)
  }

  function CountWaiting(decisions: seq<Decision>): nat
  {
    if decisions == [] then 0
    else CountWaiting(decisions[..|decisions| - 1]) + (if Waits(decisions[|decisions| - 1]) then 1 else 0)
  }

  function CountForbidden(decisions: seq<Decision>): nat
  {
    if decisions == [] then 0
    else CountForbidden(decisions[..|decisions| - 1]) + (if decisions[|decisions| - 1] == Dispatched(Forbidden) then 1 else 0)
  }

  lemma {:induction false} CountsOfConcat(a: seq<Event>, b: seq<Event>)
    ensures CountIntervals(a + b) == CountIntervals(a) + CountIntervals(b)
    ensures CountPersists(a + b) == CountPersists(a) + CountPersists(b)
    ensures CountLongSleeps(a + b) == CountLongSleeps(a) + CountLongSleeps(b)
    decreases |b|
  {
    if b != [] {
      assert (a + b)[..|a + b| - 1] == a + b[..|b| - 1];
      CountsOfConcat(a, b[..|b| - 1]);
    } else {
      assert a + b == a;
    }
  }

  lemma {:induction false} RetrySleepsCountNothing(sleeps: seq<real>)
    ensures CountIntervals(RetrySleeps(sleeps)) == 0
    ensures CountPersists(RetrySleeps(sleeps)) == 0
    ensures CountLongSleeps(RetrySleeps(sleeps)) == 0
    decreases |sleeps|
  {
    if sleeps != [] {
      var e := RetrySleeps(sleeps);
      assert e[..|e| - 1] == RetrySleeps(sleeps[..|sleeps| - 1]);
      RetrySleepsCountNothing(sleeps[..|sleeps| - 1]);
    }
  }

  /** One turn adds its retry sleeps and then exactly the events its decision calls for. */
  lemma VisitCounts(st: PassState, channel: Channel, draw: Draw, result: DispatchResult)
    requires channel in st.live
    ensures var r := Visit(st, channel, draw, result);
      var d := Expected(channel, draw, result);
      CountIntervals(r.trace) == CountIntervals(st.trace) + (if Waits(d) then 1 else 0)
      && CountPersists(r.trace) == CountPersists(st.trace) + (if d == Dispatched(Forbidden) then 1 else 0)
      && CountLongSleeps(r.trace) == CountLongSleeps(st.trace)
  {
    var r := Visit(st, channel, draw, result);
    var retries := RetrySleeps(result.sleeps);
    RetrySleepsCountNothing(result.sleeps);
    CountsOfConcat(st.trace, retries);
    if Dispatches(channel.chance, draw.roll) {
      match result.outcome
      case Forbidden =>
        CountsOfConcat(st.trace + retries, [Persist(r.live)]);
      case Fatal =>
      case Sent =>
        CountsOfConcat(st.trace + retries, [IntervalSleep(draw.interval)]);
      case Failed =>
        CountsOfConcat(st.trace + retries, [IntervalSleep(draw.interval)]);
    } else {
      CountsOfConcat(st.trace, [IntervalSleep(draw.interval)]);
    }
  }

  /** Interval sleeps match the waiting decisions, file writes the removals, and no long sleep yet. */
  predicate Counted(st: PassState)
  {
    CountIntervals(st.trace) == CountWaiting(st.decisions)
    && CountPersists(st.trace) == CountForbidden(st.decisions)
    && CountLongSleeps(st.trace) == 0
  }

  lemma CountStep(channels: seq<Channel>, draws: seq<Draw>, results: seq<DispatchResult>, k: nat)
    requires |draws| == |channels| == |results| && 0 < k <= |channels|
    requires Counted(PassUpTo(channels, draws, results, k - 1))
    ensures Counted(PassUpTo(channels, draws, results, k))
  {
    PassStep(channels, draws, results, k);
    var st := PassUpTo(channels, draws, results, k - 1);
    var r := PassUpTo(channels, draws, results, k);
    var c := channels[k - 1];
    if !st.exited && c in st.live {
      VisitDecides(st, c, draws[k - 1], results[k - 1]);
      VisitCounts(st, c, draws[k - 1], results[k - 1]);
      assert r.decisions[..|r.decisions| - 1] == st.decisions;
    }
  }

  /**
   * Exactly one interval sleep per channel that was skipped, sent or failed,
   * none for a removed channel, and exactly one file write per removal.
   */
  lemma {:induction false} PassCounts(channels: seq<Channel>, draws: seq<Draw>, results: seq<DispatchResult>, k: nat)
    requires |draws| == |channels| == |results| && k <= |channels|
    ensures Counted(PassUpTo(channels, draws, results, k))
  {
    if k > 0 {
      PassCounts(channels, draws, results, k - 1);
      CountStep(channels, draws, results, k);
    }
  }

  // The channel file stays in step with the live list

  /** The list the file holds after `trace`, starting from `initial`. */
  function FileContents(trace: seq<Event>, initial: seq<Channel>): seq<Channel>
  {
    if trace == [] then initial
    else if trace[|trace| - 1].Persist? then trace[|trace| - 1].channels
    else FileContents(trace[..|trace| - 1], initial)
  }

  lemma {:induction false} FileContentsOfConcat(a: seq<Event>, b: seq<Event>, initial: seq<Channel>)
    ensures FileContents(a + b, initial) == FileContents(b, FileContents(a, initial))
    decreases |b|
  {
    if b != [] {
      assert (a + b)[..|a + b| - 1] == a + b[..|b| - 1];
      FileContentsOfConcat(a, b[..|b| - 1], initial);
    } else {
      assert a + b == a;
    }
  }

  lemma {:induction false} RetrySleepsWriteNothing(sleeps: seq<real>, initial: seq<Channel>)
    ensures FileContents(RetrySleeps(sleeps), initial) == initial
    decreases |sleeps|
  {
    if sleeps != [] {
      var e := RetrySleeps(sleeps);
      assert e[..|e| - 1] == RetrySleeps(sleeps[..|sleeps| - 1]);
      RetrySleepsWriteNothing(sleeps[..|sleeps| - 1], initial);
    }
  }

  /** A turn that starts with the file in step with the live list ends with it in step. */
  lemma FileStep(channels: seq<Channel>, draws: seq<Draw>, results: seq<DispatchResult>, k: nat)
    requires |draws| == |channels| == |results| && 0 < k <= |channels|
    requires var st := PassUpTo(channels, draws, results, k - 1); FileContents(st.trace, channels) == st.live
    ensures var r := PassUpTo(channels, draws, results, k); FileContents(r.trace, channels) == r.live
  {
    PassStep(channels, draws, results, k);
    var st := PassUpTo(channels, draws, results, k - 1);
    var c, draw, result := channels[k - 1], draws[k - 1], results[k - 1];
    if !st.exited && c in st.live {
      var retries := RetrySleeps(result.sleeps);
      RetrySleepsWriteNothing(result.sleeps, st.live);
      FileContentsOfConcat(st.trace, retries, channels);
      if !Dispatches(c.chance, draw.roll) {
        FileContentsOfConcat(st.trace, [IntervalSleep(draw.interval)], channels);
      } else if result.outcome == Sent || result.outcome == Failed {
        FileContentsOfConcat(st.trace + retries, [IntervalSleep(draw.interval)], channels);
      }
    }
  }

  /**
   * Every removal is written out at once: after any prefix of the pass the
   * channel file holds exactly the live list (given that it held the list
   * the pass started from).
   */
  lemma {:induction false} FileMatchesLive(channels: seq<Channel>, draws: seq<Draw>, results: seq<DispatchResult>, k: nat)
    requires |draws| == |channels| == |results| && k <= |channels|
    ensures var st := PassUpTo(channels, draws, results, k);
      FileContents(st.trace, channels) == st.live
  {
    if k > 0 {
      FileMatchesLive(channels, draws, results, k - 1);
      FileStep(channels, draws, results, k);
    }
  }

  // What the live list loses

  /** The snapshot entries among the first |decisions| that were removed as forbidden, in order. */
  function RemovedChannels(channels: seq<Channel>, decisions: seq<Decision>): seq<Channel>
    requires |decisions| <= |channels|
  {
    if decisions == [] then []
    else
      var n := |decisions| - 1;
      RemovedChannels(channels, decisions[..n]) + (if decisions[n] == Dispatched(Forbidden) then [channels[n]] else [])
  }

  /** The live list and the removed entries together make up the snapshot. */
  predicate LiveAccounted(channels: seq<Channel>, st: PassState)
  {
    |st.decisions| <= |channels|
    && Pool(channels, st) == multiset(channels)
    && |st.live| == |channels| - CountForbidden(st.decisions)
  }

  /** The live channels together with the removed ones. */
  function Pool(channels: seq<Channel>, st: PassState): multiset<Channel>
    requires |st.decisions| <= |channels|
  {
    multiset(st.live) + multiset(RemovedChannels(channels, st.decisions))
  }

  /** Moving one copy of `c` from the live list to the removed list keeps their union. */
  lemma RemoveOne(live: seq<Channel>, removed: seq<Channel>, c: Channel, total: multiset<Channel>)
    requires c in live && multiset(live) + multiset(removed) == total
    ensures multiset(RemoveFirst(live, c)) + multiset(removed + [c]) == total
    ensures |RemoveFirst(live, c)| == |live| - 1
  {
    RemoveFirstMultiset(live, c);
    assert c in multiset(live);
  }

  /** One more decision adds its removal, if any, to the removed list and the count. */
  lemma LiveStep(channels: seq<Channel>, before: seq<Decision>, after: seq<Decision>, d: Decision)
    requires |after| <= |channels| && after == before + [d]
    ensures RemovedChannels(channels, after)
            == RemovedChannels(channels, before) + (if d == Dispatched(Forbidden) then [channels[|before|]] else [])
    ensures CountForbidden(after) == CountForbidden(before) + (if d == Dispatched(Forbidden) then 1 else 0)
  {
    assert after[..|after| - 1] == before;
  }

  /** The turn on snapshot entry k - 1 keeps the accounting. */
  lemma AccountStep(channels: seq<Channel>, draws: seq<Draw>, results: seq<DispatchResult>, k: nat)
    requires |draws| == |channels| == |results| && 0 < k <= |channels|
    requires LiveAccounted(channels, PassUpTo(channels, draws, results, k - 1))
    ensures LiveAccounted(channels, PassUpTo(channels, draws, results, k))
  {
    PassStep(channels, draws, results, k);
    EntryIsLive(channels, draws, results, k - 1);
    var st := PassUpTo(channels, draws, results, k - 1);
    var r := PassUpTo(channels, draws, results, k);
    if !st.exited {
      var c, draw, result := channels[k - 1], draws[k - 1], results[k - 1];
      var d := Expected(c, draw, result);
      VisitDecides(st, c, draw, result);
      LiveStep(channels, st.decisions, r.decisions, d);
      var removed := RemovedChannels(channels, st.decisions);
      if d == Dispatched(Forbidden) {
        RemoveOne(st.live, removed, c, multiset(channels));
        assert r.live == RemoveFirst(st.live, c);
        assert RemovedChannels(channels, r.decisions) == removed + [c];
      } else {
        assert r.live == st.live;
        assert RemovedChannels(channels, r.decisions) == removed;
      }
    }
  }

  /**
   * The live list is the snapshot less one copy of each removed channel, and
   * it is shorter by the number of removals.
   */
  lemma {:induction false} LiveLosesRemoved(channels: seq<Channel>, draws: seq<Draw>, results: seq<DispatchResult>, k: nat)
    requires |draws| == |channels| == |results| && k <= |channels|
    ensures LiveAccounted(channels, PassUpTo(channels, draws, results, k))
  {
    if k > 0 {
      LiveLosesRemoved(channels, draws, results, k - 1);
      AccountStep(channels, draws, results, k);
    }
  }

  /**
   * How the whole pass ends: after a complete pass every snapshot entry was
   * decided and exactly one long sleep closes the trace; on a 401 the last
   * decision is the fatal one and there is no long sleep; a negative or
   * too long a long sleep stops the program instead of sleeping.
   */
  lemma PassEnding(channels: seq<Channel>, draws: seq<Draw>, longSleep: int)
    requires ValidDraws(channels, draws)
    ensures var p := Pass(channels, draws, longSleep);
      (p.end == Completed <==> Dispatched(Fatal) !in p.decisions && 0 <= longSleep <= MaxWholeSleep)
      && (p.end == Crashed <==> Dispatched(Fatal) !in p.decisions && (longSleep < 0 || longSleep > MaxWholeSleep))
      && (p.end != Exited ==> |p.decisions| == |channels|)
      && (p.end == Exited ==> p.decisions[|p.decisions| - 1] == Dispatched(Fatal))
      && (p.end == Completed ==> p.trace[|p.trace| - 1] == LongSleep(longSleep))
      && CountLongSleeps(p.trace) == (if p.end == Completed then 1 else 0)
  {
    var results := Results(draws);
    var st := PassUpTo(channels, draws, results, |channels|);
    PassDecisions(channels, draws, results, |channels|);
    PassCounts(channels, draws, results, |channels|);
    CountsOfConcat(st.trace, [LongSleep(longSleep)]);
  }

  /**
   * Each channel the pass reached got the decision its roll and its own
   * `send_post` call give, in snapshot order.
   */
  lemma PassDecidesEachChannel(channels: seq<Channel>, draws: seq<Draw>, longSleep: int)
    requires ValidDraws(channels, draws)
    ensures var p := Pass(channels, draws, longSleep);
      |p.decisions| <= |channels|
      && forall i :: 0 <= i < |p.decisions| ==>
           p.decisions[i] == Expected(channels[i], draws[i], Dispatch(draws[i].replies))
  {
    var results := Results(draws);
    var st := PassUpTo(channels, draws, results, |channels|);
    PassDecisions(channels, draws, results, |channels|);
    forall i | 0 <= i < |st.decisions|
      ensures st.decisions[i] == Expected(channels[i], draws[i], Dispatch(draws[i].replies))
    {
      DecisionAt(channels, draws, results, |st.decisions|, i);
    }
  }

  /**
   * What a whole pass writes and sleeps: one interval sleep per channel that
   * was skipped, sent or failed, one file write per removed channel, and the
   * file left holding the live list.
   */
  lemma PassEffects(channels: seq<Channel>, draws: seq<Draw>, longSleep: int)
    requires ValidDraws(channels, draws)
    ensures var p := Pass(channels, draws, longSleep);
      CountIntervals(p.trace) == CountWaiting(p.decisions)
      && CountPersists(p.trace) == CountForbidden(p.decisions)
      && FileContents(p.trace, channels) == p.live
  {
    var results := Results(draws);
    var st := PassUpTo(channels, draws, results, |channels|);
    PassCounts(channels, draws, results, |channels|);
    FileMatchesLive(channels, draws, results, |channels|);
    CountsOfConcat(st.trace, [LongSleep(longSleep)]);
    FileContentsOfConcat(st.trace, [LongSleep(longSleep)], channels);
  }

  /**
   * What a whole pass keeps: the live list is the snapshot less one copy of
   * each channel found forbidden.
   */
  lemma PassKeepsTheRest(channels: seq<Channel>, draws: seq<Draw>, longSleep: int)
    requires ValidDraws(channels, draws)
    ensures var p := Pass(channels, draws, longSleep);
      multiset(p.live) + multiset(RemovedChannels(channels, p.decisions)) == multiset(channels)
      && |p.live| == |channels| - CountForbidden(p.decisions)
  {
    LiveLosesRemoved(channels, draws, Results(draws), |channels|);
  }

  /**
   * The two-channel example: chance 100 is always dispatched and, when its
   * first reply is 200, sent; chance 0 with a non-zero roll is skipped; each
   * is followed by its interval sleep and the pass by the long sleep.
   */
  lemma TwoChannelPass(a: Channel, b: Channel, da: Draw, db: Draw, longSleep: int)
    requires a.chance == 100 && b.chance == 0
    requires ValidDraw(da) && ValidDraw(db) && db.roll > 0 && 0 <= longSleep <= MaxWholeSleep
    requires da.replies[0].Response? && da.replies[0].status == 200
    ensures Pass([a, b], [da, db], longSleep)
            == PassResult([a, b], [Dispatched(Sent), Skipped],
                          [IntervalSleep(da.interval), IntervalSleep(db.interval), LongSleep(longSleep)], Completed)
  {
    var results := Results([da, db]);
    assert results[0] == DispatchResult(Sent, 1, []);
    assert RetrySleeps([]) == [];
    assert PassUpTo([a, b], [da, db], results, 1)
           == PassState([a, b], [Dispatched(Sent)], [IntervalSleep(da.interval)], false);
  }

  // ---------------------------------------------------------------------------
  // The pass, as written
  // ---------------------------------------------------------------------------

  /**
   * The body of `for channel in channels[:]` for one channel: roll, maybe
   * dispatch, and on Forbidden remove and persist and `continue` past the
   * interval sleep. `exited` is set when `send_post` ended the process.
   */
  method VisitChannel(live0: seq<Channel>, decisions0: seq<Decision>, trace0: seq<Event>, channel: Channel, draw: Draw)
    returns (live: seq<Channel>, decisions: seq<Decision>, trace: seq<Event>, exited: bool)
    requires |draw.replies| >= MaxAttempts
    requires channel in live0
    ensures PassState(live, decisions, trace, exited)
            == Visit(PassState(live0, decisions0, trace0, false), channel, draw, Dispatch(draw.replies))
  {
    live, decisions, trace, exited := live0, decisions0, trace0, false;
    if channel.chance >= draw.roll {
      var success, _, sleeps := SendPost(draw.replies);
      trace := trace + RetrySleeps(sleeps);
      decisions := decisions + [Dispatched(success)];
      if success == Forbidden {
        live := RemoveFirst(live, channel);
        trace := trace + [Persist(live)];
        return;  // `continue`: no interval sleep for a removed channel
      } else if success == Fatal {
        exited := true;  // sys.exit(1) inside send_post
        return;
      }
    } else {
      decisions := decisions + [Skipped];
    }
    trace := trace + [IntervalSleep(draw.interval)];
  }

  /**
   * `for channel in channels[:]`: visits the snapshot entries in order and
   * stops early only when `send_post` ended the process.
   */
  method VisitSnapshot(channels: seq<Channel>, draws: seq<Draw>)
    returns (live: seq<Channel>, decisions: seq<Decision>, trace: seq<Event>, exited: bool)
    requires ValidDraws(channels, draws)
    ensures PassState(live, decisions, trace, exited) == PassUpTo(channels, draws, Results(draws), |channels|)
  {
    ghost var results := Results(draws);
    live, decisions, trace, exited := channels, [], [], false;
    for i := 0 to |channels|
      invariant PassUpTo(channels, draws, results, i) == PassState(live, decisions, trace, false)
    {
      var channel, draw := channels[i], draws[i];
      PassTurn(channels, draws, results, i);
      assert results[i] == Dispatch(draw.replies);
      live, decisions, trace, exited := VisitChannel(live, decisions, trace, channel, draw);
      if exited {
        ExitedStays(channels, draws, results, i + 1, |channels|);
        return;
      }
    }
  }

  /**
   * One pass of `main_code`. `channels` is the live list at the start of the
   * pass (and the snapshot `channels[:]`), `draws[i]` is what the pass draws
   * for the i-th snapshot entry, `longSleep` is the number read at startup.
   */
  method RunPass(channels: seq<Channel>, draws: seq<Draw>, longSleep: int)
    returns (live: seq<Channel>, decisions: seq<Decision>, trace: seq<Event>, end: PassEnd)
    requires ValidDraws(channels, draws)
    ensures PassResult(live, decisions, trace, end) == Pass(channels, draws, longSleep)
  {
    var exited;
    live, decisions, trace, exited := VisitSnapshot(channels, draws);
    if exited {
      end := Exited;  // sys.exit(1) inside send_post
    } else if longSleep < 0 || longSleep > MaxWholeSleep {
      end := Crashed;  // time.sleep raises ValueError or OverflowError
    } else {
      trace := trace + [LongSleep(longSleep)];
      end := Completed;
    }
  }
}
