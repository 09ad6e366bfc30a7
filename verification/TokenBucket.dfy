/**
 The token bucket of a rate-limit traffic class (bess/core/traffic_class.cc:476-521,
 bess/core/traffic_class.h:535-550, bess/core/scheduler.h:106-120), in unbounded integers.
 */
module TokenBucket {
  import opened Granules

  /** `wakeup` is `wakeup_time_`: 0 unless the class is throttled. */
  datatype Bucket = Bucket(limit: nat, maxBurst: nat, tokens: nat, lastTsc: nat, wakeup: nat)

  /** `limit * cycles`. */
  function Credit(limit: nat, cycles: nat): nat {
    Times(cycles, limit)
  }

  /** The tokens available when usage is accounted at `tsc`. */
  function Available(b: Bucket, tsc: nat): nat
    requires b.lastTsc <= tsc
  {
    b.tokens + Credit(b.limit, tsc - b.lastTsc)
  }

  predicate Exceeds(b: Bucket, tsc: nat, consumed: nat)
    requires b.lastTsc <= tsc
  {
    Available(b, tsc) < consumed
  }

  /**
   `FinishAndAccountTowardsRoot`, the part that concerns the tokens. A limiter that exceeded them waits for the
   cycles whose credit makes up for the excess, short by less than one cycle's.
   */
  function Charge(b: Bucket, tsc: nat, consumed: nat): (b': Bucket)
    requires b.lastTsc <= tsc
    ensures b'.limit == b.limit && b'.maxBurst == b.maxBurst && b'.lastTsc == tsc
    ensures b'.tokens <= b.maxBurst
    ensures Exceeds(b, tsc, consumed) ==> b'.tokens == 0
    ensures Exceeds(b, tsc, consumed) && b.limit > 0 ==>
      && b'.wakeup >= tsc
      && Credit(b.limit, b'.wakeup - tsc) <= consumed - Available(b, tsc) < Credit(b.limit, b'.wakeup - tsc + 1)
    ensures !Exceeds(b, tsc, consumed) ==>
      b'.tokens + consumed <= Available(b, tsc) && (b'.tokens + consumed == Available(b, tsc) || b'.tokens == b.maxBurst)
    ensures !Exceeds(b, tsc, consumed) || b.limit == 0 ==> b'.wakeup == b.wakeup
  {
    var tokens := Available(b, tsc);
    if b.limit > 0 && tokens < consumed then
      QuotTimes(consumed - tokens, b.limit);
      b.(tokens := 0, lastTsc := tsc, wakeup := tsc + Quot(consumed - tokens, b.limit))
    else if tokens < consumed then
      b.(tokens := 0, lastTsc := tsc)
    else
      b.(tokens := if tokens - consumed < b.maxBurst then tokens - consumed else b.maxBurst, lastTsc := tsc)
  }

  /** `UnblockTowardsRoot`. */
  function Unblocked(b: Bucket, tsc: nat): Bucket {
    b.(lastTsc := tsc)
  }

  /** `WakeTCs`: the wakeup time becomes the time tokens count from. */
  function Woken(b: Bucket): Bucket {
    b.(wakeup := 0, lastTsc := b.wakeup)
  }

  /** `to_work_units`. */
  function ToWorkUnits(x: nat): nat {
    x * 0x1_0000_0000
  }

  /** `to_work_units_per_cycle`. */
  function ToWorkUnitsPerCycle(x: nat, tscHz: nat): nat
    requires tscHz > 0
  {
    ToWorkUnits(x) / tscHz
  }

  lemma TimesSwap(i: nat, g: nat)
    ensures Times(i, g) == Times(g, i)
  {
    TimesIsProduct(i, g);
    TimesIsProduct(g, i);
  }

  /** One second's credit is the configured rate, short by less than one work unit per cycle. */
  lemma OneSecondOfCredit(x: nat, tscHz: nat)
    requires tscHz > 0
    ensures var limit := ToWorkUnitsPerCycle(x, tscHz);
      Credit(limit, tscHz) <= x * 0x1_0000_0000 < Credit(limit + 1, tscHz)
  {
    var limit := ToWorkUnitsPerCycle(x, tscHz);
    QuotIsDiv(ToWorkUnits(x), tscHz);
    QuotTimes(ToWorkUnits(x), tscHz);
    TimesSwap(limit, tscHz);
    TimesSwap(limit + 1, tscHz);
    assert Times(limit + 1, tscHz) == Times(limit, tscHz) + tscHz;
  }

  /** `to_work_units` counts in units of 2^-32, as the limit does. */
  lemma WorkUnits(x: nat)
    ensures ToWorkUnits(x) == 0x1_0000_0000 * x
  {
  }

  // ----- whole runs -----

  datatype Event = Account(tsc: nat, consumed: nat) | ChildUnblocked(tsc: nat) | Wake

  /** What the scheduler guarantees of the next event: time moves on, and a throttled class is not run. */
  predicate Possible(b: Bucket, e: Event) {
    match e
    case Account(tsc, _) => b.wakeup == 0 && b.lastTsc <= tsc && tsc > 0
    case ChildUnblocked(_) => true
    case Wake => b.wakeup > 0
  }

  function Step(b: Bucket, e: Event): Bucket
    requires Possible(b, e)
  {
    match e
    case Account(tsc, consumed) => Charge(b, tsc, consumed)
    case ChildUnblocked(tsc) => Unblocked(b, tsc)
    case Wake => Woken(b)
  }

  /** Totals over a run: work charged, throttle events, and cycles by which unblocking set the clock back. */
  datatype Tally = Tally(end: Bucket, work: nat, throttles: nat, rewound: nat)

  /** The time up to which tokens are accounted for: a throttled class has spent its wait in advance. */
  function Horizon(b: Bucket): nat {
    if b.wakeup > 0 then b.wakeup else b.lastTsc
  }

  function StepTally(b: Bucket, e: Event): Tally
    requires Possible(b, e)
  {
    match e
    case Account(tsc, consumed) => Tally(Step(b, e), consumed, if Exceeds(b, tsc, consumed) then 1 else 0, 0)
    case ChildUnblocked(tsc) =>
      Tally(Step(b, e), 0, 0, if b.wakeup == 0 && tsc < b.lastTsc then b.lastTsc - tsc else 0)
    case Wake => Tally(Step(b, e), 0, 0, 0)
  }

  predicate AllPossible(b: Bucket, events: seq<Event>)
    decreases |events|
  {
    events == [] || (Possible(b, events[0]) && AllPossible(Step(b, events[0]), events[1..]))
  }

  function Run(b: Bucket, events: seq<Event>): Tally
    requires AllPossible(b, events)
    decreases |events|
  {
    if events == [] then Tally(b, 0, 0, 0)
    else
      var t := StepTally(b, events[0]);
      var rest := Run(t.end, events[1..]);
      Tally(rest.end, t.work + rest.work, t.throttles + rest.throttles, t.rewound + rest.rewound)
  }

  /** What `t` did is paid for: by tokens, by elapsed time, and by less than one limit per throttling. */
  ghost predicate Paid(b: Bucket, t: Tally) {
    && t.end.limit == b.limit && t.end.maxBurst == b.maxBurst
    && Horizon(b) <= Horizon(t.end) + t.rewound
    && t.work + t.end.tokens
         <= b.tokens + Credit(b.limit, Horizon(t.end) + t.rewound - Horizon(b)) + Credit(b.limit, t.throttles)
  }

  lemma StepPaid(b: Bucket, e: Event)
    requires b.limit > 0 && Possible(b, e)
    ensures Paid(b, StepTally(b, e))
  {
    if e.Account? && Exceeds(b, e.tsc, e.consumed) {
      var excess := e.consumed - Available(b, e.tsc);
      QuotTimes(excess, b.limit);
      var wait := Quot(excess, b.limit);
      TimesSum(e.tsc - b.lastTsc, wait, b.limit);
      assert Credit(b.limit, 1) == Times(0, b.limit) + b.limit;
    }
  }

  lemma PaidChains(b: Bucket, t: Tally, rest: Tally)
    requires Paid(b, t) && Paid(t.end, rest)
    ensures Paid(b, Tally(rest.end, t.work + rest.work, t.throttles + rest.throttles, t.rewound + rest.rewound))
  {
    var limit := b.limit;
    TimesSum(Horizon(t.end) + t.rewound - Horizon(b), Horizon(rest.end) + rest.rewound - Horizon(t.end), limit);
    TimesSum(t.throttles, rest.throttles, limit);
  }

  /**
   Over any run of a limiter with a positive limit, the work charged is at most the initial tokens, the
   limit times the cycles passed (plus those by which unblocking set the clock back), and one limit
   per throttling.
   */
  lemma {:induction false} RunPaid(b: Bucket, events: seq<Event>)
    requires b.limit > 0 && AllPossible(b, events)
    ensures Paid(b, Run(b, events))
    decreases |events|
  {
    if events != [] {
      var t := StepTally(b, events[0]);
      StepPaid(b, events[0]);
      RunPaid(t.end, events[1..]);
      PaidChains(b, t, Run(t.end, events[1..]));
    }
  }

  // ----- and what is not lost -----

  /** Cycles passed over without credit: unblocking starts the count anew. */
  function Skipped(b: Bucket, e: Event): nat {
    if e.ChildUnblocked? && b.wakeup == 0 && b.lastTsc < e.tsc then e.tsc - b.lastTsc else 0
  }

  /** Tokens above the burst, which are cut off. */
  function CutOff(b: Bucket, e: Event): nat
    requires Possible(b, e)
  {
    if e.Account? && e.consumed + b.maxBurst < Available(b, e.tsc) then Available(b, e.tsc) - e.consumed - b.maxBurst else 0
  }

  function RunSkipped(b: Bucket, events: seq<Event>): nat
    requires AllPossible(b, events)
    decreases |events|
  {
    if events == [] then 0 else Skipped(b, events[0]) + RunSkipped(Step(b, events[0]), events[1..])
  }

  function RunCutOff(b: Bucket, events: seq<Event>): nat
    requires AllPossible(b, events)
    decreases |events|
  {
    if events == [] then 0 else CutOff(b, events[0]) + RunCutOff(Step(b, events[0]), events[1..])
  }

  /** Every cycle that was not skipped is credited: as work, as tokens left, or as tokens cut off. */
  ghost predicate Earned(b: Bucket, t: Tally, skipped: nat, cut: nat) {
    && t.end.limit == b.limit
    && Horizon(t.end) + t.rewound >= Horizon(b) + skipped
    && t.work + t.end.tokens + cut >= b.tokens + Credit(b.limit, Horizon(t.end) + t.rewound - Horizon(b) - skipped)
  }

  lemma StepEarned(b: Bucket, e: Event)
    requires b.limit > 0 && Possible(b, e)
    ensures Earned(b, StepTally(b, e), Skipped(b, e), CutOff(b, e))
  {
    if e.Account? && Exceeds(b, e.tsc, e.consumed) {
      TimesSum(e.tsc - b.lastTsc, Step(b, e).wakeup - e.tsc, b.limit);
    }
  }

  lemma EarnedChains(b: Bucket, t: Tally, skipped: nat, cut: nat, rest: Tally, skipped': nat, cut': nat)
    requires Earned(b, t, skipped, cut) && Earned(t.end, rest, skipped', cut')
    ensures Earned(b, Tally(rest.end, t.work + rest.work, t.throttles + rest.throttles, t.rewound + rest.rewound),
                   skipped + skipped', cut + cut')
  {
    TimesSum(Horizon(t.end) + t.rewound - Horizon(b) - skipped,
             Horizon(rest.end) + rest.rewound - Horizon(t.end) - skipped', b.limit);
  }

  /**
   Over any run, work and tokens left are at least the initial tokens and the limit times the cycles up to the end,
   but for the cycles that unblocking skipped and the tokens above the burst.
   */
  lemma {:induction false} RunEarned(b: Bucket, events: seq<Event>)
    requires b.limit > 0 && AllPossible(b, events)
    ensures Earned(b, Run(b, events), RunSkipped(b, events), RunCutOff(b, events))
    decreases |events|
  {
    if events != [] {
      var e, b1 := events[0], Step(b, events[0]);
      StepEarned(b, e);
      RunEarned(b1, events[1..]);
      EarnedChains(b, StepTally(b, e), Skipped(b, e), CutOff(b, e),
                   Run(b1, events[1..]), RunSkipped(b1, events[1..]), RunCutOff(b1, events[1..]));
    }
  }

  /** The event does not set the clock back: the limiter is throttled, or was not accounted after `tsc`. */
  predicate Forward(b: Bucket, e: Event) {
    e.ChildUnblocked? ==> b.wakeup > 0 || b.lastTsc <= e.tsc
  }

  /** Tokens, elapsed time and throttlings alone pay for an event exactly when it does not set the clock back. */
  lemma StepPaidByTimeIff(b: Bucket, e: Event)
    requires b.limit > 0 && Possible(b, e)
    ensures Paid(b, StepTally(b, e).(rewound := 0)) <==> Forward(b, e)
  {
    StepPaid(b, e);
  }

  /** Each event of the run is paid for by tokens, elapsed time and throttlings alone. */
  ghost predicate PaidByTime(b: Bucket, events: seq<Event>)
    requires AllPossible(b, events)
    decreases |events|
  {
    events == [] ||
    (Paid(b, StepTally(b, events[0]).(rewound := 0)) && PaidByTime(Step(b, events[0]), events[1..]))
  }

  /** No unblock time precedes the last accounting. */
  predicate NoRewind(b: Bucket, events: seq<Event>)
    requires AllPossible(b, events)
    decreases |events|
  {
    events == [] || (Forward(b, events[0]) && NoRewind(Step(b, events[0]), events[1..]))
  }

  lemma RunIsPaid(b: Bucket, events: seq<Event>)
    requires AllPossible(b, events) && events != [] && Paid(b, StepTally(b, events[0]).(rewound := 0))
    requires var b1 := Step(b, events[0]); Paid(b1, Run(b1, events[1..]).(rewound := 0))
    ensures Paid(b, Run(b, events).(rewound := 0))
  {
    var t, rest := StepTally(b, events[0]).(rewound := 0), Run(Step(b, events[0]), events[1..]).(rewound := 0);
    PaidChains(b, t, rest);
    assert Run(b, events).(rewound := 0) == Tally(rest.end, t.work + rest.work, t.throttles + rest.throttles, 0);
  }

  /**
   Over a run, elapsed time pays for every event exactly when no unblock time precedes the last accounting;
   then it also bounds the work of the whole run.
   */
  lemma {:induction false} RunPaidByTimeIff(b: Bucket, events: seq<Event>)
    requires b.limit > 0 && AllPossible(b, events)
    ensures PaidByTime(b, events) <==> NoRewind(b, events)
    ensures NoRewind(b, events) <==> Run(b, events).rewound == 0
    ensures NoRewind(b, events) ==> Paid(b, Run(b, events).(rewound := 0))
    decreases |events|
  {
    if events != [] {
      var b1 := Step(b, events[0]);
      StepPaidByTimeIff(b, events[0]);
      RunPaidByTimeIff(b1, events[1..]);
      if NoRewind(b, events) {
        RunIsPaid(b, events);
      }
    }
  }

  /**
   Without that hypothesis the elapsed time does not bound the work of a run: a nested limiter's earlier wake
   time counts cycles twice. The limiter allows one resource unit per cycle and no burst is cut off.
   */
  lemma RewindCountsTwice(b: Bucket)
    requires b == Bucket(ToWorkUnits(1), ToWorkUnits(1000), 0, 100, 0)
    ensures var events := [Account(200, ToWorkUnits(100)), ChildUnblocked(150), Account(250, ToWorkUnits(100))];
      && AllPossible(b, events)
      && var t := Run(b, events);
         && t.throttles == 0 && t.work == ToWorkUnits(200) && t.rewound == 50
         && t.work + t.end.tokens > b.tokens + Credit(b.limit, Horizon(t.end) - Horizon(b))
  {
    var e0, e1, e2 := Account(200, ToWorkUnits(100)), ChildUnblocked(150), Account(250, ToWorkUnits(100));
    TimesIsProduct(100, ToWorkUnits(1));
    TimesIsProduct(150, ToWorkUnits(1));
    var b1 := Step(b, e0);
    assert b1 == b.(lastTsc := 200);
    var b2 := Step(b1, e1);
    assert b2 == b.(lastTsc := 150);
    var b3 := Step(b2, e2);
    assert b3 == b.(lastTsc := 250);
    assert [e0, e1, e2][1..] == [e1, e2] && [e1, e2][1..] == [e2] && [e2][1..] == [];
    assert AllPossible(b3, []) && Run(b3, []) == Tally(b3, 0, 0, 0);
    assert AllPossible(b2, [e2]) && Run(b2, [e2]) == Tally(b3, ToWorkUnits(100), 0, 0);
    assert AllPossible(b1, [e1, e2]) && Run(b1, [e1, e2]) == Tally(b3, ToWorkUnits(100), 0, 50);
  }
}
