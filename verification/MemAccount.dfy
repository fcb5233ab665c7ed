/**
 Allocation accounting. Every thread keeps its own counters and folds its net
 change into one process-wide total when it has drifted far enough, and when it
 exits. First the counters as one thread runs them, with the per-request meter;
 then all threads interleaved, one shared or thread-local access per step.
 */
module MemAccount {
  const FLUSH_BYTES: int := 65536

  datatype Event = Alloc(size: nat) | Free(size: nat)

  function Delta(e: Event): int {
    match e case Alloc(n) => n case Free(n) => 0 - n
  }

  function Net(es: seq<Event>): int {
    if es == [] then 0 else Net(es[..|es| - 1]) + Delta(es[|es| - 1])
  }

  predicate Due(v: int) { v >= FLUSH_BYTES || v <= -FLUSH_BYTES }

  // ---- One thread ----

  /** The thread-local cells. */
  datatype Cells = Cells(allocatedBytes: nat, freedBytes: nat, peak: int, pending: int, direct: bool)

  function InUse(c: Cells): int { c.allocatedBytes - c.freedBytes }

  function Counted(c: Cells, e: Event): Cells {
    match e
    case Alloc(n) =>
      var c' := c.(allocatedBytes := c.allocatedBytes + n);
      c'.(peak := if InUse(c') > c.peak then InUse(c') else c.peak)
    case Free(n) => c.(freedBytes := c.freedBytes + n)
  }

  /** The unflushed change after one more: kept, or flushed and cleared. */
  function KeptAfter(c: Cells, delta: int): int {
    if c.direct then c.pending else if Due(c.pending + delta) then 0 else c.pending + delta
  }

  function FlushedBy(c: Cells, delta: int): int {
    if c.direct then delta else if Due(c.pending + delta) then c.pending + delta else 0
  }

  function Step(c: Cells, e: Event): Cells {
    Counted(c, e).(pending := KeptAfter(c, Delta(e)))
  }

  function Steps(c: Cells, es: seq<Event>): Cells {
    if es == [] then c else Step(Steps(c, es[..|es| - 1]), es[|es| - 1])
  }

  class Process {
    var live: int

    constructor ()
      ensures live == 0
    {
      live := 0;
    }
  }

  datatype RequestMemory = RequestMemory(allocatedBytes: nat, freedBytes: nat, peak: nat, retained: nat)
  datatype ThreadTotals = ThreadTotals(allocatedBytes: nat, freedBytes: nat)

  function ClampedSub(a: int, b: int): nat { if a > b then a - b else 0 }

  class ThreadCounters {
    var allocatedBytes: nat
    var freedBytes: nat
    var peak: int
    var pending: int
    var direct: bool

    ghost function State(): Cells
      reads this
    {
      Cells(allocatedBytes, freedBytes, peak, pending, direct)
    }

    constructor (lowest: int)
      ensures State() == Cells(0, 0, lowest, 0, false)
    {
      allocatedBytes, freedBytes, peak, pending, direct := 0, 0, lowest, 0, false;
    }

    method FlushIfDue(process: Process, delta: int)
      modifies this, process
      ensures State() == old(State()).(pending := KeptAfter(old(State()), delta))
      ensures process.live == old(process.live) + FlushedBy(old(State()), delta)
      ensures process.live + pending == old(process.live + pending) + delta
      ensures old(!direct && -65536 < pending + delta < 65536) ==> process.live == old(process.live)
      ensures old(!direct && !(-65536 < pending + delta < 65536)) ==> pending == 0
      ensures old(-FLUSH_BYTES < pending < FLUSH_BYTES) ==> -FLUSH_BYTES < pending < FLUSH_BYTES
    {
      if direct {
        process.live := process.live + delta;
        return;
      }
      var v := pending + delta;
      if v >= FLUSH_BYTES || v <= -FLUSH_BYTES {
        process.live := process.live + v;
        pending := 0;
      } else {
        pending := v;
      }
    }

    method CountAlloc(process: Process, size: nat)
      modifies this, process
      ensures State() == Step(old(State()), Alloc(size))
      ensures process.live + pending == old(process.live + pending) + size
    {
      allocatedBytes := allocatedBytes + size;
      var n := allocatedBytes - freedBytes;
      if n > peak {
        peak := n;
      }
      FlushIfDue(process, size);
    }

    method CountFree(process: Process, size: nat)
      modifies this, process
      ensures State() == Step(old(State()), Free(size))
      ensures process.live + pending == old(process.live + pending) - size
    {
      freedBytes := freedBytes + size;
      FlushIfDue(process, 0 - size);
    }

    /** `ExitFlush::drop`. */
    method ExitFlush(process: Process)
      modifies this, process
      ensures State() == old(State()).(direct := true, pending := 0)
      ensures process.live == old(process.live + pending)
    {
      direct := true;
      process.live := process.live + pending;
      pending := 0;
    }

    /** `RequestMeter::start`. */
    method StartMeter() returns (start: ThreadTotals)
      modifies this
      ensures start == ThreadTotals(allocatedBytes, freedBytes)
      ensures State() == Started(old(State()))
    {
      start := ThreadTotals(allocatedBytes, freedBytes);
      peak := allocatedBytes - freedBytes;
    }

    /** `RequestMeter::read`. */
    method ReadMeter(start: ThreadTotals) returns (m: RequestMemory)
      ensures m == Reading(State(), start)
    {
      var a := ClampedSub(allocatedBytes, start.allocatedBytes);
      var f := ClampedSub(freedBytes, start.freedBytes);
      var base := start.allocatedBytes - start.freedBytes;
      m := RequestMemory(a, f, ClampedSub(peak, base), ClampedSub(a, f));
    }
  }

  function Started(c: Cells): Cells { c.(peak := InUse(c)) }

  function Reading(c: Cells, start: ThreadTotals): RequestMemory {
    var a := ClampedSub(c.allocatedBytes, start.allocatedBytes);
    var f := ClampedSub(c.freedBytes, start.freedBytes);
    RequestMemory(a, f, ClampedSub(c.peak, start.allocatedBytes - start.freedBytes), ClampedSub(a, f))
  }

  // ---- The per-request meter ----

  /** The largest net change over all prefixes, the empty one included. */
  function Highest(es: seq<Event>): int {
    if es == [] then 0
    else if Net(es) > Highest(es[..|es| - 1]) then Net(es)
    else Highest(es[..|es| - 1])
  }

  lemma {:induction false} HighestIsMaximum(es: seq<Event>)
    ensures forall k :: 0 <= k <= |es| ==> Net(es[..k]) <= Highest(es)
    ensures exists k :: 0 <= k <= |es| && Net(es[..k]) == Highest(es)
    decreases |es|
  {
    assert es[..|es|] == es;
    if es == [] {
      assert Net(es[..0]) == 0;
    } else {
      var front := es[..|es| - 1];
      HighestIsMaximum(front);
      forall k | 0 <= k <= |es|
        ensures Net(es[..k]) <= Highest(es)
      {
        if k < |es| {
          assert es[..k] == front[..k];
        }
      }
      if Net(es) > Highest(front) {
        assert Net(es[..|es|]) == Highest(es);
      } else {
        var k :| 0 <= k <= |front| && Net(front[..k]) == Highest(front);
        assert es[..k] == front[..k];
      }
    }
  }

  function Allocated(es: seq<Event>): nat {
    if es == [] then 0
    else Allocated(es[..|es| - 1]) + match es[|es| - 1] case Alloc(n) => n case Free(_) => 0
  }

  function Freed(es: seq<Event>): nat {
    if es == [] then 0
    else Freed(es[..|es| - 1]) + match es[|es| - 1] case Alloc(_) => 0 case Free(n) => n
  }

  lemma {:induction false} Totals(c: Cells, es: seq<Event>)
    ensures Steps(c, es).allocatedBytes == c.allocatedBytes + Allocated(es) && Steps(c, es).freedBytes == c.freedBytes + Freed(es)
    ensures Net(es) == Allocated(es) - Freed(es)
    ensures InUse(Steps(c, es)) == InUse(c) + Net(es)
    decreases |es|
  {
    if es != [] {
      Totals(c, es[..|es| - 1]);
    }
  }

  /** The stored peak, updated on allocation only, is the maximum over all prefixes. */
  lemma {:induction false} PeakIsHighest(c: Cells, es: seq<Event>)
    requires c.peak == InUse(c)
    ensures Steps(c, es).peak == InUse(c) + Highest(es)
    decreases |es|
  {
    if es != [] {
      var front := es[..|es| - 1];
      PeakIsHighest(c, front);
      Totals(c, front);
      Totals(c, es);
      HighestIsMaximum(front);
      assert front[..|front|] == front;
    }
  }

  /** Every run of a meter: what it reads, in terms of what happened since it started. */
  lemma {:induction false} MeterReads(c: Cells, es: seq<Event>)
    ensures var m := Reading(Steps(Started(c), es), ThreadTotals(c.allocatedBytes, c.freedBytes));
            && m.allocatedBytes == Allocated(es) && m.freedBytes == Freed(es)
            && m.peak == Highest(es)
            && m.retained == ClampedSub(Net(es), 0)
            && m.retained <= m.peak
  {
    var c0 := Started(c);
    Totals(c0, es);
    PeakIsHighest(c0, es);
    HighestIsMaximum(es);
    assert es[..|es|] == es && es[..0] == [];
    assert Net(es[..0]) == 0;
  }

  // ---- All threads, interleaved ----

  /** Where a thread is inside a counting call or its exit flush. */
  datatype Phase =
    | Idle
    | Adding(v: int)        // decided to flush `v`; the atomic add comes next
    | Clearing              // added; the cell still holds its old value
    | Storing(v: int)       // not due: the cell is about to become `v`
    | AddingNow(v: int)     // exit flush already ran: straight to the total
    | ExitAdding            // the exit flush has set the flag
    | ExitClearing

  datatype Thread = Thread(pending: int, direct: bool, armed: bool, running: bool, phase: Phase)

  /** `net` is what was really allocated minus freed; `lost` went with threads that exited unarmed. */
  datatype Sys = Sys(live: int, net: int, lost: int, threads: seq<Thread>)

  datatype Action =
    | Spawn
    | Arm(t: nat)
    | Count(t: nat, e: Event)
    | Continue(t: nat)
    | Exit(t: nat)
    | Leave(t: nat)

  predicate Enabled(s: Sys, a: Action) {
    match a
    case Spawn => true
    case Arm(t) => t < |s.threads| && s.threads[t].running && s.threads[t].phase.Idle?
    case Count(t, _) => t < |s.threads| && s.threads[t].running && s.threads[t].phase.Idle?
    case Continue(t) => t < |s.threads| && s.threads[t].running && !s.threads[t].phase.Idle?
    case Exit(t) =>
      t < |s.threads| && s.threads[t].running && s.threads[t].phase.Idle? && s.threads[t].armed && !s.threads[t].direct
    case Leave(t) =>
      && t < |s.threads| && s.threads[t].running && s.threads[t].phase.Idle?
      && (s.threads[t].armed ==> s.threads[t].direct)
  }

  /** `flush_if_due` up to its first effect. */
  function Begun(th: Thread, delta: int): Phase {
    if th.direct then AddingNow(delta)
    else if Due(th.pending + delta) then Adding(th.pending + delta)
    else Storing(th.pending + delta)
  }

  function Continued(s: Sys, t: nat): Sys
    requires Enabled(s, Continue(t))
  {
    var th := s.threads[t];
    match th.phase
    case Adding(v) => s.(live := s.live + v, threads := s.threads[t := th.(phase := Clearing)])
    case Clearing => s.(threads := s.threads[t := th.(pending := 0, phase := Idle)])
    case Storing(v) => s.(threads := s.threads[t := th.(pending := v, phase := Idle)])
    case AddingNow(v) => s.(live := s.live + v, threads := s.threads[t := th.(phase := Idle)])
    case ExitAdding => s.(live := s.live + th.pending, threads := s.threads[t := th.(phase := ExitClearing)])
    case ExitClearing => s.(threads := s.threads[t := th.(pending := 0, phase := Idle)])
  }

  function Do(s: Sys, a: Action): Sys
    requires Enabled(s, a)
  {
    match a
    case Spawn => s.(threads := s.threads + [Thread(0, false, false, true, Idle)])
    case Arm(t) => s.(threads := s.threads[t := s.threads[t].(armed := true)])
    case Count(t, e) =>
      s.(net := s.net + Delta(e), threads := s.threads[t := s.threads[t].(phase := Begun(s.threads[t], Delta(e)))])
    case Continue(t) => Continued(s, t)
    case Exit(t) => s.(threads := s.threads[t := s.threads[t].(direct := true, phase := ExitAdding)])
    case Leave(t) =>
      s.(lost := s.lost + s.threads[t].pending,
         threads := s.threads[t := s.threads[t].(pending := 0, running := false)])
  }

  const START := Sys(0, 0, 0, [])

  /** The states of a run, one more than its actions. */
  predicate Run(ss: seq<Sys>, acts: seq<Action>) {
    && |ss| == |acts| + 1 && ss[0] == START
    && forall i :: 0 <= i < |acts| ==> Enabled(ss[i], acts[i]) && ss[i + 1] == Do(ss[i], acts[i])
  }

  /** The part of a thread's change that has not reached the total. */
  function Unflushed(th: Thread): int {
    match th.phase
    case Adding(v) => v
    case Clearing => 0
    case Storing(v) => v
    case AddingNow(v) => th.pending + v
    case ExitClearing => 0
    case _ => th.pending
  }

  function TotalUnflushed(ts: seq<Thread>): int {
    if ts == [] then 0 else TotalUnflushed(ts[..|ts| - 1]) + Unflushed(ts[|ts| - 1])
  }

  predicate ThreadOk(th: Thread) {
    && -FLUSH_BYTES < th.pending < FLUSH_BYTES
    && (th.phase.Storing? ==> -FLUSH_BYTES < th.phase.v < FLUSH_BYTES)
    && (th.phase.Adding? || th.phase.Storing? || th.phase.Clearing? ==> !th.direct)
    && (th.phase.ExitAdding? || th.phase.ExitClearing? ==> th.direct && th.armed)
    && (th.direct ==> th.armed)
    && (th.direct && !th.phase.ExitAdding? && !th.phase.ExitClearing? ==> th.pending == 0)
    && (!th.running ==> th.pending == 0 && th.phase.Idle?)
  }

  /** Every thread that has exited had been armed. */
  predicate ExitsArmed(s: Sys) {
    forall t :: 0 <= t < |s.threads| ==> s.threads[t].running || s.threads[t].armed
  }

  predicate Consistent(s: Sys) {
    && (forall t :: 0 <= t < |s.threads| ==> ThreadOk(s.threads[t]))
    && s.live + TotalUnflushed(s.threads) + s.lost == s.net
    && (ExitsArmed(s) ==> s.lost == 0)
  }

  lemma {:induction false} TotalSet(ts: seq<Thread>, t: nat, th: Thread)
    requires t < |ts|
    ensures TotalUnflushed(ts[t := th]) == TotalUnflushed(ts) - Unflushed(ts[t]) + Unflushed(th)
    decreases |ts|
  {
    var n := |ts| - 1;
    if t == n {
      assert ts[t := th][..n] == ts[..n];
    } else {
      assert ts[t := th][..n] == ts[..n][t := th];
      TotalSet(ts[..n], t, th);
    }
  }

  /** One step of one thread: what it adds to the total, to the net and to the losses balances. */
  lemma {:induction false} ThreadStepKeeps(s: Sys, a: Action)
    requires !a.Spawn? && Enabled(s, a) && ThreadOk(s.threads[a.t])
    ensures var s' := Do(s, a);
            && |s'.threads| == |s.threads|
            && var th, th' := s.threads[a.t], s'.threads[a.t];
            && s'.threads == s.threads[a.t := th']
            && ThreadOk(th') && th.running
            && (s'.live - s.live) + (Unflushed(th') - Unflushed(th)) + (s'.lost - s.lost) == s'.net - s.net
            && (th'.running || th'.armed ==> s'.lost == s.lost)
  {
  }

  lemma {:induction false} SpawnKeeps(s: Sys)
    requires Consistent(s)
    ensures Consistent(Do(s, Spawn))
  {
    hide ThreadOk, Unflushed;
    var s' := Do(s, Spawn);
    NewThreadOk();
    assert s'.threads[..|s.threads|] == s.threads;
    if ExitsArmed(s') {
      assert forall u :: 0 <= u < |s.threads| ==> s'.threads[u] == s.threads[u];
    }
  }

  lemma {:induction false} ThreadKeeps(s: Sys, s': Sys, t: nat, th: Thread)
    requires Consistent(s) && t < |s.threads| && s'.threads == s.threads[t := th]
    requires ThreadOk(th) && s.threads[t].running && (th.running || th.armed ==> s'.lost == s.lost)
    requires (s'.live - s.live) + (Unflushed(th) - Unflushed(s.threads[t])) + (s'.lost - s.lost) == s'.net - s.net
    ensures Consistent(s')
  {
    hide ThreadOk, Unflushed;
    TotalSet(s.threads, t, th);
    if ExitsArmed(s') {
      assert s'.threads[t].running || s'.threads[t].armed;
      forall u | 0 <= u < |s.threads|
        ensures s.threads[u].running || s.threads[u].armed
      {
        assert u != t ==> s'.threads[u] == s.threads[u];
      }
    }
  }

  lemma {:induction false} StepKeeps(s: Sys, a: Action)
    requires Consistent(s) && Enabled(s, a)
    ensures Consistent(Do(s, a))
  {
    if a.Spawn? {
      SpawnKeeps(s);
    } else {
      assert ThreadOk(s.threads[a.t]);
      ThreadStepKeeps(s, a);
      ThreadKeeps(s, Do(s, a), a.t, Do(s, a).threads[a.t]);
    }
  }

  lemma {:induction false} NewThreadOk()
    ensures var th := Thread(0, false, false, true, Idle); ThreadOk(th) && Unflushed(th) == 0
  {
  }

  /** Every interleaving keeps the accounts: nothing counted twice, nothing forgotten. */
  lemma {:induction false} RunKeeps(ss: seq<Sys>, acts: seq<Action>, i: nat)
    requires Run(ss, acts) && i < |ss|
    ensures Consistent(ss[i])
    decreases i
  {
    hide Consistent, Enabled, Do;
    if i == 0 {
      StartConsistent();
    } else {
      RunKeeps(ss, acts, i - 1);
      StepKeeps(ss[i - 1], acts[i - 1]);
    }
  }

  lemma {:induction false} StartConsistent()
    ensures Consistent(START)
  {
  }

  predicate Quiet(s: Sys) {
    forall t :: 0 <= t < |s.threads| ==> s.threads[t].phase.Idle?
  }

  function TotalPending(ts: seq<Thread>): int {
    if ts == [] then 0 else TotalPending(ts[..|ts| - 1]) + ts[|ts| - 1].pending
  }

  function Running(ts: seq<Thread>): nat {
    if ts == [] then 0 else Running(ts[..|ts| - 1]) + if ts[|ts| - 1].running then 1 else 0
  }

  lemma {:induction false} QuietTotals(ts: seq<Thread>)
    requires forall t :: 0 <= t < |ts| ==> ts[t].phase.Idle? && ThreadOk(ts[t])
    ensures TotalUnflushed(ts) == TotalPending(ts)
    ensures 0 - Running(ts) * (FLUSH_BYTES - 1) <= TotalPending(ts) <= Running(ts) * (FLUSH_BYTES - 1)
    decreases |ts|
  {
    if ts != [] {
      var n := |ts| - 1;
      QuietTotals(ts[..n]);
      assert ThreadOk(ts[n]) && ts[n].phase.Idle?;
    }
  }

  /**
   Whenever no thread is inside a call: the total plus every unflushed change is the true net
   exactly when nothing was lost, and apart from losses the total is off by less than
   `FLUSH_BYTES` per running thread.
   */
  lemma {:induction false} LiveIsNearlyExact(ss: seq<Sys>, acts: seq<Action>, s: Sys)
    requires Run(ss, acts) && s in ss && Quiet(s)
    ensures s.live + TotalPending(s.threads) == s.net <==> s.lost == 0
    ensures ExitsArmed(s) ==> s.lost == 0
    ensures forall t :: 0 <= t < |s.threads| ==> -FLUSH_BYTES < s.threads[t].pending < FLUSH_BYTES
    ensures 0 - Running(s.threads) * (FLUSH_BYTES - 1) <= s.live + s.lost - s.net <= Running(s.threads) * (FLUSH_BYTES - 1)
  {
    hide Run;
    var i :| 0 <= i < |ss| && ss[i] == s;
    RunKeeps(ss, acts, i);
    QuietTotals(s.threads);
  }

  /** What the threads that exited unarmed had not flushed. */
  function LostBy(ss: seq<Sys>, acts: seq<Action>, i: nat): int
    requires Run(ss, acts) && i < |ss|
  {
    if i == 0 then 0
    else LostBy(ss, acts, i - 1) + match acts[i - 1] case Leave(t) => Forgotten(ss[i - 1].threads[t]) case _ => 0
  }

  function Forgotten(th: Thread): int { if th.armed then 0 else th.pending }

  /** The losses of a run are exactly those. */
  lemma {:induction false} LostIsUnarmed(ss: seq<Sys>, acts: seq<Action>, i: nat)
    requires Run(ss, acts) && i < |ss|
    ensures ss[i].lost == LostBy(ss, acts, i)
    decreases i
  {
    if i > 0 {
      LostIsUnarmed(ss, acts, i - 1);
      RunKeeps(ss, acts, i - 1);
      assert Enabled(ss[i - 1], acts[i - 1]) && ss[i] == Do(ss[i - 1], acts[i - 1]);
      if acts[i - 1].Leave? {
        assert ThreadOk(ss[i - 1].threads[acts[i - 1].t]);
      }
    }
  }

  /** At any moment, mid-call or not, every cell is within bounds and only what is still in flight is missing. */
  lemma {:induction false} AlwaysAccounted(ss: seq<Sys>, acts: seq<Action>, s: Sys)
    requires Run(ss, acts) && s in ss
    ensures s.live + TotalUnflushed(s.threads) + s.lost == s.net
    ensures forall t :: 0 <= t < |s.threads| ==> -FLUSH_BYTES < s.threads[t].pending < FLUSH_BYTES
  {
    hide Run;
    var i :| 0 <= i < |ss| && ss[i] == s;
    RunKeeps(ss, acts, i);
    forall t | 0 <= t < |s.threads|
      ensures -FLUSH_BYTES < s.threads[t].pending < FLUSH_BYTES
    {
      assert ThreadOk(s.threads[t]);
    }
  }

  /**
   One counting call with nothing in between: the total stands still until the change reaches 65536
   bytes either way, and then takes all of it; after the exit flush it takes every change at once.
   */
  lemma {:induction false} CountAlone(s: Sys, t: nat, e: Event)
    requires Enabled(s, Count(t, e))
    ensures var th := s.threads[t];
            var p := th.pending + Delta(e);
            var s1 := Do(s, Count(t, e));
            && Enabled(s1, Continue(t))
            && var s2 := Do(s1, Continue(t));
            && s1.live == s.live && s2.net == s.net + Delta(e)
            && (th.direct ==> s2.live == s.live + Delta(e) && s2.threads == s.threads)
            && (!th.direct && -65536 < p < 65536 ==> s2.live == s.live && s2.threads == s.threads[t := th.(pending := p)])
            && (!th.direct && !(-65536 < p < 65536) ==>
                  && Enabled(s2, Continue(t)) && s2.live == s.live + p
                  && Do(s2, Continue(t)) == s2.(threads := s.threads[t := th.(pending := 0)]))
  {
    var th := s.threads[t];
    assert th.(phase := Idle) == th && s.threads[t := th] == s.threads;
  }

  /** A thread that exits unarmed takes its unflushed change with it. */
  lemma {:induction false} UnarmedExitLoses() returns (ss: seq<Sys>, acts: seq<Action>)
    ensures Run(ss, acts)
    ensures var s := ss[|ss| - 1]; Quiet(s) && s.live == 0 && s.net == -100 && |s.threads| == 1 && !s.threads[0].running
  {
    acts := [Spawn, Count(0, Free(100)), Continue(0), Leave(0)];
    var s1 := Do(START, acts[0]);
    var s2 := Do(s1, acts[1]);
    var s3 := Do(s2, acts[2]);
    var s4 := Do(s3, acts[3]);
    ss := [START, s1, s2, s3, s4];
  }
}
