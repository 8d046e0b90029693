/**
 * The slots of the local speech process (src/asr/local-process-asr.ts:73-93) and their release on
 * stop (src/asr/persistent-local-process-asr.ts:98-102, 294-310). A waiter that is woken counts
 * itself as active only when it runs again, so other steps can come in between.
 */
module AsrSlots {

  type Ticket = nat

  /** `queue` waits, `woken` was taken off the queue but has not run yet, `holders` have a slot. */
  datatype Slots = Slots(active: int, queue: seq<Ticket>, woken: seq<Ticket>, holders: set<Ticket>, next: Ticket)

  datatype Limits = Limits(maxConcurrent: nat, maxQueueSize: nat)

  const EMPTY := Slots(0, [], [], {}, 0)

  datatype Event =
    | Acquire
    | Release(ticket: Ticket)
    | Resume
    | Drain

  /** A slot is given back once by each holder; a resumption needs a woken waiter. */
  predicate Possible(s: Slots, e: Event) {
    match e
    case Release(ticket) => ticket in s.holders
    case Resume => s.woken != []
    case _ => true
  }

  function Clamped(n: int): int {
    if n < 0 then 0 else n
  }

  function Step(s: Slots, limits: Limits, e: Event): Slots
    requires Possible(s, e)
  {
    match e
    case Acquire =>
      if s.active < limits.maxConcurrent then s.(active := s.active + 1, holders := s.holders + {s.next}, next := s.next + 1)
      else if |s.queue| >= limits.maxQueueSize then s
      else s.(queue := s.queue + [s.next], next := s.next + 1)
    case Release(ticket) =>
      var released := s.(active := Clamped(s.active - 1), holders := s.holders - {ticket});
      if s.queue == [] then released else released.(queue := s.queue[1..], woken := s.woken + [s.queue[0]])
    case Resume => s.(active := s.active + 1, holders := s.holders + {s.woken[0]}, woken := s.woken[1..])
    case Drain => s.(queue := [], woken := s.woken + s.queue)
  }

  /** The waiters in the order in which they will run. */
  function Line(s: Slots): seq<Ticket> {
    s.woken + s.queue
  }

  /** What holds in every state that can be reached. */
  ghost predicate Invariant(s: Slots, limits: Limits) {
    && s.active == |s.holders|
    && |s.queue| <= limits.maxQueueSize
    && (s.queue != [] ==> s.active + |s.woken| >= limits.maxConcurrent)
    && Increasing(Line(s))
    && (forall t :: t in Line(s) ==> t < s.next && t !in s.holders)
    && (forall t :: t in s.holders ==> t < s.next)
  }

  /** Tickets in the order in which they were handed out, none twice. */
  ghost predicate Increasing(tickets: seq<Ticket>) {
    forall i, j :: 0 <= i < j < |tickets| ==> tickets[i] < tickets[j]
  }

  /** The waiter that runs in this step. */
  function ServedIn(s: Slots, e: Event): seq<Ticket>
    requires Possible(s, e)
  {
    if e.Resume? then [s.woken[0]] else []
  }

  /** The newcomer that has to queue in this step. */
  function QueuedIn(s: Slots, limits: Limits, e: Event): seq<Ticket> {
    if e.Acquire? && s.active >= limits.maxConcurrent && |s.queue| < limits.maxQueueSize then [s.next] else []
  }

  /** A step changes the line of waiters only at its front and at its end. */
  lemma LineAfter(s: Slots, limits: Limits, e: Event)
    requires Possible(s, e)
    ensures ServedIn(s, e) + Line(Step(s, limits, e)) == Line(s) + QueuedIn(s, limits, e)
  {
  }

  /**
   * Whatever the interleaving: the counter is the number of holders and the clamp never acts, the
   * queue keeps its limit, nobody waits while a slot is free and nobody was woken, and waiters run
   * in the order in which they came.
   */
  lemma InvariantKept(s: Slots, limits: Limits, e: Event)
    requires Invariant(s, limits) && Possible(s, e)
    ensures Invariant(Step(s, limits, e), limits)
    ensures e.Release? ==> s.active - 1 == Step(s, limits, e).active
  {
    LineKept(s, limits, e);
    CountsKept(s, limits, e);
    hide Step, Line, Increasing;
  }

  lemma CountsKept(s: Slots, limits: Limits, e: Event)
    requires Possible(s, e) && s.active == |s.holders| && |s.queue| <= limits.maxQueueSize
    requires s.queue != [] ==> s.active + |s.woken| >= limits.maxConcurrent
    requires s.next !in s.holders && (e.Resume? ==> s.woken[0] !in s.holders)
    ensures var s' := Step(s, limits, e);
            && s'.active == |s'.holders| && |s'.queue| <= limits.maxQueueSize
            && (s'.queue != [] ==> s'.active + |s'.woken| >= limits.maxConcurrent)
            && (e.Release? ==> s'.active == s.active - 1)
  {
    if e.Release? {
      var s' := Step(s, limits, e);
      assert s.holders == s'.holders + {e.ticket};
    }
  }

  lemma LineKept(s: Slots, limits: Limits, e: Event)
    requires Invariant(s, limits) && Possible(s, e)
    ensures var s' := Step(s, limits, e);
            && Increasing(Line(s'))
            && (forall t :: t in Line(s') ==> t < s'.next && t !in s'.holders)
            && (forall t :: t in s'.holders ==> t < s'.next)
            && (e.Resume? ==> s.woken[0] !in s.holders)
  {
    var s' := Step(s, limits, e);
    LineAfter(s, limits, e);
    var line, front, back := Line(s), ServedIn(s, e), QueuedIn(s, limits, e);
    hide Line, Increasing;
    if e.Resume? {
      FrontDropped(s.woken[0], Line(s'));
      assert line + [] == line;
    } else {
      assert [] + Line(s') == Line(s');
      if back == [] {
        assert line + [] == line;
      } else {
        BackAdded(line, s.next);
      }
    }
  }

  lemma FrontDropped(first: Ticket, rest: seq<Ticket>)
    requires Increasing([first] + rest)
    ensures Increasing(rest) && first !in rest && first in [first] + rest
    ensures forall t :: t in rest ==> t in [first] + rest
  {
    var line := [first] + rest;
    assert line[0] == first;
    forall i, j | 0 <= i < j < |rest| ensures rest[i] < rest[j] {
      assert line[i + 1] < line[j + 1];
    }
    forall i | 0 <= i < |rest| ensures first < rest[i] {
      assert line[0] < line[i + 1];
    }
  }

  lemma BackAdded(line: seq<Ticket>, last: Ticket)
    requires Increasing(line) && forall t :: t in line ==> t < last
    ensures Increasing(line + [last])
    ensures forall t :: t in line + [last] ==> t in line || t == last
  {
    forall i, j | 0 <= i < j < |line| + 1 ensures (line + [last])[i] < (line + [last])[j] {
      assert line[i] in line;
    }
  }

  // ----- whole runs -----

  predicate Feasible(s: Slots, limits: Limits, events: seq<Event>)
    decreases |events|
  {
    events == [] || (Possible(s, events[0]) && Feasible(Step(s, limits, events[0]), limits, events[1..]))
  }

  function Run(s: Slots, limits: Limits, events: seq<Event>): Slots
    requires Feasible(s, limits, events)
    decreases |events|
  {
    if events == [] then s else Run(Step(s, limits, events[0]), limits, events[1..])
  }

  lemma {:induction false} RunKeepsInvariant(s: Slots, limits: Limits, events: seq<Event>)
    requires Invariant(s, limits) && Feasible(s, limits, events)
    ensures Invariant(Run(s, limits, events), limits)
    decreases |events|
  {
    if events != [] {
      InvariantKept(s, limits, events[0]);
      RunKeepsInvariant(Step(s, limits, events[0]), limits, events[1..]);
    }
  }

  /** From the start no wake-up is lost: while somebody waits, a slot is held or a woken waiter is about to run. */
  lemma NoLostWakeUp(limits: Limits, events: seq<Event>)
    requires limits.maxConcurrent >= 1 && Feasible(EMPTY, limits, events)
    ensures var s := Run(EMPTY, limits, events);
            && s.active == |s.holders|
            && |s.queue| <= limits.maxQueueSize
            && (s.queue != [] ==> s.holders != {} || s.woken != [])
  {
    RunKeepsInvariant(EMPTY, limits, events);
  }

  /** The tickets that got a slot after waiting, in order. */
  function Served(s: Slots, limits: Limits, events: seq<Event>): seq<Ticket>
    requires Feasible(s, limits, events)
    decreases |events|
  {
    if events == [] then [] else ServedIn(s, events[0]) + Served(Step(s, limits, events[0]), limits, events[1..])
  }

  /** The tickets that had to queue, in order. */
  function Queued(s: Slots, limits: Limits, events: seq<Event>): seq<Ticket>
    requires Feasible(s, limits, events)
    decreases |events|
  {
    if events == [] then [] else QueuedIn(s, limits, events[0]) + Queued(Step(s, limits, events[0]), limits, events[1..])
  }

  lemma Regroup(front: seq<Ticket>, line: seq<Ticket>, before: seq<Ticket>, back: seq<Ticket>,
                served: seq<Ticket>, last: seq<Ticket>, queued: seq<Ticket>)
    requires front + line == before + back && served + last == line + queued
    ensures (front + served) + last == before + (back + queued)
  {
    calc {
      (front + served) + last;
      front + (served + last);
      front + (line + queued);
      (front + line) + queued;
      (before + back) + queued;
      before + (back + queued);
    }
  }

  /** First come, first served: those served and those still in line are those who came, in order. */
  lemma {:induction false} FirstComeFirstServed(s: Slots, limits: Limits, events: seq<Event>)
    requires Feasible(s, limits, events)
    ensures Served(s, limits, events) + Line(Run(s, limits, events)) == Line(s) + Queued(s, limits, events)
    decreases |events|
  {
    if events == [] {
      assert [] + Line(s) == Line(s) + [];
    } else {
      var s' := Step(s, limits, events[0]);
      FirstComeFirstServed(s', limits, events[1..]);
      LineAfter(s, limits, events[0]);
      hide Line, Step, ServedIn, QueuedIn;
      Regroup(ServedIn(s, events[0]), Line(s'), Line(s), QueuedIn(s, limits, events[0]),
              Served(s', limits, events[1..]), Line(Run(s', limits, events[1..])), Queued(s', limits, events[1..]));
    }
  }

  // ----- the bound on concurrency -----

  /** Holders and woken waiters together fit. */
  predicate Within(s: Slots, limits: Limits) {
    s.active + |s.woken| <= limits.maxConcurrent
  }

  /** A newcomer takes the slot meant for a woken waiter, or a stop wakes waiters without a slot. */
  predicate Overtakes(s: Slots, limits: Limits, e: Event) {
    || (e.Acquire? && s.active < limits.maxConcurrent <= s.active + |s.woken|)
    || (e.Drain? && s.queue != [])
  }

  /** A step breaks the bound exactly when it overtakes. */
  lemma BoundKeptIff(s: Slots, limits: Limits, e: Event)
    requires Invariant(s, limits) && Possible(s, e) && Within(s, limits)
    ensures Within(Step(s, limits, e), limits) <==> !Overtakes(s, limits, e)
  {
    InvariantKept(s, limits, e);
  }

  predicate NeverOvertakes(s: Slots, limits: Limits, events: seq<Event>)
    requires Feasible(s, limits, events)
    decreases |events|
  {
    events == [] || (!Overtakes(s, limits, events[0]) && NeverOvertakes(Step(s, limits, events[0]), limits, events[1..]))
  }

  /** Without overtaking no more than `maxConcurrent` hold a slot at any time. */
  lemma {:induction false} BoundHolds(s: Slots, limits: Limits, events: seq<Event>)
    requires Invariant(s, limits) && Within(s, limits) && Feasible(s, limits, events) && NeverOvertakes(s, limits, events)
    ensures |Run(s, limits, events).holders| <= limits.maxConcurrent
    decreases |events|
  {
    if events != [] {
      BoundKeptIff(s, limits, events[0]);
      InvariantKept(s, limits, events[0]);
      BoundHolds(Step(s, limits, events[0]), limits, events[1..]);
    }
  }

  /** Handing over at once: every woken waiter has run before the next one asks for a slot. */
  predicate HandsOverAtOnce(s: Slots, limits: Limits, events: seq<Event>)
    requires Feasible(s, limits, events)
    decreases |events|
  {
    events == [] || ((events[0].Acquire? ==> s.woken == []) && !events[0].Drain?
                     && HandsOverAtOnce(Step(s, limits, events[0]), limits, events[1..]))
  }

  lemma {:induction false} HandOverIsNoOvertaking(s: Slots, limits: Limits, events: seq<Event>)
    requires Feasible(s, limits, events) && HandsOverAtOnce(s, limits, events)
    ensures NeverOvertakes(s, limits, events)
    decreases |events|
  {
    if events != [] {
      HandOverIsNoOvertaking(Step(s, limits, events[0]), limits, events[1..]);
    }
  }

  /** One released, one new, one resumed: two hold the only slot. */
  lemma OvertakingExceedsTheBound()
    ensures var limits := Limits(1, 4);
            var events := [Acquire, Acquire, Release(0), Acquire, Resume];
            Feasible(EMPTY, limits, events) && Run(EMPTY, limits, events).holders == {1, 2}
  {
    var limits := Limits(1, 4);
    var s1 := Step(EMPTY, limits, Acquire);
    var s2 := Step(s1, limits, Acquire);
    var s3 := Step(s2, limits, Release(0));
    var s4 := Step(s3, limits, Acquire);
    var s5 := Step(s4, limits, Resume);
    assert s4 == Slots(1, [], [1], {2}, 3);
    var e5: seq<Event> := [Resume];
    var e4: seq<Event> := [Acquire, Resume];
    var e3: seq<Event> := [Release(0), Acquire, Resume];
    var e2: seq<Event> := [Acquire, Release(0), Acquire, Resume];
    var e1: seq<Event> := [Acquire, Acquire, Release(0), Acquire, Resume];
    assert e5[1..] == [] && e4[1..] == e5 && e3[1..] == e4 && e2[1..] == e3 && e1[1..] == e2;
    assert Feasible(s4, limits, e5) && Run(s4, limits, e5) == s5;
    assert Feasible(s3, limits, e4) && Run(s3, limits, e4) == s5;
    assert Feasible(s2, limits, e3) && Run(s2, limits, e3) == s5;
    assert Feasible(s1, limits, e2) && Run(s1, limits, e2) == s5;
  }

  /** How many places a run moves the queue forward. */
  function Releases(events: seq<Event>): nat {
    if events == [] then 0 else (if events[0].Release? then 1 else 0) + Releases(events[1..])
  }

  lemma RunUnfolds(s: Slots, limits: Limits, events: seq<Event>)
    requires Feasible(s, limits, events) && events != []
    ensures Possible(s, events[0])
    ensures var s' := Step(s, limits, events[0]);
            Feasible(s', limits, events[1..]) && Run(s, limits, events) == Run(s', limits, events[1..])
  {
  }

  /** A waiter at place k is woken by k + 1 releases at the latest, whoever else comes and goes. */
  lemma {:induction false} WokenAfterReleases(s: Slots, limits: Limits, events: seq<Event>, k: nat)
    requires Invariant(s, limits) && Feasible(s, limits, events) && k < |s.queue| && Releases(events) > k
    ensures s.queue[k] !in Run(s, limits, events).queue
    decreases |events|
  {
    hide Feasible, Run;
    RunUnfolds(s, limits, events);
    var s' := Step(s, limits, events[0]);
    InvariantKept(s, limits, events[0]);
    var t := s.queue[k];
    assert t == Line(s)[|s.woken| + k];
    assert t in Line(s);
    if events[0].Drain? {
      NeverQueuedAgain(s', limits, events[1..], t);
    } else if events[0].Release? {
      if k == 0 {
        assert forall i :: 0 <= i < |s'.queue| ==> s'.queue[i] == Line(s)[|s.woken| + i + 1];
        NeverQueuedAgain(s', limits, events[1..], t);
      } else {
        WokenAfterReleases(s', limits, events[1..], k - 1);
      }
    } else {
      WokenAfterReleases(s', limits, events[1..], k);
    }
  }

  lemma {:induction false} NeverQueuedAgain(s: Slots, limits: Limits, events: seq<Event>, t: Ticket)
    requires Feasible(s, limits, events) && t < s.next && t !in s.queue
    ensures t !in Run(s, limits, events).queue
    decreases |events|
  {
    if events != [] {
      NeverQueuedAgain(Step(s, limits, events[0]), limits, events[1..], t);
    }
  }

  // ----- the service -----

  datatype Answer = Granted(ticket: Ticket) | Waiting(ticket: Ticket) | Busy

  class SlotKeeper {
    const limits: Limits
    var active: int
    var queue: seq<Ticket>
    var woken: seq<Ticket>
    var holders: set<Ticket>
    var next: Ticket

    function State(): Slots
      reads this
    {
      Slots(active, queue, woken, holders, next)
    }

    constructor (limits: Limits)
      ensures this.limits == limits && State() == EMPTY
    {
      this.limits := limits;
      active, queue, woken, holders, next := 0, [], [], {}, 0;
    }

    method AcquireSlot() returns (answer: Answer)
      modifies this
      ensures State() == Step(old(State()), limits, Acquire)
      ensures answer.Granted? <==> old(active) < limits.maxConcurrent
      ensures answer == Busy <==> old(active) >= limits.maxConcurrent && |old(queue)| >= limits.maxQueueSize
      ensures answer != Busy ==> answer.ticket == old(next)
    {
      if active < limits.maxConcurrent {
        active := active + 1;
        holders := holders + {next};
        next := next + 1;
        return Granted(next - 1);
      }
      if |queue| >= limits.maxQueueSize {
        return Busy;
      }
      queue := queue + [next];
      next := next + 1;
      answer := Waiting(next - 1);
    }

    /** A woken waiter runs again. */
    method ResumeWaiter() returns (ticket: Ticket)
      requires woken != []
      modifies this
      ensures State() == Step(old(State()), limits, Resume)
      ensures ticket == old(woken)[0]
    {
      ticket := woken[0];
      woken := woken[1..];
      active := active + 1;
      holders := holders + {ticket};
    }

    method ReleaseSlot(ticket: Ticket)
      requires ticket in holders
      modifies this
      ensures State() == Step(old(State()), limits, Release(ticket))
      ensures active == if old(active) <= 0 then 0 else old(active) - 1
    {
      active := Clamped(active - 1);
      holders := holders - {ticket};
      if queue != [] {
        var first := queue[0];
        queue := queue[1..];
        woken := woken + [first];
      }
    }

    /** On stop every waiter is woken. */
    method StopWaiting()
      modifies this
      ensures State() == Step(old(State()), limits, Drain)
    {
      var waiting := queue;
      queue := [];
      var i := 0;
      while i < |waiting|
        invariant 0 <= i <= |waiting|
        invariant woken == old(woken) + waiting[..i]
        invariant active == old(active) && queue == [] && holders == old(holders) && next == old(next)
      {
        woken := woken + [waiting[i]];
        i := i + 1;
      }
    }
  }
}
