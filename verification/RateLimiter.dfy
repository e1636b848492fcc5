/**
 The sliding-window rate limiter: the sections of code that run under its lock, in the form of the source, and the
 protocol of waiters, permits, timers and cleanup tasks around them as a transition system.
 */
module RateLimiter {
  import opened Collections

  // ----- What the lock-held sections compute

  // Timestamps that have left the window are popped from the front.
  function Expire(ts: seq<nat>, now: nat, window: nat): seq<nat> {
    if ts != [] && now - ts[0] >= window then Expire(ts[1..], now, window) else ts
  }

  datatype Section<T> = Section(ts: seq<nat>, queue: seq<T>, granted: bool, wait: nat)

  function Front<T>(q: seq<T>): Option<T> { if q == [] then None else Some(q[0]) }

  // One round of the loop in `acquire`.
  function Attempt<T(==)>(ts: seq<nat>, q: seq<T>, me: T, now: nat, window: nat, maxTasks: nat): Section<T> {
    var ts' := Expire(ts, now, window);
    if Front(q) == Some(me) && |ts'| < maxTasks then Section(ts' + [now], q[1..], true, 0)
    else Section(ts', q, false, if ts' == [] || now - ts'[0] > window then 0 else window - Max0(now - ts'[0]))
  }

  function Max0(x: int): nat { if x < 0 then 0 else x }

  // ----- The sections in the form of the source

  class Notify {
    var permit: bool

    constructor ()
      ensures !permit
    {
      permit := false;
    }

    method NotifyOne()
      modifies this
      ensures permit
    {
      permit := true;
    }
  }

  class Inner {
    const window: nat
    const maxTasks: nat
    var timestamps: seq<nat>
    var waiters: seq<Notify>

    constructor (maxTasks: nat, window: nat)
      ensures timestamps == [] && waiters == [] && this.window == window && this.maxTasks == maxTasks
    {
      this.window, this.maxTasks, timestamps, waiters := window, maxTasks, [], [];
    }

    // The first section of `acquire`.
    method Enqueue() returns (me: Notify)
      modifies this
      ensures fresh(me) && !me.permit
      ensures waiters == old(waiters) + [me] && timestamps == old(timestamps)
    {
      me := new Notify();
      waiters := waiters + [me];
    }

    // One round of the loop: either the caller is granted, or it is told how long to wait.
    method TryAcquire(me: Notify, now: nat) returns (granted: bool, wait: nat)
      modifies this, waiters
      ensures Section(timestamps, waiters, granted, wait)
           == Attempt(old(timestamps), old(waiters), me, now, window, maxTasks)
      ensures forall w: Notify | w in old(waiters) ::
        w.permit == (old(w.permit) || (granted && waiters != [] && w == waiters[0]))
    {
      while timestamps != [] && now - timestamps[0] >= window
        invariant Expire(timestamps, now, window) == Expire(old(timestamps), now, window)
        invariant waiters == old(waiters)
        modifies this`timestamps
        decreases |timestamps|
      {
        timestamps := timestamps[1..];
      }
      var isNext := waiters != [] && waiters[0] == me;
      if isNext && |timestamps| < maxTasks {
        timestamps := timestamps + [now];
        waiters := waiters[1..];
        if waiters != [] {
          assert waiters[0] in old(waiters);
          waiters[0].NotifyOne();
        }
        return true, 0;
      }
      if timestamps == [] || now - timestamps[0] > window {
        return false, 0;
      }
      return false, window - Max0(now - timestamps[0]);
    }

    // The cleanup that dropping a waiter's guard spawns: leave the queue and wake whoever is first.
    method Cleanup(me: Notify)
      modifies this, waiters
      ensures timestamps == old(timestamps) && waiters == Without(old(waiters), {me})
      ensures forall w: Notify | w in old(waiters) :: w.permit == (old(w.permit) || (waiters != [] && w == waiters[0]))
    {
      var kept: seq<Notify> := [];
      for i := 0 to |waiters|
        invariant waiters == old(waiters)
        invariant kept == Without(waiters[..i], {me})
        invariant forall w | w in kept :: w in waiters
      {
        assert waiters[..i + 1][..i] == waiters[..i];
        if waiters[i] != me {
          kept := kept + [waiters[i]];
        }
      }
      assert waiters[..|waiters|] == waiters;
      waiters := kept;
      if waiters != [] {
        assert kept[0] in kept;
        waiters[0].NotifyOne();
      }
    }
  }

  // ----- The protocol

  datatype Pc = Running | Sleeping(deadline: nat) | Granted | Cancelled
  datatype Waiter = Waiter(pc: Pc, permit: bool)
  datatype Grant = Grant(id: nat, time: nat)

  // `latency` bounds the time between leaving the lock and starting the sleep.
  datatype Config = Config(window: nat, maxTasks: nat, latency: nat)

  // The last three fields record the past: who came, who was granted and when, and who was cleaned out of the queue.
  datatype State = State(now: nat, ts: seq<nat>, queue: seq<nat>, waiters: map<nat, Waiter>, cleanups: multiset<nat>,
                         enqueued: seq<nat>, grants: seq<Grant>, gone: set<nat>)

  const INITIAL := State(0, [], [], map[], multiset{}, [], [], {})

  datatype Step =
    | Tick(dt: nat)
    | Enqueue(id: nat)
    | Round(id: nat, delay: nat)
    | TimerWake(id: nat)
    | PermitWake(id: nat)
    | Cancel(id: nat)
    | Cleanup(id: nat)

  function Wake(waiters: map<nat, Waiter>, front: Option<nat>): map<nat, Waiter> {
    if front.Some? && front.value in waiters then waiters[front.value := waiters[front.value].(permit := true)]
    else waiters
  }

  predicate Enabled(c: Config, s: State, step: Step) {
    match step
    case Tick(_) => true
    case Enqueue(id) => id !in s.waiters
    case Round(id, delay) => id in s.waiters && s.waiters[id].pc.Running? && delay <= c.latency
    case TimerWake(id) => id in s.waiters && s.waiters[id].pc.Sleeping? && s.waiters[id].pc.deadline <= s.now
    case PermitWake(id) => id in s.waiters && s.waiters[id].pc.Sleeping? && s.waiters[id].permit
    case Cancel(id) => id in s.waiters && (s.waiters[id].pc.Running? || s.waiters[id].pc.Sleeping?)
    case Cleanup(id) => id in s.cleanups
  }

  function Next(c: Config, s: State, step: Step): State
    requires Enabled(c, s, step)
  {
    match step
    case Tick(dt) => s.(now := s.now + dt)
    case Enqueue(id) =>
      s.(queue := s.queue + [id], waiters := s.waiters[id := Waiter(Running, false)], enqueued := s.enqueued + [id])
    case Round(id, delay) =>
      var r := Attempt(s.ts, s.queue, id, s.now, c.window, c.maxTasks);
      if r.granted then
        // Returning drops the guard, which spawns a cleanup task as well.
        s.(ts := r.ts, queue := r.queue, cleanups := s.cleanups + multiset{id}, grants := s.grants + [Grant(id, s.now)],
           waiters := Wake(s.waiters[id := s.waiters[id].(pc := Granted)], Front(r.queue)))
      else
        s.(ts := r.ts, waiters := s.waiters[id := s.waiters[id].(pc := Sleeping(s.now + delay + r.wait))])
    case TimerWake(id) => s.(waiters := s.waiters[id := s.waiters[id].(pc := Running)])
    case PermitWake(id) => s.(waiters := s.waiters[id := Waiter(Running, false)])
    case Cancel(id) =>
      s.(waiters := s.waiters[id := s.waiters[id].(pc := Cancelled)], cleanups := s.cleanups + multiset{id})
    case Cleanup(id) =>
      var queue := Without(s.queue, {id});
      s.(queue := queue, cleanups := s.cleanups - multiset{id}, waiters := Wake(s.waiters, Front(queue)),
         gone := if id in s.queue then s.gone + {id} else s.gone)
  }

  // ----- The window

  // The timestamps are the latest grants, and every grant that is not among them is out of the window.
  ghost predicate Window(c: Config, now: nat, ts: seq<nat>, grants: seq<Grant>) {
    var k := |grants| - |ts|;
    && 0 <= k
    && |ts| <= c.maxTasks
    && (forall i | 0 <= i < |ts| :: ts[i] == grants[k + i].time)
    && (forall i, j | 0 <= i < j < |grants| :: grants[i].time <= grants[j].time)
    && (forall i | 0 <= i < |grants| :: grants[i].time <= now)
    && (forall i | 0 <= i < k :: grants[i].time + c.window <= now)
  }

  // Two grants that are maxTasks apart are at least a window apart in time.
  ghost predicate Spaced(c: Config, grants: seq<Grant>) {
    forall i, j | 0 <= i && j == i + c.maxTasks && j < |grants| :: grants[i].time + c.window <= grants[j].time
  }

  lemma {:induction false} ExpireSuffix(ts: seq<nat>, now: nat, window: nat)
    requires forall i, j | 0 <= i < j < |ts| :: ts[i] <= ts[j]
    ensures var r := Expire(ts, now, window);
            var k := |ts| - |r|;
            && 0 <= k && r == ts[k..]
            && (forall i | 0 <= i < k :: ts[i] + window <= now)
            && (r != [] ==> now - r[0] < window)
  {
    if ts != [] && now - ts[0] >= window {
      ExpireSuffix(ts[1..], now, window);
      var r := Expire(ts, now, window);
      assert ts[1..][|ts| - 1 - |r|..] == ts[|ts| - |r|..];
    }
  }

  lemma Sorted(c: Config, now: nat, ts: seq<nat>, grants: seq<Grant>)
    requires Window(c, now, ts, grants)
    ensures forall i, j | 0 <= i < j < |ts| :: ts[i] <= ts[j]
  {
    var k := |grants| - |ts|;
    forall i, j | 0 <= i < j < |ts| ensures ts[i] <= ts[j] {
      assert grants[k + i].time <= grants[k + j].time;
    }
  }

  // A suffix of the timestamps is a window as well when what it leaves out has expired.
  lemma ShorterWindow(c: Config, now: nat, ts: seq<nat>, d: nat, grants: seq<Grant>)
    requires Window(c, now, ts, grants) && d <= |ts|
    requires forall i | 0 <= i < d :: ts[i] + c.window <= now
    ensures Window(c, now, ts[d..], grants)
  {
    var k := |grants| - |ts|;
    forall i | k <= i < k + d ensures grants[i].time + c.window <= now {
      assert ts[i - k] == grants[k + (i - k)].time;
    }
  }

  lemma ExpiredWindow(c: Config, now: nat, ts: seq<nat>, grants: seq<Grant>)
    requires Window(c, now, ts, grants)
    ensures var r := Expire(ts, now, c.window);
            && Window(c, now, r, grants)
            && (r != [] ==> ts != [] && ts[0] <= r[0] && now - r[0] < c.window)
            && (r == [] && ts != [] ==> ts[0] + c.window <= now)
  {
    Sorted(c, now, ts, grants);
    ExpireSuffix(ts, now, c.window);
    var r := Expire(ts, now, c.window);
    hide Expire;
    ShorterWindow(c, now, ts, |ts| - |r|, grants);
  }

  lemma GrantKeepsWindow(c: Config, now: nat, ts: seq<nat>, grants: seq<Grant>, g: Grant)
    requires Window(c, now, ts, grants) && Spaced(c, grants) && |ts| < c.maxTasks && g.time == now
    ensures Window(c, now, ts + [now], grants + [g]) && Spaced(c, grants + [g])
  {
    GrantFitsWindow(c, now, ts, grants, g);
    GrantKeepsSpace(c, now, ts, grants, g);
    hide Window, Spaced;
  }

  lemma GrantFitsWindow(c: Config, now: nat, ts: seq<nat>, grants: seq<Grant>, g: Grant)
    requires Window(c, now, ts, grants) && |ts| < c.maxTasks && g.time == now
    ensures Window(c, now, ts + [now], grants + [g])
  {
  }

  // The grant that is maxTasks before the new one has left the window.
  lemma GrantKeepsSpace(c: Config, now: nat, ts: seq<nat>, grants: seq<Grant>, g: Grant)
    requires Window(c, now, ts, grants) && Spaced(c, grants) && |ts| < c.maxTasks && g.time == now
    ensures Spaced(c, grants + [g])
  {
    var i := |grants| - c.maxTasks;
    assert 0 <= i ==> grants[i].time + c.window <= now;
    hide Window;
    forall i, j | 0 <= i && j == i + c.maxTasks && j < |grants + [g]|
      ensures (grants + [g])[i].time + c.window <= (grants + [g])[j].time
    {
      if j < |grants| {
        assert grants[i].time + c.window <= grants[j].time;
      }
    }
  }

  lemma LaterWindow(c: Config, now: nat, later: nat, ts: seq<nat>, grants: seq<Grant>)
    requires Window(c, now, ts, grants) && now <= later
    ensures Window(c, later, ts, grants)
  {
  }

  lemma WindowKept(c: Config, s: State, step: Step)
    requires Window(c, s.now, s.ts, s.grants) && Spaced(c, s.grants) && Enabled(c, s, step)
    ensures var s' := Next(c, s, step); Window(c, s'.now, s'.ts, s'.grants) && Spaced(c, s'.grants)
  {
    hide Expire, Window, Spaced, Without, Wake;
    match step {
      case Tick(dt) => LaterWindow(c, s.now, s.now + dt, s.ts, s.grants);
      case Round(id, _) =>
        ExpiredWindow(c, s.now, s.ts, s.grants);
        var ts := Expire(s.ts, s.now, c.window);
        if |ts| < c.maxTasks {
          GrantKeepsWindow(c, s.now, ts, s.grants, Grant(id, s.now));
        }
      case _ =>
    }
  }

  // ----- Who is in the queue

  // Waiters are known from when they enqueue; nobody in the queue has been granted,
  // and whoever was cancelled while queued still has a cleanup task.
  ghost predicate Queued(s: State) {
    && (forall id | id in s.queue :: id in s.waiters && !s.waiters[id].pc.Granted?)
    && (forall id | id in s.queue :: s.waiters[id].pc.Cancelled? ==> id in s.cleanups)
    && Distinct(s.queue)
    && (forall id | id in s.enqueued :: id in s.waiters)
    && (forall id | id in s.cleanups :: id in s.waiters && (s.waiters[id].pc.Granted? || s.waiters[id].pc.Cancelled?))
  }

  // The waiter at the front will look at the queue again: it runs, or a permit waits for it, or its timer
  // rings by the time the oldest timestamp expires, or it was cancelled and its cleanup task is pending.
  ghost predicate Awake(c: Config, s: State)
    requires s.queue != [] && s.queue[0] in s.waiters
  {
    var w := s.waiters[s.queue[0]];
    match w.pc
    case Running => true
    case Sleeping(deadline) =>
      w.permit || deadline <= c.latency + if s.ts == [] then s.now else s.ts[0] + c.window
    case Cancelled => s.queue[0] in s.cleanups
    case Granted => false
  }

  ghost predicate NoLostWakeup(c: Config, s: State) {
    s.queue != [] ==> s.queue[0] in s.waiters && Awake(c, s)
  }

  // ----- First come, first served

  function Ids(grants: seq<Grant>): seq<nat> {
    if grants == [] then [] else Ids(grants[..|grants| - 1]) + [grants[|grants| - 1].id]
  }

  // Those granted, then those still queued, are those who came except those who were cleaned out.
  ghost predicate Order(grants: seq<Grant>, queue: seq<nat>, enqueued: seq<nat>, gone: set<nat>) {
    Ids(grants) + queue == Without(enqueued, gone)
  }

  ghost predicate Fifo(s: State) {
    && Order(s.grants, s.queue, s.enqueued, s.gone)
    && Distinct(s.enqueued)
    && (forall id | id in s.enqueued :: id in s.waiters)
    && (forall id | id in s.gone :: id in s.waiters && s.waiters[id].pc.Cancelled?)
    && (forall id | id in Ids(s.grants) :: id in s.waiters && s.waiters[id].pc.Granted?)
  }

  // ----- The invariants are kept by every step

  lemma QueuedGrant(c: Config, s: State, step: Step)
    requires step.Round? && Queued(s) && Enabled(c, s, step)
    requires Attempt(s.ts, s.queue, step.id, s.now, c.window, c.maxTasks).granted
    ensures Queued(Next(c, s, step))
  {
    hide Expire, Distinct, Without;
    DistinctTail(s.queue);
    assert forall id | id in s.queue[1..] :: id in s.queue;
  }

  lemma QueuedWait(c: Config, s: State, step: Step)
    requires step.Round? && Queued(s) && Enabled(c, s, step)
    requires !Attempt(s.ts, s.queue, step.id, s.now, c.window, c.maxTasks).granted
    ensures Queued(Next(c, s, step))
  {
    hide Expire, Distinct;
  }

  lemma QueuedCleanup(c: Config, s: State, step: Step)
    requires step.Cleanup? && Queued(s) && Enabled(c, s, step)
    ensures Queued(Next(c, s, step))
  {
    WithoutMembers(s.queue, {step.id});
    WithoutDistinct(s.queue, {step.id});
    hide Without, Distinct;
  }

  lemma QueuedOther(c: Config, s: State, step: Step)
    requires !step.Round? && !step.Cleanup? && !step.Enqueue? && Queued(s) && Enabled(c, s, step)
    ensures Queued(Next(c, s, step))
  {
    hide Without, Expire, Attempt, Distinct, Wake;
  }

  lemma QueuedEnqueue(c: Config, s: State, step: Step)
    requires step.Enqueue? && Queued(s) && Enabled(c, s, step)
    ensures Queued(Next(c, s, step))
  {
    DistinctAppend(s.queue, step.id);
    hide Without, Expire, Attempt, Distinct, Wake;
  }

  lemma QueuedKept(c: Config, s: State, step: Step)
    requires Queued(s) && Enabled(c, s, step)
    ensures Queued(Next(c, s, step))
  {
    hide Queued, Next;
    match step {
      case Round(id, _) =>
        if Attempt(s.ts, s.queue, id, s.now, c.window, c.maxTasks).granted {
          QueuedGrant(c, s, step);
        } else {
          QueuedWait(c, s, step);
        }
      case Cleanup(_) => QueuedCleanup(c, s, step);
      case Enqueue(_) => QueuedEnqueue(c, s, step);
      case _ => QueuedOther(c, s, step);
    }
  }

  lemma AwakeGrant(c: Config, s: State, step: Step)
    requires step.Round? && Queued(s) && Enabled(c, s, step)
    requires Attempt(s.ts, s.queue, step.id, s.now, c.window, c.maxTasks).granted
    ensures NoLostWakeup(c, Next(c, s, step))
  {
    hide Expire, Distinct;
    if |s.queue| > 1 {
      var id := s.queue[1];
      assert id in s.queue && id != s.queue[0] by {
        DistinctTail(s.queue);
      }
    }
  }

  lemma AwakeWait(c: Config, s: State, step: Step)
    requires c.maxTasks >= 1 && step.Round? && Enabled(c, s, step)
    requires Window(c, s.now, s.ts, s.grants) && NoLostWakeup(c, s)
    requires !Attempt(s.ts, s.queue, step.id, s.now, c.window, c.maxTasks).granted
    ensures NoLostWakeup(c, Next(c, s, step))
  {
    ExpiredWindow(c, s.now, s.ts, s.grants);
    var ts := Expire(s.ts, s.now, c.window);
    assert ts != [] ==> ts[0] == s.grants[|s.grants| - |ts|].time <= s.now;
    hide Expire, Window;
  }

  lemma AwakeCleanup(c: Config, s: State, step: Step)
    requires step.Cleanup? && Queued(s) && NoLostWakeup(c, s) && Enabled(c, s, step)
    ensures NoLostWakeup(c, Next(c, s, step))
  {
    WithoutMembers(s.queue, {step.id});
    CleanupFront(s.queue, step.id);
    hide Without, Distinct;
    var queue := Without(s.queue, {step.id});
    assert queue != [] ==> queue[0] in queue;
  }

  lemma AwakeOther(c: Config, s: State, step: Step)
    requires !step.Round? && !step.Cleanup? && NoLostWakeup(c, s) && Enabled(c, s, step)
    ensures NoLostWakeup(c, Next(c, s, step))
  {
    hide Attempt, Without, Wake;
  }

  lemma AwakeKept(c: Config, s: State, step: Step)
    requires c.maxTasks >= 1 && Enabled(c, s, step)
    requires Queued(s) && Window(c, s.now, s.ts, s.grants) && NoLostWakeup(c, s)
    ensures NoLostWakeup(c, Next(c, s, step))
  {
    hide Queued, Window, NoLostWakeup, Next;
    match step {
      case Round(id, _) =>
        if Attempt(s.ts, s.queue, id, s.now, c.window, c.maxTasks).granted {
          AwakeGrant(c, s, step);
        } else {
          AwakeWait(c, s, step);
        }
      case Cleanup(_) => AwakeCleanup(c, s, step);
      case _ => AwakeOther(c, s, step);
    }
  }

  lemma {:induction false} CleanupFront(q: seq<nat>, id: nat)
    ensures q != [] && q[0] != id ==> Without(q, {id}) != [] && Without(q, {id})[0] == q[0]
  {
    if |q| > 1 {
      CleanupFront(q[..|q| - 1], id);
    }
  }

  lemma IdsAppend(grants: seq<Grant>, g: Grant)
    ensures Ids(grants + [g]) == Ids(grants) + [g.id]
  {
    assert (grants + [g])[..|grants|] == grants;
  }

  lemma OrderGrant(s: State, g: Grant)
    requires Order(s.grants, s.queue, s.enqueued, s.gone) && s.queue != [] && g.id == s.queue[0]
    ensures Order(s.grants + [g], s.queue[1..], s.enqueued, s.gone)
    ensures forall id | id in Ids(s.grants + [g]) :: id in Ids(s.grants) || id == g.id
  {
    IdsAppend(s.grants, g);
    hide Ids, Without;
    assert s.queue == [g.id] + s.queue[1..];
  }

  lemma OrderCleanup(s: State, id: nat)
    requires Order(s.grants, s.queue, s.enqueued, s.gone) && id !in Ids(s.grants)
    ensures Order(s.grants, Without(s.queue, {id}), s.enqueued, if id in s.queue then s.gone + {id} else s.gone)
  {
    if id in s.queue {
      WithoutTwice(s.enqueued, s.gone, {id});
      WithoutConcat(Ids(s.grants), s.queue, {id});
      WithoutNobody(Ids(s.grants), {id});
    } else {
      WithoutNobody(s.queue, {id});
    }
  }

  lemma OrderEnqueue(s: State, id: nat)
    requires Order(s.grants, s.queue, s.enqueued, s.gone) && id !in s.gone
    ensures Order(s.grants, s.queue + [id], s.enqueued + [id], s.gone)
  {
    WithoutConcat(s.enqueued, [id], s.gone);
    WithoutNobody([id], s.gone);
    hide Ids, Without;
  }

  lemma FifoRound(c: Config, s: State, step: Step)
    requires step.Round? && Queued(s) && Fifo(s) && Enabled(c, s, step)
    ensures Fifo(Next(c, s, step))
  {
    hide Expire, Ids, Distinct, Order;
    if Next(c, s, step).grants != s.grants {
      OrderGrant(s, Grant(step.id, s.now));
    }
  }

  lemma FifoCleanup(c: Config, s: State, step: Step)
    requires step.Cleanup? && Queued(s) && Fifo(s) && Enabled(c, s, step)
    ensures Fifo(Next(c, s, step))
  {
    hide Without, Ids, Distinct, Order;
    if step.id in s.queue {
      OrderCleanup(s, step.id);
    } else {
      WithoutNobody(s.queue, {step.id});
    }
  }

  lemma FifoEnqueue(c: Config, s: State, step: Step)
    requires step.Enqueue? && Fifo(s) && Enabled(c, s, step)
    ensures Fifo(Next(c, s, step))
  {
    hide Ids, Order;
    OrderEnqueue(s, step.id);
  }

  lemma FifoKept(c: Config, s: State, step: Step)
    requires Queued(s) && Fifo(s) && Enabled(c, s, step)
    ensures Fifo(Next(c, s, step))
  {
    hide Without, Expire, Attempt, Ids, Distinct, Order;
    match step {
      case Enqueue(_) => FifoEnqueue(c, s, step);
      case Round(_, _) => FifoRound(c, s, step);
      case Cleanup(_) => FifoCleanup(c, s, step);
      case _ =>
    }
  }

  // ----- Whole runs

  ghost predicate Inv(c: Config, s: State) {
    && Queued(s)
    && Window(c, s.now, s.ts, s.grants)
    && Spaced(c, s.grants)
    && NoLostWakeup(c, s)
    && Fifo(s)
  }

  predicate Run(c: Config, s: State, steps: seq<Step>)
    decreases |steps|
  {
    steps == [] || (Enabled(c, s, steps[0]) && Run(c, Next(c, s, steps[0]), steps[1..]))
  }

  function After(c: Config, s: State, steps: seq<Step>): State
    requires Run(c, s, steps)
    decreases |steps|
  {
    if steps == [] then s else After(c, Next(c, s, steps[0]), steps[1..])
  }

  lemma {:induction false} RunKeeps(c: Config, s: State, steps: seq<Step>)
    requires c.maxTasks >= 1 && Inv(c, s) && Run(c, s, steps)
    ensures Inv(c, After(c, s, steps))
    decreases |steps|
  {
    if steps != [] {
      hide Queued, Window, Spaced, NoLostWakeup, Fifo, Next, Enabled;
      QueuedKept(c, s, steps[0]);
      WindowKept(c, s, steps[0]);
      AwakeKept(c, s, steps[0]);
      FifoKept(c, s, steps[0]);
      RunKeeps(c, Next(c, s, steps[0]), steps[1..]);
    }
  }

  // Every state that any interleaving of enqueues, rounds, wakes, cancellations and cleanups reaches.
  lemma ReachableInv(c: Config, steps: seq<Step>)
    requires c.maxTasks >= 1 && Run(c, INITIAL, steps)
    ensures Inv(c, After(c, INITIAL, steps))
  {
    RunKeeps(c, INITIAL, steps);
  }

  lemma SpacedPair(c: Config, grants: seq<Grant>, i: nat, j: nat)
    requires Spaced(c, grants) && i + c.maxTasks <= j < |grants|
    requires forall k, l | 0 <= k < l < |grants| :: grants[k].time <= grants[l].time
    ensures grants[i].time + c.window <= grants[j].time
  {
    assert grants[i].time + c.window <= grants[i + c.maxTasks].time;
  }

  // Within less than a window of time there are never more than maxTasks grants.
  lemma WindowSafety(c: Config, steps: seq<Step>, i: nat, j: nat)
    requires c.maxTasks >= 1 && Run(c, INITIAL, steps)
    requires var grants := After(c, INITIAL, steps).grants;
             i <= j < |grants| && grants[j].time < grants[i].time + c.window
    ensures j - i < c.maxTasks
  {
    ReachableInv(c, steps);
    var grants := After(c, INITIAL, steps).grants;
    if i + c.maxTasks <= j {
      SpacedPair(c, grants, i, j);
    }
  }

  function CancelledIds(s: State): set<nat> {
    set id | id in s.waiters && s.waiters[id].pc.Cancelled?
  }

  // The granted waiters, followed by those still waiting, are the enqueued ones in their order with the
  // cancelled ones left out; nobody is granted twice.
  lemma FifoFairness(c: Config, steps: seq<Step>)
    requires c.maxTasks >= 1 && Run(c, INITIAL, steps)
    ensures var s := After(c, INITIAL, steps);
            && Ids(s.grants) + Without(s.queue, CancelledIds(s)) == Without(s.enqueued, CancelledIds(s))
            && Distinct(Ids(s.grants))
  {
    ReachableInv(c, steps);
    var s := After(c, INITIAL, steps);
    var cancelled := CancelledIds(s);
    WithoutTwice(s.enqueued, s.gone, cancelled);
    assert s.gone + cancelled == cancelled;
    WithoutConcat(Ids(s.grants), s.queue, cancelled);
    WithoutNobody(Ids(s.grants), cancelled);
    WithoutDistinct(s.enqueued, s.gone);
    assert forall i | 0 <= i < |Ids(s.grants)| :: Ids(s.grants)[i] == (Ids(s.grants) + s.queue)[i];
  }

  // The front waiter is granted by its next round as soon as there is room or the oldest timestamp has expired.
  lemma FrontGrantedIff(c: Config, s: State, delay: nat)
    requires c.maxTasks >= 1 && Inv(c, s) && s.queue != [] && delay <= c.latency
    requires Enabled(c, s, Round(s.queue[0], delay))
    ensures |Next(c, s, Round(s.queue[0], delay)).grants| > |s.grants|
        <==> |s.ts| < c.maxTasks || s.ts[0] + c.window <= s.now
  {
    ExpiredWindow(c, s.now, s.ts, s.grants);
    Sorted(c, s.now, s.ts, s.grants);
    ExpireSuffix(s.ts, s.now, c.window);
  }

  // Nobody is stuck at the front: some step of the front waiter is possible now,
  // or its timer rings after a tick that ends when the oldest timestamp expires (plus the latency).
  lemma FrontNotStuck(c: Config, steps: seq<Step>)
    requires c.maxTasks >= 1 && Run(c, INITIAL, steps)
    ensures var s := After(c, INITIAL, steps);
            s.queue != [] ==>
              var id := s.queue[0];
              var due := c.latency + if s.ts == [] then s.now else s.ts[0] + c.window;
              || Enabled(c, s, Round(id, 0)) || Enabled(c, s, PermitWake(id)) || Enabled(c, s, Cleanup(id))
              || Enabled(c, Next(c, s, Tick(Max0(due - s.now))), TimerWake(id))
  {
    ReachableInv(c, steps);
  }

  // A limiter that allows no tasks grants nobody, ever.
  lemma {:induction false} NoTasksNoGrants(c: Config, s: State, steps: seq<Step>)
    requires c.maxTasks == 0 && Run(c, s, steps)
    ensures After(c, s, steps).grants == s.grants
    decreases |steps|
  {
    if steps != [] {
      assert Next(c, s, steps[0]).grants == s.grants;
      hide Next, Enabled;
      NoTasksNoGrants(c, Next(c, s, steps[0]), steps[1..]);
    }
  }
}
