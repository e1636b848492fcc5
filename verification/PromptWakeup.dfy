/**
 When the front waiter of the rate limiter wakes up as soon as the oldest timestamp expires, and not later: its timer
 starts only after the lock is left.
 */
module PromptWakeup {
  import opened Collections
  import opened RateLimiter

  // No lost wakeup, with the strict deadline: the front waiter's timer rings by the time the oldest timestamp expires.
  ghost predicate Strict(c: Config, s: State) {
    NoLostWakeup(c.(latency := 0), s)
  }

  // Whether a round ends with a grant.
  predicate Grants(c: Config, s: State, id: nat) {
    Attempt(s.ts, s.queue, id, s.now, c.window, c.maxTasks).granted
  }

  // A front waiter that is turned away falls asleep at once, or a permit is stored for it.
  predicate Prompt(c: Config, s: State, step: Step) {
    step.Round? && Front(s.queue) == Some(step.id) && !Grants(c, s, step.id) && step.id in s.waiters ==>
      step.delay == 0 || s.waiters[step.id].permit
  }

  // A round that grants nothing puts its waiter to sleep until the oldest timestamp expires plus the delay between
  // leaving the lock and starting the timer.
  lemma SleepsUntil(c: Config, s: State, id: nat, delay: nat)
    requires c.maxTasks >= 1 && Window(c, s.now, s.ts, s.grants) && Enabled(c, s, Round(id, delay)) && !Grants(c, s, id)
    ensures var s' := Next(c, s, Round(id, delay));
            && id in s'.waiters && s'.waiters[id].permit == s.waiters[id].permit
            && s'.waiters[id].pc == Sleeping(delay + if s'.ts == [] then s'.now else s'.ts[0] + c.window)
  {
    ExpiredWindow(c, s.now, s.ts, s.grants);
    var ts := Expire(s.ts, s.now, c.window);
    assert ts != [] ==> ts[0] == s.grants[|s.grants| - |ts|].time <= s.now;
    OldestInside(s.ts, s.now, c.window);
    hide Expire, Window;
  }

  lemma {:induction false} OldestInside(ts: seq<nat>, now: nat, window: nat)
    ensures var ts' := Expire(ts, now, window); ts' != [] ==> now - ts'[0] < window
    decreases |ts|
  {
    if ts != [] && now - ts[0] >= window {
      OldestInside(ts[1..], now, window);
    }
  }

  // A front waiter is turned away only by timestamps.
  lemma FrontTurnedAway(c: Config, s: State, id: nat)
    requires c.maxTasks >= 1 && Front(s.queue) == Some(id) && !Grants(c, s, id)
    ensures Expire(s.ts, s.now, c.window) != []
  {
    hide Expire;
  }

  // Without the delay the step is one of a limiter without latency.
  function Undelayed(step: Step): Step {
    if step.Round? then step.(delay := 0) else step
  }

  lemma UndelayedKeeps(c: Config, s: State, step: Step)
    requires c.maxTasks >= 1 && Inv(c, s) && Strict(c, s) && Enabled(c, s, step)
    ensures Enabled(c, s, Undelayed(step)) && Strict(c, Next(c, s, Undelayed(step)))
  {
    var c0 := c.(latency := 0);
    hide Queued, NoLostWakeup, Spaced, Fifo, Attempt, Without, Wake;
    assert Window(c0, s.now, s.ts, s.grants);
    hide Window;
    AwakeKept(c0, s, Undelayed(step));
    assert Next(c0, s, Undelayed(step)) == Next(c, s, Undelayed(step));
  }

  // Only the deadline of the waiter that goes to sleep depends on the delay.
  lemma DelayShows(c: Config, s: State, id: nat, delay: nat)
    requires Enabled(c, s, Round(id, delay))
    ensures var s', s0 := Next(c, s, Round(id, delay)), Next(c, s, Round(id, 0));
            && s'.queue == s0.queue && s'.ts == s0.ts && s'.now == s0.now && s'.cleanups == s0.cleanups
            && s'.waiters.Keys == s0.waiters.Keys
            && (forall w | w in s'.waiters && w != id :: s'.waiters[w] == s0.waiters[w])
            && (Grants(c, s, id) ==> s' == s0)
            && (!Grants(c, s, id) ==> s'.queue == s.queue)
  {
    hide Expire;
  }

  // Of all steps, exactly those that are not prompt break the strict deadline.
  lemma StrictIff(c: Config, s: State, step: Step)
    requires c.maxTasks >= 1 && Inv(c, s) && Strict(c, s) && Enabled(c, s, step)
    ensures Strict(c, Next(c, s, step)) <==> Prompt(c, s, step)
  {
    UndelayedKeeps(c, s, step);
    if step.Round? {
      RoundStrictIff(c, s, step.id, step.delay);
    }
  }

  lemma RoundStrictIff(c: Config, s: State, id: nat, delay: nat)
    requires c.maxTasks >= 1 && Inv(c, s) && Enabled(c, s, Round(id, delay))
    requires Strict(c, Next(c, s, Round(id, 0)))
    ensures Strict(c, Next(c, s, Round(id, delay))) <==> Prompt(c, s, Round(id, delay))
  {
    hide Queued, Window, Spaced, Fifo, Next, Attempt, Grants;
    DelayShows(c, s, id, delay);
    if !Grants(c, s, id) {
      SleepsUntil(c, s, id, delay);
      if Front(s.queue) == Some(id) {
        TurnedAwayKeeps(c, s, id, delay);
      }
    }
  }

  lemma TurnedAwayKeeps(c: Config, s: State, id: nat, delay: nat)
    requires c.maxTasks >= 1 && Front(s.queue) == Some(id) && Enabled(c, s, Round(id, delay)) && !Grants(c, s, id)
    ensures Next(c, s, Round(id, delay)).ts != []
  {
    FrontTurnedAway(c, s, id);
    hide Expire;
  }

  // ----- Whole runs

  ghost predicate PromptRun(c: Config, s: State, steps: seq<Step>)
    requires Run(c, s, steps)
    decreases |steps|
  {
    steps != [] ==> Prompt(c, s, steps[0]) && PromptRun(c, Next(c, s, steps[0]), steps[1..])
  }

  lemma {:induction false} PromptRunKeeps(c: Config, s: State, steps: seq<Step>)
    requires c.maxTasks >= 1 && Inv(c, s) && Strict(c, s) && Run(c, s, steps) && PromptRun(c, s, steps)
    ensures Strict(c, After(c, s, steps))
    decreases |steps|
  {
    if steps != [] {
      hide Inv, Strict, Prompt, Next, Enabled;
      StrictIff(c, s, steps[0]);
      StepKeeps(c, s, steps[0]);
      PromptRunKeeps(c, Next(c, s, steps[0]), steps[1..]);
    }
  }

  lemma StepKeeps(c: Config, s: State, step: Step)
    requires c.maxTasks >= 1 && Inv(c, s) && Enabled(c, s, step)
    ensures Inv(c, Next(c, s, step))
  {
    hide Queued, Window, Spaced, NoLostWakeup, Fifo, Next, Enabled;
    QueuedKept(c, s, step);
    WindowKept(c, s, step);
    AwakeKept(c, s, step);
    FifoKept(c, s, step);
  }

  // Without latency every round is prompt; with an empty window no front waiter is ever turned away.
  lemma {:induction false} AllPrompt(c: Config, s: State, steps: seq<Step>)
    requires c.maxTasks >= 1 && Run(c, s, steps) && Inv(c, s) && (c.latency == 0 || c.window == 0)
    ensures PromptRun(c, s, steps)
    decreases |steps|
  {
    if steps != [] {
      if steps[0].Round? && c.window == 0 {
        NothingStays(c, s);
      }
      assert Prompt(c, s, steps[0]) by { hide Inv, Expire, Next; }
      hide Inv, Prompt, Next, Enabled;
      StepKeeps(c, s, steps[0]);
      AllPrompt(c, Next(c, s, steps[0]), steps[1..]);
    }
  }

  lemma NothingStays(c: Config, s: State)
    requires c.window == 0 && Inv(c, s)
    ensures Expire(s.ts, s.now, c.window) == []
  {
    assert forall i | 0 <= i < |s.ts| :: s.ts[i] == s.grants[|s.grants| - |s.ts| + i].time;
    AllExpire(s.ts, s.now);
  }

  lemma {:induction false} AllExpire(ts: seq<nat>, now: nat)
    requires forall i | 0 <= i < |ts| :: ts[i] <= now
    ensures Expire(ts, now, 0) == []
    decreases |ts|
  {
    if ts != [] {
      AllExpire(ts[1..], now);
    }
  }

  lemma {:induction false} RunThen(c: Config, s: State, a: seq<Step>, b: seq<Step>)
    requires Run(c, s, a) && Run(c, After(c, s, a), b)
    ensures Run(c, s, a + b) && After(c, s, a + b) == After(c, After(c, s, a), b)
    decreases |a|
  {
    if a == [] {
      assert a + b == b;
    } else {
      hide Next, Enabled;
      assert (a + b)[1..] == a[1..] + b;
      RunThen(c, Next(c, s, a[0]), a[1..], b);
    }
  }

  lemma TwoSteps(c: Config, s: State, a: Step, b: Step)
    requires Enabled(c, s, a) && Enabled(c, Next(c, s, a), b)
    ensures Run(c, s, [a, b]) && After(c, s, [a, b]) == Next(c, Next(c, s, a), b)
  {
    assert [a, b][1..] == [b] && [b][1..] == [];
    hide Next, Enabled;
    var s1 := Next(c, s, a);
    assert Run(c, Next(c, s1, b), []) && Run(c, s1, [b]);
    assert After(c, s1, [b]) == After(c, Next(c, s1, b), []);
  }

  // k waiters that come and go at time 0.
  ghost predicate Filled(s: State, k: nat) {
    && s.now == 0 && s.queue == [] && s.ts == Repeat(0, k)
    && forall id | id in s.waiters :: id < k
  }

  lemma {:induction false} FillSlots(c: Config, k: nat) returns (steps: seq<Step>)
    requires c.window > 0 && k <= c.maxTasks
    ensures Run(c, INITIAL, steps) && Filled(After(c, INITIAL, steps), k)
  {
    steps := [];
    if k != 0 {
      steps := FillSlots(c, k - 1);
      var s := After(c, INITIAL, steps);
      FillOne(c, s, k - 1);
      hide Run, After, Next, Enabled, Filled;
      RunThen(c, INITIAL, steps, [Enqueue(k - 1), Round(k - 1, 0)]);
      steps := steps + [Enqueue(k - 1), Round(k - 1, 0)];
    }
  }

  lemma FillOne(c: Config, s: State, k: nat)
    requires c.window > 0 && k < c.maxTasks && Filled(s, k)
    ensures Run(c, s, [Enqueue(k), Round(k, 0)]) && Filled(After(c, s, [Enqueue(k), Round(k, 0)]), k + 1)
  {
    var s1 := Next(c, s, Enqueue(k));
    assert s1.queue == [k] && Expire(s1.ts, 0, c.window) == Repeat(0, k);
    assert Repeat<nat>(0, k) + [0] == Repeat<nat>(0, k + 1);
    assert [k][1..] == [];
    var s2 := Next(c, s1, Round(k, 0));
    assert Filled(s2, k + 1);
    hide Next;
    TwoSteps(c, s, Enqueue(k), Round(k, 0));
  }

  // With latency and a window, a run ends with a front waiter that sleeps past the time when the oldest timestamp
  // expires: all slots are taken at time 0, and the next waiter's timer starts late.
  lemma LateRun(c: Config) returns (steps: seq<Step>)
    requires c.maxTasks >= 1 && c.window > 0 && c.latency > 0
    ensures Run(c, INITIAL, steps)
    ensures var s := After(c, INITIAL, steps);
            && s.now == 0 && s.ts == Repeat(0, c.maxTasks) && s.queue == [c.maxTasks] && c.maxTasks in s.waiters
            && s.waiters[c.maxTasks] == Waiter(Sleeping(c.latency + c.window), false)
            && !Strict(c, s)
  {
    var n := c.maxTasks;
    steps := FillSlots(c, n);
    var s := After(c, INITIAL, steps);
    var s1 := Next(c, s, Enqueue(n));
    assert s1.queue == [n] && Expire(s1.ts, 0, c.window) == Repeat(0, n);
    var s2 := Next(c, s1, Round(n, c.latency));
    assert s2.waiters[n] == Waiter(Sleeping(c.latency + c.window), false);
    TwoSteps(c, s, Enqueue(n), Round(n, c.latency));
    hide Run, After, Next, Enabled;
    RunThen(c, INITIAL, steps, [Enqueue(n), Round(n, c.latency)]);
    steps := steps + [Enqueue(n), Round(n, c.latency)];
  }

  // The strict deadline holds in every reachable state exactly if timers start at once or nothing ever waits for
  // a timestamp.
  lemma AlwaysStrictIff(c: Config)
    requires c.maxTasks >= 1
    ensures (forall steps | Run(c, INITIAL, steps) :: Strict(c, After(c, INITIAL, steps)))
            <==> c.latency == 0 || c.window == 0
  {
    if c.latency == 0 || c.window == 0 {
      forall steps | Run(c, INITIAL, steps) ensures Strict(c, After(c, INITIAL, steps)) {
        AllPrompt(c, INITIAL, steps);
        PromptRunKeeps(c, INITIAL, steps);
      }
    } else {
      var steps := LateRun(c);
    }
  }

  // ----- Permits

  // A permit is stored for whoever is first after a grant or a cleanup, and for nobody else; only its waiter takes it.
  lemma PermitsIff(c: Config, s: State, step: Step, w: nat)
    requires Enabled(c, s, step) && w in Next(c, s, step).waiters
    ensures Next(c, s, step).waiters[w].permit <==>
            || (w in s.waiters && s.waiters[w].permit && step != PermitWake(w))
            || ((step.Cleanup? || (step.Round? && Grants(c, s, step.id))) && Front(Next(c, s, step).queue) == Some(w))
  {
    hide Attempt, Without;
    match step {
      case Round(id, delay) => RoundPermits(c, s, id, delay, w);
      case Cleanup(id) => WakePermits(s.waiters, Front(Without(s.queue, {id})), w);
      case _ =>
    }
  }

  lemma RoundPermits(c: Config, s: State, id: nat, delay: nat, w: nat)
    requires Enabled(c, s, Round(id, delay)) && w in Next(c, s, Round(id, delay)).waiters
    ensures var s' := Next(c, s, Round(id, delay));
            s'.waiters[w].permit <==>
              (w in s.waiters && s.waiters[w].permit) || (Grants(c, s, id) && Front(s'.queue) == Some(w))
  {
    var r := Attempt(s.ts, s.queue, id, s.now, c.window, c.maxTasks);
    WakePermits(s.waiters[id := s.waiters[id].(pc := Granted)], Front(r.queue), w);
    hide Attempt, Wake;
  }

  lemma WakePermits(waiters: map<nat, Waiter>, front: Option<nat>, w: nat)
    ensures w in Wake(waiters, front) <==> w in waiters
    ensures w in waiters ==> (Wake(waiters, front)[w].permit <==> waiters[w].permit || front == Some(w))
  {
  }
}
