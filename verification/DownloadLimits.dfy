/**
 The slot cap, and how far slots are kept busy: which events can leave a slot free while somebody waits,
 and which violations of the environment's two assumptions break the partition.
 */
module DownloadLimits {
  import opened Collections
  import opened DownloadSpec
  import opened DownloadProofs

  // ----- The cap holds whatever the environment does

  lemma TakeSlot(s: State, t: Token)
    requires Cap(s) && Room(s)
    ensures Cap(Initiate(s, t))
  {
  }

  lemma DequeueCap(s: State)
    requires Cap(s)
    ensures Cap(DequeueNext(s))
  {
    if s.loggedIn && Room(s) && s.pending != [] {
      TakeSlot(s.(pending := s.pending[1..]), s.pending[0]);
    }
  }

  lemma {:induction false} DrainCap(s: State)
    requires Cap(s)
    ensures Cap(Drain(s))
    decreases |s.pending|
  {
    if Room(s) && s.pending != [] {
      var s' := s.(pending := s.pending[1..]);
      TakeSlot(s', s.pending[0]);
      DrainCap(Initiate(s', s.pending[0]));
    }
  }

  lemma FewerActive(active: set<Token>, ts: set<Token>)
    ensures |active - ts| == |active| - |active * ts|
  {
  }

  lemma RemovedCap(s: State, ts: set<Token>)
    requires Cap(s)
    ensures Cap(Removed(s, ts))
  {
    FewerActive(s.active, ts);
  }

  lemma EventCap(s: State, e: Event)
    requires Possible(s, e) && Cap(s)
    ensures Cap(Next(s, e))
  {
    hide Without, Matching, Handles, Aborted, Drain, DequeueNext, Initiate, Sent, SentAll, Removed;
    match e {
      case Request(d) =>
        if s.loggedIn && Room(s) {
          TakeSlot(Accepted(s, d), d.token);
        }
      case Completion(t, status) =>
        var s' := if t in s.downloads then s.(sent := Sent(s.sent, t, status)) else s;
        RemovedCap(s', {t});
        DequeueCap(Removed(s', {t}));
      case Failure(username, filename) => FailureCap(s, username, filename);
      case CancelRequest(t) => CancelCap(s, t);
      case TimeoutArrives(t) => TimeoutCap(s.(inbox := s.inbox - multiset{t}), t);
      case LoginSucceeded => DrainCap(s.(loggedIn := true));
      case _ =>
    }
  }

  lemma FailureCap(s: State, username: string, filename: Option<string>)
    requires Cap(s)
    ensures Cap(FailMatching(s, username, filename))
  {
    hide Without, Matching, Handles, DequeueNext, SentAll, Removed;
    var failed := Matching(s.downloads, username, filename);
    var s' := s.(sent := SentAll(s.sent, failed, Failed), pending := Without(s.pending, failed),
                 timers := s.timers - Handles(s.downloads, failed));
    RemovedCap(s', failed);
    DequeueCap(Removed(s', failed));
  }

  lemma CancelCap(s: State, t: Token)
    requires Cap(s)
    ensures Cap(OnCancel(s, t))
  {
    hide Without, Aborted, DequeueNext, Sent, Removed;
    if t in s.downloads {
      var s' := s.(pending := Without(s.pending, {t}), timers := Aborted(s.timers, s.downloads[t].timer),
                   sent := Sent(s.sent, t, Cancelled));
      RemovedCap(s', {t});
      DequeueCap(Removed(s', {t}));
    }
  }

  lemma TimeoutCap(s: State, t: Token)
    requires Cap(s)
    ensures Cap(OnTimeout(s, t))
  {
    hide DequeueNext, Sent, Removed;
    var s' := s.(sent := Sent(s.sent, t, TimedOut));
    RemovedCap(s', {t});
    DequeueCap(Removed(s', {t}));
  }

  lemma {:induction false} RunCap(s: State, events: seq<Event>)
    requires Cap(s) && Run(s, events)
    ensures Cap(After(s, events))
    decreases |events|
  {
    if events != [] {
      hide Cap, Next, Possible;
      EventCap(s, events[0]);
      RunCap(Next(s, events[0]), events[1..]);
    }
  }

  // However tokens are reused and whatever completions arrive, no more slots are in use than allowed.
  lemma CapAlways(maxConcurrent: Option<nat>, requested: seq<Download>, events: seq<Event>)
    requires Run(Start(maxConcurrent, requested), events)
    ensures Cap(After(Start(maxConcurrent, requested), events))
    ensures After(Start(maxConcurrent, requested), events).maxConcurrent == maxConcurrent
  {
    RunCap(Start(maxConcurrent, requested), events);
    RunSettings(Start(maxConcurrent, requested), events);
  }

  lemma {:induction false} DrainSettings(s: State)
    ensures Drain(s).maxConcurrent == s.maxConcurrent && Drain(s).loggedIn == s.loggedIn
    decreases |s.pending|
  {
    if Room(s) && s.pending != [] {
      DrainSettings(Initiate(s.(pending := s.pending[1..]), s.pending[0]));
    }
  }

  lemma DequeueSettings()
    ensures forall s :: DequeueNext(s).maxConcurrent == s.maxConcurrent
  {
  }

  lemma EventSettings(s: State, e: Event)
    requires Possible(s, e)
    ensures Next(s, e).maxConcurrent == s.maxConcurrent
  {
    hide Without, Matching, Handles, Aborted, Drain, Room, Sent, SentAll, DequeueNext;
    DequeueSettings();
    if e.LoginSucceeded? {
      DrainSettings(s.(loggedIn := true));
    }
  }

  lemma {:induction false} RunSettings(s: State, events: seq<Event>)
    requires Run(s, events)
    ensures After(s, events).maxConcurrent == s.maxConcurrent
    decreases |events|
  {
    if events != [] {
      hide Next, Possible;
      EventSettings(s, events[0]);
      RunSettings(Next(s, events[0]), events[1..]);
    }
  }

  // ----- Slots that stay free

  // No slot is free while a logged-in manager has somebody waiting.
  ghost predicate Busy(s: State) {
    s.loggedIn && s.pending != [] ==> !Room(s)
  }

  // At most one slot comes free, or at most one download is left to take it.
  ghost predicate FreesLittle(s: State, username: string, filename: Option<string>) {
    var failed := Matching(s.downloads, username, filename);
    s.loggedIn ==> |s.active * failed| <= 1 || |Without(s.pending, failed)| <= 1
  }

  // One waiting download takes the one free slot.
  lemma DequeueBusy(s: State)
    requires Split(s) && Cap(s)
    ensures Busy(DequeueNext(s)) <==>
            (s.loggedIn ==> |s.pending| <= 1 || (s.maxConcurrent.Some? && |s.active| + 1 >= s.maxConcurrent.value))
  {
    if s.loggedIn && Room(s) && s.pending != [] {
      assert s.pending[0] in s.downloads && s.pending[0] !in s.active;
    }
  }

  // Full work conservation survives a failure exactly if it frees little.
  lemma FailureBusyIff(s: State, username: string, filename: Option<string>, early: set<Token>)
    requires Inv(s, early) && Cap(s) && Busy(s)
    ensures Busy(FailMatching(s, username, filename)) <==> FreesLittle(s, username, filename)
  {
    var failed := Matching(s.downloads, username, filename);
    var ids := Handles(s.downloads, failed);
    var s' := Ended(s, failed, Failed).(timers := s.timers - ids);
    FewerActive(s.active, failed);
    WithoutMembers(s.pending, failed);
    if failed == {} {
      WithoutNobody(s.pending, failed);
    } else {
      EndedSplit(s, failed, Failed);
      FewerTimers(Ended(s, failed, Failed), ids);
      hide Split, Inv, Without, Matching, Handles, SentAll, DequeueNext;
      DequeueBusy(s');
    }
  }

  lemma {:induction false} DrainBusy(s: State)
    ensures Busy(Drain(s))
    decreases |s.pending|
  {
    if Room(s) && s.pending != [] {
      DrainBusy(Initiate(s.(pending := s.pending[1..]), s.pending[0]));
    }
  }

  // One download leaves, and the slot it may have held is offered once.
  lemma LeaveBusy(s: State, t: Token, status: Status, ids: set<nat>, early: set<Token>)
    requires Inv(s, early) && Cap(s) && Busy(s) && t in s.downloads
    ensures var s' := Ended(s, {t}, status).(timers := s.timers - ids);
            && (t in s.active ==> Busy(DequeueNext(s')))
            && (t !in s.active ==> Busy(s'))
  {
    var s' := Ended(s, {t}, status).(timers := s.timers - ids);
    FewerActive(s.active, {t});
    assert s.active * {t} <= {t};
    OnePart(s.active * {t}, t);
    EndedSplit(s, {t}, status);
    FewerTimers(Ended(s, {t}, status), ids);
    if t in s.active {
      WithoutNobody(s.pending, {t});
      hide Inv, Split, Without, SentAll, DequeueNext;
      DequeueBusy(s');
    } else {
      assert s.active - {t} == s.active && s.pending != [];
    }
  }

  lemma OnePart(part: set<Token>, t: Token)
    requires part <= {t}
    ensures |part| <= 1
  {
    assert part == {} || part == {t};
  }

  lemma RequestBusy(s: State, d: Download, early: set<Token>)
    requires Inv(s, early) && Busy(s) && d.token !in s.sent
    ensures Busy(Enqueue(s, d))
  {
  }

  lemma KnownCompletionBusy(s: State, t: Token, status: Status, early: set<Token>)
    requires Inv(s, early) && Cap(s) && Busy(s) && t !in s.pending && t in s.downloads && status.Terminal()
    ensures Busy(OnCompleted(s, t, status))
  {
    CompletionIsEnd(s, t, status);
    LeaveBusy(s, t, status, {}, early);
    assert s.timers - {} == s.timers;
    assert t in s.active;
    hide Inv, Cap, Busy, DequeueNext, SentAll, Without, OnCompleted;
  }

  lemma GoneInactive(s: State, t: Token, early: set<Token>)
    requires Inv(s, early) && t !in s.downloads
    ensures t !in s.active
  {
  }

  lemma BusyStaysBusy(s: State, early: set<Token>)
    requires Inv(s, early) && Cap(s) && Busy(s)
    ensures Busy(DequeueNext(s))
  {
    DequeueBusy(s);
  }

  lemma CompletionBusy(s: State, t: Token, status: Status, early: set<Token>)
    requires Inv(s, early) && Cap(s) && Busy(s) && t !in s.pending && status.Terminal()
    ensures Busy(OnCompleted(s, t, status))
  {
    hide Inv, Timed, Traced, Flow, DequeueNext, SentAll, Without;
    if t in s.downloads {
      KnownCompletionBusy(s, t, status, early);
    } else {
      assert s.active - {t} == s.active && s.downloads - {t} == s.downloads by { GoneInactive(s, t, early); }
      BusyStaysBusy(s, early);
    }
  }

  lemma CancelBusy(s: State, t: Token, early: set<Token>)
    requires Inv(s, early) && Cap(s) && Busy(s)
    ensures Busy(OnCancel(s, t))
  {
    if t !in s.downloads {
      WithoutNobody(s.pending, {t});
    } else {
      var handle := s.downloads[t].timer;
      LeaveBusy(s, t, Cancelled, if handle.Some? then {handle.value} else {}, early);
      SentOne(s.sent, t, Cancelled);
      AbortedIs(s.timers, handle);
      hide Inv, Without, SentAll, DequeueNext, Busy;
    }
  }

  lemma TimeoutBusy(s: State, t: Token, early: set<Token>)
    requires Inv(s, early) && Cap(s) && Busy(s) && t in s.inbox
    ensures Busy(OnTimeout(s.(inbox := s.inbox - multiset{t}), t))
  {
    var s1 := s.(inbox := s.inbox - multiset{t});
    if t in s.downloads && s.downloads[t].status.QueuedLocally? {
      assert Inv(s1, early);
      assert t in s.active && t !in s.pending;
      hide Inv;
      CompletionBusy(s1, t, TimedOut, early);
    }
  }

  // Of all events only a failure can leave a slot free while somebody waits, and it does so exactly if it frees
  // more than the one slot that it offers.
  lemma EventBusyIff(s: State, e: Event, early: set<Token>)
    requires Inv(s, early) && Cap(s) && Busy(s) && Possible(s, e) && Fair(s, e)
    ensures Busy(Next(s, e)) <==> (e.Failure? ==> FreesLittle(s, e.username, e.filename))
  {
    hide Inv, Cap, Sent, Aborted, Drain;
    match e {
      case Request(d) => RequestBusy(s, d, early);
      case Completion(t, status) => CompletionBusy(s, t, status, early);
      case Failure(username, filename) => FailureBusyIff(s, username, filename, early);
      case CancelRequest(t) => CancelBusy(s, t, early);
      case TimeoutArrives(t) => TimeoutBusy(s, t, early);
      case LoginSucceeded => DrainBusy(s.(loggedIn := true));
      case _ =>
    }
  }

  ghost predicate LittleFreed(s: State, events: seq<Event>)
    requires Run(s, events)
    decreases |events|
  {
    events != [] ==>
      && (events[0].Failure? ==> FreesLittle(s, events[0].username, events[0].filename))
      && LittleFreed(Next(s, events[0]), events[1..])
  }

  // Along a run whose failures free little each, no slot is ever free while a logged-in manager has somebody waiting.
  lemma {:induction false} RunBusy(s: State, events: seq<Event>, early: set<Token>)
    requires Inv(s, early) && Cap(s) && Busy(s)
    requires Run(s, events) && FairRun(s, events) && LittleFreed(s, events)
    ensures Busy(After(s, events))
    decreases |events|
  {
    if events != [] {
      hide Inv, Cap, Busy, FreesLittle, Next, Possible, Fair;
      EventKeeps(s, events[0], early);
      EventCap(s, events[0]);
      EventBusyIff(s, events[0], early);
      RunBusy(Next(s, events[0]), events[1..], early);
    }
  }

  lemma BusyAlways(maxConcurrent: Option<nat>, requested: seq<Download>, events: seq<Event>)
    requires FreshRequests(requested)
    requires Run(Start(maxConcurrent, requested), events) && FairRun(Start(maxConcurrent, requested), events)
    requires LittleFreed(Start(maxConcurrent, requested), events)
    ensures Busy(After(Start(maxConcurrent, requested), events))
  {
    var s0 := Start(maxConcurrent, requested);
    StartInv(maxConcurrent, requested);
    hide Inv, Start, Run, FairRun, After, LittleFreed;
    assert Cap(s0) && Busy(s0) by { StartIdle(maxConcurrent, requested); }
    RunBusy(s0, events, s0.downloads.Keys);
  }

  lemma StartIdle(maxConcurrent: Option<nat>, requested: seq<Download>)
    ensures var s := Start(maxConcurrent, requested); Cap(s) && Busy(s)
  {
  }

  // ----- What the two assumptions are for

  // A completion that names a pending download breaks the partition, unless that download is the one dequeued next.
  lemma PendingCompletion(s: State, t: Token, status: Status)
    requires Split(s)
    ensures Split(OnCompleted(s, t, status)) <==>
            (t !in s.pending || (s.loggedIn && Room(s) && s.pending[0] == t))
  {
    if t !in s.pending {
      RemovedSplit(s, t, status);
    } else {
      if s.loggedIn && Room(s) && s.pending[0] == t {
        TakenNext(s, t, status);
      } else {
        hide Sent, Distinct;
        StillWaiting(s, t, status);
      }
    }
  }

  // The completed download is the one dequeued, and so it leaves the queue as well.
  lemma TakenNext(s: State, t: Token, status: Status)
    requires Split(s) && t in s.pending
    requires s.loggedIn && Room(s) && s.pending[0] == t
    ensures Split(OnCompleted(s, t, status))
  {
    hide Sent;
    assert s.active - {t} == s.active;
    DistinctTail(s.pending);
    assert forall u :: u in s.pending <==> u == t || u in s.pending[1..];
  }

  // The completed download is still pending and no longer known.
  lemma StillWaiting(s: State, t: Token, status: Status)
    requires Split(s) && t in s.pending
    requires !(s.loggedIn && Room(s) && s.pending[0] == t)
    ensures t in OnCompleted(s, t, status).pending && t !in OnCompleted(s, t, status).downloads
  {
    assert s.active - {t} == s.active;
    assert t == s.pending[0] || t in s.pending[1..];
    hide Sent, Distinct;
  }

  lemma RemovedSplit(s: State, t: Token, status: Status)
    requires Split(s) && t !in s.pending
    ensures Split(OnCompleted(s, t, status))
  {
    var s' := Removed(if t in s.downloads then s.(sent := Sent(s.sent, t, status)) else s, {t});
    hide Sent;
    assert Split(s');
    if s'.loggedIn && Room(s') && s'.pending != [] {
      DistinctTail(s'.pending);
      assert forall u :: u in s'.pending <==> u == s'.pending[0] || u in s'.pending[1..];
    }
  }

  // A token that is in use can be taken again only while it holds a slot and another one is free.
  lemma ReusedToken(s: State, d: Download)
    requires Split(s)
    ensures Split(Enqueue(s, d)) <==>
            (d.token !in s.downloads || (d.token in s.active && s.loggedIn && Room(s)))
  {
    hide Sent;
    if !(s.loggedIn && Room(s)) {
      var pending := s.pending + [d.token];
      if d.token in s.pending {
        var i :| 0 <= i < |s.pending| && s.pending[i] == d.token;
        assert pending[i] == pending[|s.pending|];
      } else {
        DistinctAppend(s.pending, d.token);
        hide Distinct;
      }
    }
  }

  // A timeout message that is still on its way breaks the partition if it meets a pending download
  // that is queued locally.
  lemma LateTimeout(s: State, t: Token)
    requires Split(s)
    ensures Split(OnTimeout(s, t)) <==> !(t in s.pending && s.downloads[t].status.QueuedLocally?)
  {
    hide Sent;
    if t in s.downloads && s.downloads[t].status.QueuedLocally? && t !in s.pending {
      RemovedSplit(s, t, TimedOut);
    }
  }
}
