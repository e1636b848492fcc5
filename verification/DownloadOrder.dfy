/** Who starts when, who overtakes whom, and which response timers run. */
module DownloadOrder {
  import opened Collections
  import opened DownloadExamples
  import opened DownloadLaws
  import opened DownloadLimits
  import opened DownloadProofs
  import opened DownloadSpec

  // ----- What an event does, apart from the downloads that it starts

  // The downloads that leave.
  function Leaving(s: State, e: Event): set<Token> {
    match e
    case Completion(t, _) => if t in s.downloads then {t} else {}
    case CancelRequest(t) => if t in s.downloads then {t} else {}
    case TimeoutArrives(t) => if t in s.downloads && s.downloads[t].status == QueuedLocally then {t} else {}
    case Failure(username, filename) =>
      set t | t in s.downloads && s.downloads[t].username == username
              && (filename.Some? ==> s.downloads[t].filename == filename.value)
    case _ => {}
  }

  // The downloads whose response timer is stopped.
  function Stopped(s: State, e: Event): set<Token> {
    match e
    case CancelRequest(t) => if t in s.downloads then {t} else {}
    case Failure(_, _) => Leaving(s, e)
    case TransferRequest(t, _, _) => if t in s.downloads then {t} else {}
    case QueuePosition(t, _) => if t in s.downloads then {t} else {}
    case TransferRejected(t) => if t in s.downloads then {t} else {}
    case _ => {}
  }

  // The timers that an event takes away: those that it stops, and one that fires.
  function Gone(s: State, e: Event): set<nat> {
    if e.TimerFires? then {e.timer}
    else set t | t in Stopped(s, e) && t in s.downloads && s.downloads[t].timer.Some? :: s.downloads[t].timer.value
  }

  // The first of those who stay in the queue have started, each under a timer of its own.
  ghost predicate Serves(s: State, s': State, leaving: set<Token>, started: seq<Token>) {
    && Without(s.pending, leaving) == started + s'.pending
    && s'.active == s.active - leaving + Members(started)
    && s'.downloads.Keys == s.downloads.Keys - leaving
  }

  // Timer id is as before, unless it is gone or belongs to a download that got a new one.
  predicate TimerAt(s: State, s': State, gone: set<nat>, armed: seq<Token>, id: nat) {
    if id < s.nextTimer then
      (id in s'.timers <==> id in s.timers && id !in gone) && (id in s'.timers ==> s'.timers[id] == s.timers[id])
    else
      && (id in s'.timers <==> id < s.nextTimer + |armed|)
      && (id in s'.timers ==> id < s.nextTimer + |armed| && s'.timers[id] == armed[id - s.nextTimer])
  }

  // The download knows the timer that it got.
  predicate HandleAt(s: State, s': State, armed: seq<Token>, i: nat)
    requires i < |armed|
  {
    armed[i] in s'.downloads && s'.downloads[armed[i]].timer == Some(s.nextTimer + i)
  }

  ghost predicate Times(s: State, s': State, gone: set<nat>, armed: seq<Token>) {
    && s'.nextTimer == s.nextTimer + |armed|
    && (forall id: nat :: TimerAt(s, s', gone, armed, id))
    && (forall i | 0 <= i < |armed| :: HandleAt(s, s', armed, i))
  }

  // A state from which the first k of the queue are started.
  lemma ServesAfter(s: State, base: State, leaving: set<Token>, gone: set<nat>, k: nat)
    requires Split(base) && Timed(s) && k <= |base.pending|
    requires base.pending == Without(s.pending, leaving) && base.active == s.active - leaving
    requires base.downloads.Keys == s.downloads.Keys - leaving
    requires base.timers == s.timers - gone && base.nextTimer == s.nextTimer
    ensures var s', started := StartAll(base.(pending := base.pending[k..]), base.pending[..k]), base.pending[..k];
            && Serves(s, s', leaving, started) && Times(s, s', gone, started)
  {
    var b, started := base.(pending := base.pending[k..]), base.pending[..k];
    FirstKnown(base, k);
    ServedSlots(s, base, leaving, k);
    StartAllTimes(b, started);
    TimesFrom(s, b, StartAll(b, started), gone, started);
    hide StartAll, Without, Distinct, Split, Timed, Times, Serves, Members;
  }

  lemma FirstKnown(base: State, k: nat)
    requires Split(base) && k <= |base.pending|
    ensures Distinct(base.pending[..k]) && forall t | t in base.pending[..k] :: t in base.downloads
  {
    assert forall t | t in base.pending[..k] :: t in base.pending;
    StartedDistinct(base.pending, k);
    hide Distinct;
  }

  lemma ServedSlots(s: State, base: State, leaving: set<Token>, k: nat)
    requires k <= |base.pending| && forall t | t in base.pending[..k] :: t in base.downloads
    requires base.pending == Without(s.pending, leaving) && base.active == s.active - leaving
    requires base.downloads.Keys == s.downloads.Keys - leaving
    ensures Serves(s, StartAll(base.(pending := base.pending[k..]), base.pending[..k]), leaving, base.pending[..k])
  {
    hide StartAll, Without, Members;
    StartAllSlots(base.(pending := base.pending[k..]), base.pending[..k]);
    assert base.pending == base.pending[..k] + base.pending[k..];
  }

  lemma StartAllTimes(b: State, started: seq<Token>)
    requires Distinct(started) && (forall t | t in started :: t in b.downloads)
    requires forall id | id in b.timers :: id < b.nextTimer
    ensures Times(b, StartAll(b, started), {}, started)
  {
    hide StartAll, Members, Distinct;
    StartAllSlots(b, started);
    var s' := StartAll(b, started);
    forall id: nat ensures TimerAt(b, s', {}, started, id) {
      OneStarted(b, started, id);
    }
    StartAllDownloads(b, started);
    forall i | 0 <= i < |started| ensures HandleAt(b, s', started, i) {
      assert started[i] in b.downloads;
    }
    hide TimerAt, HandleAt;
  }

  lemma OneStarted(b: State, started: seq<Token>, id: nat)
    requires forall t | t in started :: t in b.downloads
    requires forall id | id in b.timers :: id < b.nextTimer
    ensures TimerAt(b, StartAll(b, started), {}, started, id)
  {
    hide StartAll;
    StartAllTimers(b, started, id);
  }

  lemma TimesFrom(s: State, b: State, s': State, gone: set<nat>, armed: seq<Token>)
    requires Times(b, s', {}, armed) && b.timers == s.timers - gone && b.nextTimer == s.nextTimer
    ensures Times(s, s', gone, armed)
  {
    forall id: nat ensures TimerAt(s, s', gone, armed, id) {
      assert TimerAt(b, s', {}, armed, id);
    }
    forall i | 0 <= i < |armed| ensures HandleAt(s, s', armed, i) {
      assert HandleAt(b, s', armed, i);
    }
    hide TimerAt, HandleAt;
  }

  lemma StartedDistinct(q: seq<Token>, k: nat)
    requires Distinct(q) && k <= |q|
    ensures Distinct(q[..k])
  {
  }

  // ----- Event by event

  // The queue is offered slots after the event has had its own effect.
  lemma Offered(s: State, base: State, leaving: set<Token>, gone: set<nat>) returns (started: seq<Token>)
    requires Split(base) && Timed(s)
    requires base.pending == Without(s.pending, leaving) && base.active == s.active - leaving
    requires base.downloads.Keys == s.downloads.Keys - leaving
    requires base.timers == s.timers - gone && base.nextTimer == s.nextTimer
    ensures Serves(s, DequeueNext(base), leaving, started) && Times(s, DequeueNext(base), gone, started)
  {
    hide Split, Timed, Serves, Times, Without, StartAll, DequeueNext;
    var k := DequeueStarts(base);
    started := base.pending[..k];
    ServesAfter(s, base, leaving, gone, k);
  }

  // Or it is not.
  lemma NotOffered(s: State, base: State, leaving: set<Token>, gone: set<nat>)
    requires Timed(s)
    requires base.pending == Without(s.pending, leaving) && base.active == s.active - leaving
    requires base.downloads.Keys == s.downloads.Keys - leaving
    requires base.timers == s.timers - gone && base.nextTimer == s.nextTimer
    ensures Serves(s, base, leaving, []) && Times(s, base, gone, [])
  {
    hide Without;
    assert Members([]) == {};
    assert [] + base.pending == base.pending;
    forall id: nat ensures TimerAt(s, base, gone, [], id) {
    }
    hide TimerAt;
  }

  lemma Nobody(s: State)
    ensures Without(s.pending, {}) == s.pending && s.active - {} == s.active
    ensures s.downloads.Keys - {} == s.downloads.Keys && s.timers - {} == s.timers
  {
    WithoutNobody(s.pending, {});
  }

  lemma CompletionServes(s: State, t: Token, status: Status, early: set<Token>) returns (started: seq<Token>)
    requires Inv(s, early) && t !in s.pending && status.Terminal()
    ensures var leaving := if t in s.downloads then {t} else {};
            Serves(s, OnCompleted(s, t, status), leaving, started) && Times(s, OnCompleted(s, t, status), {}, started)
  {
    Nobody(s);
    if t in s.downloads {
      hide Traced, Timed, Split, SentAll, DequeueNext, OnCompleted, Without;
      CompletionIsEnd(s, t, status);
      EndedSplit(s, {t}, status);
      started := Offered(s, Ended(s, {t}, status), {t}, {});
    } else {
      assert s.downloads - {t} == s.downloads && s.active - {t} == s.active;
      hide Traced, Timed, Split, DequeueNext, Without;
      started := Offered(s, s, {}, {});
    }
  }

  lemma FailureServes(s: State, username: string, filename: Option<string>, early: set<Token>)
    returns (started: seq<Token>)
    requires Inv(s, early)
    ensures var e := Failure(username, filename);
            Serves(s, Next(s, e), Leaving(s, e), started) && Times(s, Next(s, e), Gone(s, e), started)
  {
    var e, failed := Failure(username, filename), Matching(s.downloads, username, filename);
    var ids := Handles(s.downloads, failed);
    assert Leaving(s, e) == failed && Gone(s, e) == ids;
    Nobody(s);
    var base := Ended(s, failed, Failed).(timers := s.timers - ids);
    EndedSplit(s, failed, Failed);
    FewerTimers(Ended(s, failed, Failed), ids);
    hide Traced, Timed, Split, SentAll, DequeueNext, Without, Matching, Handles, Leaving, Gone;
    if failed == {} {
      started := [];
      NotOffered(s, base, failed, ids);
    } else {
      started := Offered(s, base, failed, ids);
    }
  }

  lemma UnknownCancel(s: State, t: Token, early: set<Token>)
    requires Inv(s, early) && t !in s.downloads
    ensures OnCancel(s, t) == s
  {
    WithoutNobody(s.pending, {t});
    hide Without, Timed, Traced, Flow;
  }

  // The download leaves with its timer, and a slot that it held is offered.
  lemma KnownCancel(s: State, t: Token, ids: set<nat>)
    requires t in s.downloads && ids == if s.downloads[t].timer.Some? then {s.downloads[t].timer.value} else {}
    ensures var base := Ended(s, {t}, Cancelled).(timers := s.timers - ids);
            OnCancel(s, t) == if t in s.active then DequeueNext(base) else base
  {
    AbortedIs(s.timers, s.downloads[t].timer);
    SentOne(s.sent, t, Cancelled);
    hide SentAll, DequeueNext, Without, Aborted;
    if t !in s.active {
      assert s.active - {t} == s.active;
    }
  }

  lemma CancelServes(s: State, t: Token, early: set<Token>) returns (started: seq<Token>)
    requires Inv(s, early)
    ensures var e := CancelRequest(t);
            Serves(s, Next(s, e), Leaving(s, e), started) && Times(s, Next(s, e), Gone(s, e), started)
  {
    var e := CancelRequest(t);
    if t !in s.downloads {
      UnknownCancel(s, t, early);
      GoneNone(s, e);
      Nobody(s);
      hide OnCancel, Serves, Times, Gone, Split, Timed, Traced, Flow, Without;
      started := [];
      NotOffered(s, s, {}, {});
    } else {
      GoneOne(s, e, t);
      var ids := Gone(s, e);
      KnownCancel(s, t, ids);
      var base := Ended(s, {t}, Cancelled).(timers := s.timers - ids);
      EndedSplit(s, {t}, Cancelled);
      FewerTimers(Ended(s, {t}, Cancelled), ids);
      hide Traced, Timed, Split, Flow, SentAll, DequeueNext, Without, Gone, OnCancel, Serves, Times;
      if t in s.active {
        started := Offered(s, base, {t}, ids);
      } else {
        assert s.active - {t} == s.active;
        started := [];
        NotOffered(s, base, {t}, ids);
      }
    }
  }

  lemma GoneNone(s: State, e: Event)
    requires Stopped(s, e) == {} && !e.TimerFires?
    ensures Gone(s, e) == {}
  {
    hide Stopped;
  }

  lemma TimeoutIsCompletion(s: State, t: Token)
    requires t in s.downloads && s.downloads[t].status.QueuedLocally? && t in s.active
    ensures OnTimeout(s, t) == OnCompleted(s, t, TimedOut)
  {
    hide Sent, DequeueNext, Removed;
  }

  lemma InboxApart(s: State, inbox: multiset<Token>, s': State, leaving: set<Token>, gone: set<nat>, ts: seq<Token>)
    ensures Serves(s.(inbox := inbox), s', leaving, ts) ==> Serves(s, s', leaving, ts)
    ensures Times(s.(inbox := inbox), s', gone, ts) ==> Times(s, s', gone, ts)
  {
    hide Without;
    forall id: nat ensures TimerAt(s.(inbox := inbox), s', gone, ts, id) <==> TimerAt(s, s', gone, ts, id) {
    }
    forall i | 0 <= i < |ts| ensures HandleAt(s.(inbox := inbox), s', ts, i) <==> HandleAt(s, s', ts, i) {
    }
    hide TimerAt, HandleAt;
  }

  lemma NoLongerWaits(s: State, t: Token, early: set<Token>)
    requires Inv(s, early) && t in s.inbox
    ensures Inv(s.(inbox := s.inbox - multiset{t}), early)
    ensures t in s.downloads && s.downloads[t].status.QueuedLocally? ==> t in s.active && t !in s.pending
  {
    hide Open, Closed, Told, Distinct;
  }

  lemma TimeoutServes(s: State, t: Token, early: set<Token>) returns (started: seq<Token>)
    requires Inv(s, early) && t in s.inbox
    ensures var leaving := if t in s.downloads && s.downloads[t].status.QueuedLocally? then {t} else {};
            var s' := OnTimeout(s.(inbox := s.inbox - multiset{t}), t);
            Serves(s, s', leaving, started) && Times(s, s', {}, started)
  {
    var s1 := s.(inbox := s.inbox - multiset{t});
    NoLongerWaits(s, t, early);
    if t in s.downloads && s.downloads[t].status.QueuedLocally? {
      hide Inv, OnTimeout, OnCompleted, Serves, Times;
      TimeoutIsCompletion(s1, t);
      started := CompletionServes(s1, t, TimedOut, early);
      InboxApart(s, s1.inbox, OnTimeout(s1, t), {t}, {}, started);
    } else {
      hide Split, Traced, Flow, Timed, Without, Serves, Times;
      Nobody(s);
      started := [];
      NotOffered(s, s1, {}, {});
    }
  }

  lemma LoginServes(s: State, early: set<Token>) returns (started: seq<Token>)
    requires Inv(s, early)
    ensures Serves(s, Next(s, LoginSucceeded), {}, started) && Times(s, Next(s, LoginSucceeded), {}, started)
  {
    var base := s.(loggedIn := true);
    Nobody(s);
    assert Split(base);
    hide Split, Timed, Traced, Drain, Without, Serves, Times, StartAll;
    var k := DrainStarts(base);
    started := base.pending[..k];
    ServesAfter(s, base, {}, {}, k);
  }

  lemma ArmedServes(s: State, s1: State, t: Token, gone: set<nat>)
    requires Serves(s, s1, {}, []) && Times(s, s1, gone, []) && t in s1.downloads
    ensures Serves(s, Armed(s1, t), {}, []) && Times(s, Armed(s1, t), gone, [t])
  {
    hide Without;
    forall id: nat ensures TimerAt(s, Armed(s1, t), gone, [t], id) {
      assert TimerAt(s, s1, gone, [], id);
    }
    hide TimerAt;
  }

  // The timer of t is stopped, and it may get a new one; nobody starts.
  lemma QueuedServes(s: State, t: Token, place: Option<nat>)
    requires Timed(s) && t in s.downloads
    ensures var s' := QueuedAt(s, t, place);
            var gone := if s.downloads[t].timer.Some? then {s.downloads[t].timer.value} else {};
            && Serves(s, s', {}, []) && Times(s, s', gone, []) && t in s'.downloads
            && Serves(s, Armed(s', t), {}, []) && Times(s, Armed(s', t), gone, [t])
  {
    AbortedIs(s.timers, s.downloads[t].timer);
    Nobody(s);
    var gone := if s.downloads[t].timer.Some? then {s.downloads[t].timer.value} else {};
    hide Aborted, Without, Sent, Serves, Times, Armed, Timed;
    NotOffered(s, QueuedAt(s, t, place), {}, gone);
    ArmedServes(s, QueuedAt(s, t, place), t, gone);
  }

  lemma GoneOne(s: State, e: Event, t: Token)
    requires t in s.downloads && Stopped(s, e) == {t} && !e.TimerFires?
    ensures Gone(s, e) == if s.downloads[t].timer.Some? then {s.downloads[t].timer.value} else {}
  {
    hide Stopped;
  }

  // Every event but a request serves the queue in its order, and keeps the timers of all but those it stops.
  lemma EventServes(s: State, e: Event, early: set<Token>) returns (started: seq<Token>, armed: seq<Token>)
    requires Inv(s, early) && Possible(s, e) && Fair(s, e) && !e.Request?
    ensures Serves(s, Next(s, e), Leaving(s, e), started) && Times(s, Next(s, e), Gone(s, e), armed)
    ensures armed == if e.QueuePosition? || e.TransferRejected? then [e.token] else started
    ensures started != [] ==> !e.TransferRequest? && !e.QueuePosition? && !e.TransferRejected? && !e.TimerFires?
  {
    hide Serves, Times, Without, OnCompleted, FailMatching, OnCancel, OnTimeout, QueuedAt, Armed, Drain, Gone;
    started := [];
    match e {
      case Completion(t, status) => GoneNone(s, e); started := CompletionServes(s, t, status, early);
      case Failure(username, filename) => started := FailureServes(s, username, filename, early);
      case CancelRequest(t) => started := CancelServes(s, t, early);
      case TimeoutArrives(t) => GoneNone(s, e); started := TimeoutServes(s, t, early);
      case LoginSucceeded => GoneNone(s, e); started := LoginServes(s, early);
      case TransferRequest(t, _, _) => GoneOne(s, e, t); TransferServes(s, e);
      case QueuePosition(t, place) => GoneOne(s, e, t); QueuedServes(s, t, Some(place));
      case TransferRejected(t) => GoneOne(s, e, t); QueuedServes(s, t, None);
      case TimerFires(id) => FiresServes(s, id);
      case ServerDisconnected => GoneNone(s, e); DisconnectServes(s);
    }
    armed := if e.QueuePosition? || e.TransferRejected? then [e.token] else started;
  }

  lemma TransferServes(s: State, e: Event)
    requires Timed(s) && e.TransferRequest? && e.token in s.downloads
    ensures var gone := if s.downloads[e.token].timer.Some? then {s.downloads[e.token].timer.value} else {};
            Serves(s, Next(s, e), {}, []) && Times(s, Next(s, e), gone, [])
  {
    QueuedServes(s, e.token, None);
    hide Without, Aborted, Sent;
  }

  lemma FiresServes(s: State, id: nat)
    requires Timed(s) && id in s.timers
    ensures var e := TimerFires(id); Serves(s, Next(s, e), {}, []) && Times(s, Next(s, e), Gone(s, e), [])
  {
    Nobody(s);
    NotOffered(s, Next(s, TimerFires(id)), {}, {id});
    hide Without;
  }

  lemma DisconnectServes(s: State)
    requires Timed(s)
    ensures Serves(s, Next(s, ServerDisconnected), {}, []) && Times(s, Next(s, ServerDisconnected), {}, [])
  {
    Nobody(s);
    NotOffered(s, Next(s, ServerDisconnected), {}, {});
    hide Without;
  }

  // A request starts its download at once if there is room, and else puts it at the end of the queue.
  lemma RequestServes(s: State, d: Download)
    requires Timed(s) && d.token !in s.sent && Possible(s, Request(d))
    ensures var s', now := Next(s, Request(d)), s.loggedIn && Room(s);
            && s'.pending == s.pending + (if now then [] else [d.token])
            && s'.active == s.active + (if now then {d.token} else {})
            && s'.downloads.Keys == s.downloads.Keys + {d.token}
            && Times(s, s', {}, if now then [d.token] else [])
  {
    hide Sent, Room;
    Nobody(s);
    var a := Accepted(s, d);
    assert d.token in a.downloads;
    assert forall id | id in a.timers :: id < a.nextTimer;
    StartedDistinct([d.token], 1);
    StartAllTimes(a, [d.token]);
    StartAllSlots(a, [d.token]);
    StartOnly(a, [d.token]);
    TimesFrom(s, a, Initiate(a, d.token), {}, [d.token]);
    Waits(s, a.(pending := s.pending + [d.token]));
    hide Initiate, Times, Timed, StartAll;
    assert Members([d.token]) == {d.token};
  }

  lemma Waits(s: State, s': State)
    requires Timed(s)
    requires s'.timers == s.timers && s'.nextTimer == s.nextTimer
    ensures Times(s, s', {}, [])
  {
    forall id: nat ensures TimerAt(s, s', {}, [], id) {
    }
    hide TimerAt;
  }

  // ----- First come, first served, as far as it goes

  // Somebody waits on while another starts that was not ahead in the queue.
  ghost predicate Overtakes(s: State, s': State) {
    exists i, u :: 0 <= i < |s.pending| && s.pending[i] in s'.pending
                   && u in s'.active && u !in s.active && u !in s.pending[..i]
  }

  lemma CutAt(q: seq<Token>, gone: set<Token>, i: nat)
    requires i < |q| && q[i] !in gone
    ensures Without(q, gone) == Without(q[..i], gone) + [q[i]] + Without(q[i + 1..], gone)
  {
    assert q == q[..i + 1] + q[i + 1..];
    WithoutConcat(q[..i + 1], q[i + 1..], gone);
    assert q[..i + 1][..i] == q[..i];
  }

  // Of two in a queue, the one that comes first among those who stay came first before.
  lemma StillAhead(q: seq<Token>, gone: set<Token>, a: seq<Token>, b: seq<Token>, i: nat, u: Token)
    requires Distinct(q) && Without(q, gone) == a + b && i < |q| && q[i] in b && u in a
    ensures u in q[..i]
  {
    hide Without, Distinct;
    WithoutMembers(q, gone);
    WithoutDistinct(q, gone);
    assert q[i] in a + b;
    CutAt(q, gone, i);
    InFront(Without(q[..i], gone), q[i], Without(q[i + 1..], gone), a, b, u);
    WithoutMembers(q[..i], gone);
  }

  lemma InFront(front: seq<Token>, x: Token, back: seq<Token>, a: seq<Token>, b: seq<Token>, u: Token)
    requires front + [x] + back == a + b && Distinct(a + b) && x in b && u in a
    ensures u in front
  {
    var all := a + b;
    var j :| 0 <= j < |b| && b[j] == x;
    var k :| 0 <= k < |a| && a[k] == u;
    assert all[|a| + j] == x == all[|front|];
    assert all[k] == u;
    assert front[k] == u;
  }

  lemma ServedInOrder(s: State, s': State, leaving: set<Token>, started: seq<Token>)
    requires Serves(s, s', leaving, started) && Distinct(s.pending)
    ensures !Overtakes(s, s')
  {
    hide Without, Distinct;
    forall i, u | 0 <= i < |s.pending| && s.pending[i] in s'.pending && u in s'.active && u !in s.active
      ensures u in s.pending[..i]
    {
      StillAhead(s.pending, leaving, started, s'.pending, i, u);
    }
  }

  // A download overtakes others exactly if it is requested while a slot is free although others wait.
  lemma OvertakesIff(s: State, e: Event, early: set<Token>)
    requires Inv(s, early) && Possible(s, e) && Fair(s, e)
    ensures Overtakes(s, Next(s, e)) <==> e.Request? && s.loggedIn && Room(s) && s.pending != []
  {
    hide Inv, Next, Serves, Times, Room;
    WellFormed(s, early);
    if e.Request? {
      RequestServes(s, e.d);
      RequestOvertakes(s, Next(s, e), e.d.token, early);
    } else {
      var started, armed := EventServes(s, e, early);
      ServedInOrder(s, Next(s, e), Leaving(s, e), started);
    }
  }

  lemma WellFormed(s: State, early: set<Token>)
    requires Inv(s, early)
    ensures Distinct(s.pending) && Timed(s)
    ensures forall t | t in s.active :: t in s.sent
  {
    hide Distinct, Open, Closed, Told, Flow;
  }

  lemma RequestOvertakes(s: State, s': State, t: Token, early: set<Token>)
    requires Inv(s, early) && t !in s.sent
    requires var now := s.loggedIn && Room(s);
             && s'.pending == s.pending + (if now then [] else [t])
             && s'.active == s.active + (if now then {t} else {})
    ensures Overtakes(s, s') <==> s.loggedIn && Room(s) && s.pending != []
  {
    WellFormed(s, early);
    hide Inv, Room;
    if s.loggedIn && Room(s) && s.pending != [] {
      assert s.pending[0] in s'.pending && t !in s.pending[..0];
    }
  }

  // So along runs whose failures free little nobody is overtaken.
  lemma NobodyOvertaken(maxConcurrent: Option<nat>, requested: seq<Download>, events: seq<Event>, e: Event)
    requires FreshRequests(requested)
    requires Run(Start(maxConcurrent, requested), events) && FairRun(Start(maxConcurrent, requested), events)
    requires LittleFreed(Start(maxConcurrent, requested), events)
    requires var s := After(Start(maxConcurrent, requested), events); Possible(s, e) && Fair(s, e)
    ensures var s := After(Start(maxConcurrent, requested), events); !Overtakes(s, Next(s, e))
  {
    var s0 := Start(maxConcurrent, requested);
    StartInv(maxConcurrent, requested);
    RunKeeps(s0, events, s0.downloads.Keys);
    BusyAlways(maxConcurrent, requested, events);
    hide Inv, Start, Run, FairRun, After, LittleFreed, Next, Possible, Fair, Room, Overtakes;
    OvertakesIff(After(s0, events), e, s0.downloads.Keys);
  }

  // After the run that leaves a slot free, the next request overtakes the download that waits.
  lemma OvertakingExample() returns (events: seq<Event>)
    ensures Run(Start(Some(2), FourWanted()), events) && FairRun(Start(Some(2), FourWanted()), events)
    ensures var s := After(Start(Some(2), FourWanted()), events);
            forall d: Download | d.token !in s.sent && d.timer.None? ::
              var s' := Next(s, Request(d)); s'.pending == [4] && d.token in s'.active && Overtakes(s, s')
  {
    events := StallExample();
    var s0 := Start(Some(2), FourWanted());
    StartInv(Some(2), FourWanted());
    RunKeeps(s0, events, s0.downloads.Keys);
    var s := After(s0, events);
    hide Start, FourWanted, Inv, Run, FairRun, After, Next, Room, Overtakes;
    forall d: Download | d.token !in s.sent && d.timer.None?
      ensures Next(s, Request(d)).pending == [4] && d.token in Next(s, Request(d)).active
      ensures Overtakes(s, Next(s, Request(d)))
    {
      WellFormed(s, s0.downloads.Keys);
      RequestServes(s, d);
      OvertakesIff(s, Request(d), s0.downloads.Keys);
    }
  }

  // While somebody waits at a logged-in manager that keeps its slots busy, exactly as many slots are taken as allowed.
  lemma AllSlotsTaken(s: State)
    requires Cap(s) && Busy(s) && s.loggedIn && s.pending != []
    ensures s.maxConcurrent == Some(|s.active|)
  {
  }

  // Between losing the server and the next login nobody starts.
  lemma NobodyStartsOffline(s: State, e: Event)
    requires Possible(s, e)
    ensures Next(s, ServerDisconnected).loggedIn == false && Next(s, LoginSucceeded).loggedIn
    ensures !s.loggedIn && !e.LoginSucceeded? ==> Next(s, e).active <= s.active && !Next(s, e).loggedIn
  {
    DrainSettings(s.(loggedIn := true));
    hide Without, Handles, Room, Aborted, Drain, Sent, SentAll, Matching;
  }

  // ----- One timer each

  // The timer that runs for a known download is the one that the download knows.
  ghost predicate Tidy(s: State) {
    forall id | id in s.timers && s.timers[id] in s.downloads :: s.downloads[s.timers[id]].timer == Some(id)
  }

  predicate Running(s: State, t: Token) {
    exists id | id in s.timers :: s.timers[id] == t
  }

  // A known download whose timer was stopped, and not replaced, has none; one that got a timer has that one.
  lemma TimersOf(s: State, e: Event, t: Token, early: set<Token>)
    requires Inv(s, early) && Tidy(s) && Possible(s, e) && Fair(s, e) && !e.Request? && t in s.downloads
    ensures (e.TransferRequest? && t == e.token) || t in Leaving(s, e) * Stopped(s, e) ==> !Running(Next(s, e), t)
    ensures (e.QueuePosition? || e.TransferRejected?) && t == e.token ==> Running(Next(s, e), t)
    ensures t in Next(s, e).active && t !in s.active ==> Running(Next(s, e), t)
  {
    var started, armed := EventServes(s, e, early);
    var s' := Next(s, e);
    StartedAreNew(s, s', Leaving(s, e), started, t);
    hide Next, Inv, Serves, Times, Running, Tidy, Gone;
    if t in armed {
      NowRuns(s, s', Gone(s, e), armed, t);
    } else if t in Stopped(s, e) {
      WellFormed(s, early);
      NoLongerRuns(s, e, s', armed, t);
    }
  }

  lemma NowRuns(s: State, s': State, gone: set<nat>, armed: seq<Token>, t: Token)
    requires Times(s, s', gone, armed) && t in armed
    ensures Running(s', t) && t in s'.downloads
  {
    var i :| 0 <= i < |armed| && armed[i] == t;
    assert TimerAt(s, s', gone, armed, s.nextTimer + i) && HandleAt(s, s', armed, i);
  }

  lemma NoLongerRuns(s: State, e: Event, s': State, armed: seq<Token>, t: Token)
    requires Times(s, s', Gone(s, e), armed) && Tidy(s) && Timed(s)
    requires t in Stopped(s, e) && t in s.downloads && t !in armed && !e.TimerFires?
    ensures !Running(s', t)
  {
    hide Times, Stopped, Timed;
    forall id | id in s'.timers ensures s'.timers[id] != t {
      OneTimer(s, s', Gone(s, e), armed, id);
    }
  }

  lemma OneTimer(s: State, s': State, gone: set<nat>, armed: seq<Token>, id: nat)
    requires Times(s, s', gone, armed) && id in s'.timers
    ensures (id in s.timers && id !in gone && s'.timers[id] == s.timers[id]) || s'.timers[id] in armed
  {
    assert TimerAt(s, s', gone, armed, id);
  }

  lemma StartedAreNew(s: State, s': State, leaving: set<Token>, started: seq<Token>, t: Token)
    requires Serves(s, s', leaving, started)
    ensures t in s'.active && t !in s.active ==> t in started
    ensures t in leaving ==> t !in s'.downloads
  {
    hide Without;
  }

  // ----- When a second timer comes to run

  // The timer and the status of t are as before, or t came from the queue and is queued locally.
  predicate Untouched(s: State, s': State, t: Token) {
    t in s.downloads && t in s'.downloads ==>
      || (s'.downloads[t].timer == s.downloads[t].timer && s'.downloads[t].status == s.downloads[t].status)
      || (t in s.pending && t in s'.active && s'.downloads[t].status == QueuedLocally)
  }

  lemma DequeueUntouched(s: State, t: Token)
    ensures Untouched(s, DequeueNext(s), t)
  {
  }

  lemma {:induction false} DrainUntouched(s: State, t: Token)
    ensures Untouched(s, Drain(s), t)
    decreases |s.pending|
  {
    if Room(s) && s.pending != [] {
      var s1 := Initiate(s.(pending := s.pending[1..]), s.pending[0]);
      DrainUntouched(s1, t);
      DrainKeepsActive(s1);
    }
  }

  lemma {:induction false} DrainKeepsActive(s: State)
    ensures s.active <= Drain(s).active
    decreases |s.pending|
  {
    if Room(s) && s.pending != [] {
      DrainKeepsActive(Initiate(s.(pending := s.pending[1..]), s.pending[0]));
    }
  }

  lemma LessUntouched(s: State, base: State, s': State, t: Token)
    requires Untouched(base, s', t) && s'.downloads.Keys <= base.downloads.Keys
    requires forall u | u in base.downloads :: u in s.downloads && base.downloads[u] == s.downloads[u]
    requires forall u | u in base.pending :: u in s.pending
    ensures Untouched(s, s', t)
  {
  }

  // So it is with every download that no peer and no failure names.
  lemma EventUntouched(s: State, e: Event, t: Token)
    requires Possible(s, e) && !e.Request? && t !in Stopped(s, e)
    ensures Untouched(s, Next(s, e), t)
  {
    hide Without, Handles, Room, Aborted, Drain, DequeueNext, Sent, SentAll, Matching, Untouched;
    match e {
      case Completion(u, status) =>
        var base := Removed(if u in s.downloads then s.(sent := Sent(s.sent, u, status)) else s, {u});
        Offering(s, base, t);
      case Failure(username, filename) =>
        var failed := Matching(s.downloads, username, filename);
        var base := Removed(s.(sent := SentAll(s.sent, failed, Failed), pending := Without(s.pending, failed),
                               timers := s.timers - Handles(s.downloads, failed)), failed);
        WithoutMembers(s.pending, failed);
        Offering(s, base, t);
      case CancelRequest(u) =>
        WithoutMembers(s.pending, {u});
        var s1 := s.(pending := Without(s.pending, {u}));
        Kept(s, s1, t);
        if u in s.downloads {
          Offering(s, Removed(s1.(timers := Aborted(s.timers, s.downloads[u].timer),
                                  sent := Sent(s.sent, u, Cancelled)), {u}), t);
        }
      case TimeoutArrives(u) =>
        var s1 := s.(inbox := s.inbox - multiset{u});
        Kept(s, s1, t);
        Offering(s, Removed(s1.(sent := Sent(s.sent, u, TimedOut)), {u}), t);
      case LoginSucceeded =>
        DrainUntouched(s.(loggedIn := true), t);
        LoginUntouched(s, Next(s, e), t);
      case TransferRequest(_, _, _) => Kept(s, Next(s, e), t);
      case QueuePosition(_, _) => Kept(s, Next(s, e), t);
      case TransferRejected(_) => Kept(s, Next(s, e), t);
      case TimerFires(_) => Kept(s, Next(s, e), t);
      case ServerDisconnected => Kept(s, Next(s, e), t);
    }
  }

  lemma LoginUntouched(s: State, s': State, t: Token)
    requires Untouched(s.(loggedIn := true), s', t)
    ensures Untouched(s, s', t)
  {
  }

  lemma Kept(s: State, s': State, t: Token)
    requires t in s.downloads && t in s'.downloads ==>
               s'.downloads[t].timer == s.downloads[t].timer && s'.downloads[t].status == s.downloads[t].status
    ensures Untouched(s, s', t)
  {
  }

  lemma Offering(s: State, base: State, t: Token)
    requires forall u | u in base.downloads :: u in s.downloads && base.downloads[u] == s.downloads[u]
    requires forall u | u in base.pending :: u in s.pending
    ensures Untouched(s, base, t) && Untouched(s, DequeueNext(base), t)
  {
    DequeueUntouched(base, t);
    DequeueKeys(base);
    hide DequeueNext;
    LessUntouched(s, base, DequeueNext(base), t);
  }

  // What the events agree on, for the lemmas below.
  ghost predicate Served(s: State, e: Event, started: seq<Token>, armed: seq<Token>)
    requires Possible(s, e)
  {
    && !e.Request? && Timed(s)
    && (forall t | t in s.pending :: t in s.downloads && t !in s.active)
    && Serves(s, Next(s, e), Leaving(s, e), started) && Times(s, Next(s, e), Gone(s, e), armed)
    && armed == (if e.QueuePosition? || e.TransferRejected? then [e.token] else started)
    && (started != [] ==> !e.TransferRequest? && !e.QueuePosition? && !e.TransferRejected? && !e.TimerFires?)
  }

  lemma ServedBy(s: State, e: Event, early: set<Token>) returns (started: seq<Token>, armed: seq<Token>)
    requires Inv(s, early) && Possible(s, e) && Fair(s, e) && !e.Request?
    ensures Served(s, e, started, armed)
  {
    started, armed := EventServes(s, e, early);
    Unstopped(s, early);
    hide Next, Serves, Times, Distinct, Open, Closed, Told, Flow, Leaving, Gone;
  }

  lemma Unstopped(s: State, early: set<Token>)
    requires Inv(s, early)
    ensures Timed(s) && forall t | t in s.pending :: t in s.downloads && t !in s.active
  {
  }

  // The handle of a download that got no timer is as before, unless its timer was stopped.
  lemma HandleStays(s: State, e: Event, started: seq<Token>, armed: seq<Token>, t: Token)
    requires Possible(s, e) && Served(s, e, started, armed) && t in Next(s, e).downloads && t !in armed
    ensures t in s.downloads
    ensures if t in Stopped(s, e) then Next(s, e).downloads[t].timer.None?
            else Next(s, e).downloads[t].timer == s.downloads[t].timer
  {
    var s' := Next(s, e);
    KnownBefore(s, s', Leaving(s, e), started, t);
    StartedAreNew(s, s', Leaving(s, e), started, t);
    if t in Stopped(s, e) {
      StoppedHandle(s, e, t);
    } else {
      EventUntouched(s, e, t);
      hide Next, Serves, Times, Timed, Stopped, Leaving;
    }
  }

  lemma StoppedHandle(s: State, e: Event, t: Token)
    requires Possible(s, e) && t in Stopped(s, e) && t in Next(s, e).downloads && t !in Leaving(s, e)
    requires !e.QueuePosition? && !e.TransferRejected?
    ensures Next(s, e).downloads[t].timer.None?
  {
    hide Sent, Aborted;
  }

  // A timer that a known download knows runs for that download.
  ghost predicate Named(s: State) {
    forall t | t in s.downloads && s.downloads[t].timer.Some? ::
      var id := s.downloads[t].timer.value;
      id < s.nextTimer && (id in s.timers ==> s.timers[id] == t)
  }

  lemma EventNamed(s: State, e: Event, early: set<Token>)
    requires Inv(s, early) && Named(s) && Possible(s, e) && Fair(s, e) && !e.Request?
    ensures Named(Next(s, e))
  {
    var started, armed := ServedBy(s, e, early);
    var s' := Next(s, e);
    hide Next, Inv, Serves, Times, Timed, Stopped, Leaving, Gone, Served;
    forall t | t in s'.downloads && s'.downloads[t].timer.Some?
      ensures var id := s'.downloads[t].timer.value; id < s'.nextTimer && (id in s'.timers ==> s'.timers[id] == t)
    {
      NamedNow(s, e, started, armed, t);
    }
  }

  lemma TimesServed(s: State, e: Event, started: seq<Token>, armed: seq<Token>, id: nat)
    requires Possible(s, e) && Served(s, e, started, armed)
    ensures TimerAt(s, Next(s, e), Gone(s, e), armed, id) && Next(s, e).nextTimer == s.nextTimer + |armed|
    ensures s.nextTimer <= id < s.nextTimer + |armed| ==> HandleAt(s, Next(s, e), armed, id - s.nextTimer)
    ensures id in s.timers ==> id < s.nextTimer
  {
    hide Next, Serves, TimerAt, HandleAt, Stopped, Leaving, Gone;
  }

  lemma NamedNow(s: State, e: Event, started: seq<Token>, armed: seq<Token>, t: Token)
    requires Possible(s, e) && Served(s, e, started, armed) && Named(s)
    requires t in Next(s, e).downloads && Next(s, e).downloads[t].timer.Some?
    ensures var s' := Next(s, e);
            var id := s'.downloads[t].timer.value; id < s'.nextTimer && (id in s'.timers ==> s'.timers[id] == t)
  {
    var s', gone := Next(s, e), Gone(s, e);
    var id := s'.downloads[t].timer.value;
    hide Next, Served, Gone, Stopped, TimerAt, HandleAt, Named;
    TimesServed(s, e, started, armed, id);
    if t in armed {
      var i :| 0 <= i < |armed| && armed[i] == t;
      TimesServed(s, e, started, armed, s.nextTimer + i);
      NamedNew(s, s', gone, armed, i);
    } else {
      HandleStays(s, e, started, armed, t);
      NamedOld(s, s', gone, armed, t, id);
    }
  }

  lemma NamedNew(s: State, s': State, gone: set<nat>, armed: seq<Token>, i: nat)
    requires i < |armed| && s'.nextTimer == s.nextTimer + |armed|
    requires TimerAt(s, s', gone, armed, s.nextTimer + i) && HandleAt(s, s', armed, i)
    ensures s'.downloads[armed[i]].timer == Some(s.nextTimer + i)
    ensures var id := s.nextTimer + i; id < s'.nextTimer && (id in s'.timers ==> s'.timers[id] == armed[i])
  {
  }

  lemma NamedOld(s: State, s': State, gone: set<nat>, armed: seq<Token>, t: Token, id: nat)
    requires Named(s) && TimerAt(s, s', gone, armed, id) && s'.nextTimer == s.nextTimer + |armed|
    requires t in s.downloads && s.downloads[t].timer == Some(id)
    ensures id < s'.nextTimer && (id in s'.timers ==> s'.timers[id] == t)
  {
  }

  // One timer each stays so exactly if nobody starts whose timer, armed while it waited, still runs.
  lemma TidyIff(s: State, e: Event, early: set<Token>)
    requires Inv(s, early) && Tidy(s) && Named(s) && Possible(s, e) && Fair(s, e) && !e.Request?
    ensures Tidy(Next(s, e)) <==> forall t | t in Next(s, e).active && t !in s.active :: !Running(s, t)
  {
    var started, armed := ServedBy(s, e, early);
    var s' := Next(s, e);
    hide Next, Inv, Times, Serves, Timed, Stopped, Leaving, Gone, Served;
    if forall t | t in s'.active && t !in s.active :: !Running(s, t) {
      forall id | id in s'.timers && s'.timers[id] in s'.downloads
        ensures s'.downloads[s'.timers[id]].timer == Some(id)
      {
        StillTidy(s, e, started, armed, id);
      }
    } else {
      var t :| t in s'.active && t !in s.active && Running(s, t);
      var id :| id in s.timers && s.timers[id] == t;
      SecondTimer(s, e, started, armed, t, id);
    }
  }

  lemma StillTidy(s: State, e: Event, started: seq<Token>, armed: seq<Token>, id: nat)
    requires Possible(s, e) && Served(s, e, started, armed) && Tidy(s)
    requires forall t | t in Next(s, e).active && t !in s.active :: !Running(s, t)
    requires id in Next(s, e).timers && Next(s, e).timers[id] in Next(s, e).downloads
    ensures Next(s, e).downloads[Next(s, e).timers[id]].timer == Some(id)
  {
    var s', gone := Next(s, e), Gone(s, e);
    var t := s'.timers[id];
    hide Next, Served, Gone, Stopped, TimerAt, HandleAt, Tidy, Running;
    TimesServed(s, e, started, armed, id);
    EarlierTimer(s, s', gone, armed, id);
    if id < s.nextTimer {
      StillRuns(s, e, started, armed, t, id);
    }
  }

  lemma EarlierTimer(s: State, s': State, gone: set<nat>, armed: seq<Token>, id: nat)
    requires TimerAt(s, s', gone, armed, id) && id in s'.timers
    requires s.nextTimer <= id < s.nextTimer + |armed| ==> HandleAt(s, s', armed, id - s.nextTimer)
    ensures id < s.nextTimer ==> id in s.timers && id !in gone && s'.timers[id] == s.timers[id]
    ensures id >= s.nextTimer ==> s'.timers[id] in s'.downloads && s'.downloads[s'.timers[id]].timer == Some(id)
  {
  }

  // A timer that runs on was not stopped, and its download has not got another.
  lemma StillRuns(s: State, e: Event, started: seq<Token>, armed: seq<Token>, t: Token, id: nat)
    requires Possible(s, e) && Served(s, e, started, armed) && Tidy(s)
    requires forall t | t in Next(s, e).active && t !in s.active :: !Running(s, t)
    requires id in s.timers && id !in Gone(s, e) && s.timers[id] == t && t in Next(s, e).downloads
    ensures Next(s, e).downloads[t].timer == Some(id)
  {
    assert Running(s, t);
    hide Next, Served, Stopped, Running;
    if t in armed {
      RearmedStopped(s, e, started, armed, t);
    } else {
      HandleStays(s, e, started, armed, t);
    }
  }

  // A download that got a timer has started, or its old timer was stopped.
  lemma RearmedStopped(s: State, e: Event, started: seq<Token>, armed: seq<Token>, t: Token)
    requires Possible(s, e) && Served(s, e, started, armed) && t in armed
    ensures t in s.downloads && (t in Stopped(s, e) || (t in Next(s, e).active && t !in s.active))
  {
    if !e.QueuePosition? && !e.TransferRejected? {
      StartedWaited(s, Next(s, e), Leaving(s, e), started, t);
    }
    hide Next, Times, Timed, Leaving, Gone;
  }

  lemma StartedWaited(s: State, s': State, leaving: set<Token>, started: seq<Token>, t: Token)
    requires Serves(s, s', leaving, started) && t in started
    ensures t in s.pending && t in s'.active
  {
    WithoutMembers(s.pending, leaving);
    hide Without;
    assert t in started + s'.pending;
  }

  lemma KnownBefore(s: State, s': State, leaving: set<Token>, started: seq<Token>, t: Token)
    requires Serves(s, s', leaving, started)
    ensures t in s'.downloads ==> t in s.downloads
  {
    hide Without;
    assert s'.downloads.Keys <= s.downloads.Keys;
  }

  lemma SecondTimer(s: State, e: Event, started: seq<Token>, armed: seq<Token>, t: Token, id: nat)
    requires Possible(s, e) && Served(s, e, started, armed) && Tidy(s) && Named(s)
    requires t in Next(s, e).active && t !in s.active && id in s.timers && s.timers[id] == t
    ensures !Tidy(Next(s, e))
  {
    var s' := Next(s, e);
    StartedAreNew(s, s', Leaving(s, e), started, t);
    StartedWaited(s, s', Leaving(s, e), started, t);
    assert t in s.downloads && id < s.nextTimer;
    if id in Gone(s, e) {
      StoppedLeave(s, e, id);
    }
    hide Next, Serves, Leaving, Stopped, Timed, Gone;
    var i :| 0 <= i < |armed| && armed[i] == t;
    assert HandleAt(s, s', armed, i);
    assert TimerAt(s, s', Gone(s, e), armed, id);
  }

  // With something started, only timers of those who leave are gone.
  lemma StoppedLeave(s: State, e: Event, id: nat)
    requires Named(s) && id in s.timers && id in Gone(s, e)
    requires !e.TransferRequest? && !e.QueuePosition? && !e.TransferRejected? && !e.TimerFires?
    ensures s.timers[id] in Leaving(s, e)
  {
  }

  // ----- Runs with one timer each

  // Nobody has a timer while it waits.
  ghost predicate Idle(s: State) {
    forall t | t in s.pending && t in s.downloads :: s.downloads[t].timer.None?
  }

  // No peer speaks of a download that still waits for a slot.
  predicate Spares(s: State, e: Event) {
    e.QueuePosition? || e.TransferRejected? ==> e.token !in s.pending
  }

  lemma WaitersIdle(s: State, t: Token)
    requires Tidy(s) && Idle(s) && t in s.pending && t in s.downloads
    ensures !Running(s, t)
  {
  }

  lemma EventOneTimer(s: State, e: Event, early: set<Token>)
    requires Inv(s, early) && Tidy(s) && Named(s) && Idle(s) && Possible(s, e) && Fair(s, e) && Spares(s, e)
    ensures Tidy(Next(s, e)) && Named(Next(s, e)) && Idle(Next(s, e))
  {
    hide Inv, Tidy, Named, Idle, Next, Served, Possible, Fair, Running;
    if e.Request? {
      RequestOneTimer(s, e.d, early);
    } else {
      EventNamed(s, e, early);
      var started, armed := ServedBy(s, e, early);
      forall t | t in Next(s, e).active && t !in s.active ensures !Running(s, t) {
        NewcomerWaited(s, e, started, armed, t);
        WaitersIdle(s, t);
      }
      TidyIff(s, e, early);
      EventIdle(s, e, started, armed, early);
    }
  }

  lemma NewcomerWaited(s: State, e: Event, started: seq<Token>, armed: seq<Token>, t: Token)
    requires Possible(s, e) && Served(s, e, started, armed) && t in Next(s, e).active && t !in s.active
    ensures t in s.pending && t in s.downloads
  {
    StartedAreNew(s, Next(s, e), Leaving(s, e), started, t);
    StartedWaited(s, Next(s, e), Leaving(s, e), started, t);
    hide Next, Serves, Times, Timed, Leaving, Gone;
  }

  lemma EventIdle(s: State, e: Event, started: seq<Token>, armed: seq<Token>, early: set<Token>)
    requires Inv(s, early) && Possible(s, e) && Served(s, e, started, armed) && Idle(s) && Spares(s, e)
    ensures Idle(Next(s, e))
  {
    var s' := Next(s, e);
    WellFormed(s, early);
    hide Next, Served, Inv, Stopped, Distinct;
    forall t | t in s'.pending && t in s'.downloads ensures s'.downloads[t].timer.None? {
      StillWaits(s, e, started, armed, t);
      HandleStays(s, e, started, armed, t);
    }
  }

  lemma StillWaits(s: State, e: Event, started: seq<Token>, armed: seq<Token>, t: Token)
    requires Possible(s, e) && Served(s, e, started, armed) && Distinct(s.pending) && Spares(s, e)
    requires t in Next(s, e).pending
    ensures t in s.pending && t in s.downloads && t !in armed
  {
    QueuePart(s, Next(s, e), Leaving(s, e), started, t);
    hide Next, Serves, Times, Timed, Leaving, Gone, Distinct;
  }

  lemma QueuePart(s: State, s': State, leaving: set<Token>, started: seq<Token>, t: Token)
    requires Serves(s, s', leaving, started) && Distinct(s.pending) && t in s'.pending
    ensures t in s.pending && t !in started
  {
    WithoutMembers(s.pending, leaving);
    WithoutDistinct(s.pending, leaving);
    hide Without;
    var all := started + s'.pending;
    var j :| 0 <= j < |s'.pending| && s'.pending[j] == t;
    assert all[|started| + j] == t && t in all;
    forall i | 0 <= i < |started|
      ensures started[i] != t
    {
      assert all[i] == started[i];
    }
  }

  lemma RequestOneTimer(s: State, d: Download, early: set<Token>)
    requires Inv(s, early) && Tidy(s) && Named(s) && Idle(s)
    requires Possible(s, Request(d)) && Fair(s, Request(d))
    ensures var s' := Next(s, Request(d)); Tidy(s') && Named(s') && Idle(s')
  {
    Unstopped(s, early);
    Unheard(s, d, early);
    hide Sent, Room, Inv, Initiate, Tidy, Named, Idle, Timed;
    var s1 := s.(downloads := s.downloads[d.token := d], sent := Sent(s.sent, d.token, QueuedLocally));
    Welcomed(s, s1, d);
    if s.loggedIn && Room(s) {
      InitiateOneTimer(s1, d.token);
    } else {
      PushedIdle(s1, d.token);
    }
  }

  lemma Welcomed(s: State, s1: State, d: Download)
    requires Timed(s) && Tidy(s) && Named(s) && Idle(s) && d.token !in s.sent && d.timer.None?
    requires s1 == s.(downloads := s.downloads[d.token := d], sent := s1.sent)
    ensures Tidy(s1) && Named(s1) && Idle(s1) && forall id | id in s1.timers :: id < s1.nextTimer
  {
  }

  lemma InitiateOneTimer(s: State, t: Token)
    requires Tidy(s) && Named(s) && Idle(s) && forall id | id in s.timers :: id < s.nextTimer
    requires t in s.downloads && t !in s.pending && s.downloads[t].timer.None?
    ensures var s' := Initiate(s, t); Tidy(s') && Named(s') && Idle(s')
  {
  }

  lemma PushedIdle(s: State, t: Token)
    requires Tidy(s) && Named(s) && Idle(s) && t in s.downloads && s.downloads[t].timer.None?
    ensures var s' := s.(pending := s.pending + [t]); Tidy(s') && Named(s') && Idle(s')
  {
  }

  lemma Unheard(s: State, d: Download, early: set<Token>)
    requires Inv(s, early) && d.token !in s.sent
    ensures d.token !in s.downloads
  {
    hide Split, Timed, Flow, Open, Closed, ToldQueued;
  }

  ghost predicate Sparing(s: State, events: seq<Event>)
    requires Run(s, events)
    decreases |events|
  {
    events != [] ==> Spares(s, events[0]) && Sparing(Next(s, events[0]), events[1..])
  }

  lemma {:induction false} RunOneTimer(s: State, events: seq<Event>, early: set<Token>)
    requires Inv(s, early) && Tidy(s) && Named(s) && Idle(s)
    requires Run(s, events) && FairRun(s, events) && Sparing(s, events)
    ensures Tidy(After(s, events)) && Named(After(s, events))
    decreases |events|
  {
    if events != [] {
      hide Inv, Tidy, Named, Idle, Spares, Next, Possible, Fair;
      EventKeeps(s, events[0], early);
      EventOneTimer(s, events[0], early);
      RunOneTimer(Next(s, events[0]), events[1..], early);
    }
  }

  // As long as no peer speaks of a download that still waits for a slot, the only timer that runs for a known download
  // is the one that the download knows, and it runs for that download.
  lemma OneTimerAlways(maxConcurrent: Option<nat>, requested: seq<Download>, events: seq<Event>)
    requires FreshRequests(requested)
    requires Run(Start(maxConcurrent, requested), events) && FairRun(Start(maxConcurrent, requested), events)
    requires Sparing(Start(maxConcurrent, requested), events)
    ensures var s := After(Start(maxConcurrent, requested), events); Tidy(s) && Named(s)
  {
    var s0 := Start(maxConcurrent, requested);
    StartInv(maxConcurrent, requested);
    StartTimers(maxConcurrent, requested);
    hide Inv, Start, Run, FairRun, After, Sparing, Tidy, Named, Idle, FreshRequests;
    RunOneTimer(s0, events, s0.downloads.Keys);
  }

  lemma StartTimers(maxConcurrent: Option<nat>, requested: seq<Download>)
    requires FreshRequests(requested)
    ensures var s := Start(maxConcurrent, requested); Tidy(s) && Named(s) && Idle(s)
  {
    TableTimers(requested);
    hide Table;
  }

  lemma {:induction false} TableTimers(requested: seq<Download>)
    requires FreshRequests(requested)
    ensures forall t | t in Table(requested) :: Table(requested)[t].timer.None?
  {
    if requested != [] {
      TableTimers(requested[..|requested| - 1]);
    }
  }

  // ----- A second timer

  lemma PlacedOne(s: State) returns (s': State)
    requires s.pending == [1] && s.downloads == map[1 := Wanted(1, "p")] && s.active == {} && !s.loggedIn
    requires s.timers == map[] && s.nextTimer == 0 && s.sent == map[1 := []] && s.maxConcurrent == None
    ensures s' == Next(s, QueuePosition(1, 5)) && s'.pending == [1] && s'.active == {} && s'.maxConcurrent == None
    ensures s'.downloads.Keys == {1} && s'.downloads[1].timer == Some(0)
    ensures s'.timers == map[0 := 1] && s'.nextTimer == 1
    ensures s'.sent == map[1 := [QueuedRemotely(Some(5))]] && s'.inbox == s.inbox
  {
    s' := Next(s, QueuePosition(1, 5));
    assert [] + [QueuedRemotely(Some(5))] == [QueuedRemotely(Some(5))];
  }

  lemma StartedTwice(s: State) returns (s': State)
    requires s.pending == [1] && s.downloads.Keys == {1} && s.active == {} && s.maxConcurrent == None
    requires s.timers == map[0 := 1] && s.nextTimer == 1
    ensures s' == Next(s, LoginSucceeded) && s'.active == {1} && s'.pending == [] && s'.downloads.Keys == {1}
    ensures s'.timers == map[0 := 1, 1 := 1] && s'.downloads[1].timer == Some(1)
    ensures s'.downloads[1].status == QueuedLocally && s'.sent == s.sent && s'.inbox == s.inbox
  {
    s' := Next(s, LoginSucceeded);
    var s1 := s.(loggedIn := true);
    var s2 := Initiate(s1.(pending := s1.pending[1..]), 1);
    assert s1.pending[1..] == [];
    assert Drain(s1) == Drain(s2) == s2;
  }

  lemma FiredTwice(s: State) returns (s': State)
    requires s.active == {1} && s.pending == [] && s.downloads.Keys == {1} && s.timers == map[0 := 1, 1 := 1]
    requires s.downloads[1].status == QueuedLocally && s.sent == map[1 := [QueuedRemotely(Some(5))]]
    requires s.inbox == multiset{}
    ensures Possible(s, TimerFires(0)) && Possible(Next(s, TimerFires(0)), TimeoutArrives(1))
    ensures s' == Next(Next(s, TimerFires(0)), TimeoutArrives(1)) && 1 !in s'.downloads
    ensures s'.sent == map[1 := [QueuedRemotely(Some(5)), TimedOut]] && s'.timers == map[1 := 1]
  {
    s' := Next(Next(s, TimerFires(0)), TimeoutArrives(1));
    assert s.timers - {0} == map[1 := 1];
    assert [QueuedRemotely(Some(5))] + [TimedOut] == [QueuedRemotely(Some(5)), TimedOut];
  }

  // A download that is told its place in the peer's queue while it still waits for a slot has two timers once it has
  // started, and the first of them times it out while its own has not fired.
  lemma EarlyTimeoutExample() returns (events: seq<Event>)
    ensures FreshRequests([Wanted(1, "p")])
    ensures Run(Start(None, [Wanted(1, "p")]), events) && FairRun(Start(None, [Wanted(1, "p")]), events)
    ensures var s := After(Start(None, [Wanted(1, "p")]), events);
            && 1 !in s.downloads && s.sent == map[1 := [QueuedRemotely(Some(5)), TimedOut]] && s.timers == map[1 := 1]
  {
    var s0 := Start(None, [Wanted(1, "p")]);
    StartOne(None);
    hide Start;
    var s1 := PlacedOne(s0);
    var s2 := StartedTwice(s1);
    var s4 := FiredTwice(s2);
    var place, fires, arrives := QueuePosition(1, 5), TimerFires(0), TimeoutArrives(1);
    assert Possible(s0, place);
    NoEvent(s4);
    hide Next, Possible, Run, After, FairRun;
    FirstEvent(Next(s2, fires), arrives, []);
    FirstEvent(s2, fires, [arrives] + []);
    EasyLogin(s1);
    FirstEvent(s1, LoginSucceeded, [fires] + ([arrives] + []));
    FirstEvent(s0, place, [LoginSucceeded] + ([fires] + ([arrives] + [])));
    events := [place] + ([LoginSucceeded] + ([fires] + ([arrives] + [])));
  }

  lemma EasyLogin(s: State)
    ensures Possible(s, LoginSucceeded) && Fair(s, LoginSucceeded)
  {
  }
}
