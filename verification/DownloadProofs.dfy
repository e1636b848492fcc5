/** What every event of the download manager keeps, and what whole runs guarantee. */
module DownloadProofs {
  import opened Collections
  import opened DownloadSpec

  // The known downloads are the pending ones and the active ones; none is both, none is queued twice.
  ghost predicate Split(s: State) {
    && Distinct(s.pending)
    && (forall t :: t in s.downloads <==> t in s.pending || t in s.active)
    && (forall t | t in s.pending :: t !in s.active)
    && (forall t | t in s.downloads :: s.downloads[t].token == t)
  }

  // Timers and timeout messages belong to accepted downloads, and none threatens a download
  // that is pending and still queued locally.
  ghost predicate Timed(s: State) {
    && (forall id | id in s.timers :: id < s.nextTimer && s.timers[id] in s.sent)
    && (forall t | t in s.inbox :: t in s.sent)
    && (forall t | t in s.pending && t in s.downloads && s.downloads[t].status.QueuedLocally? :: t !in s.inbox)
    && (forall id | id in s.timers ::
          s.timers[id] in s.pending && s.timers[id] in s.downloads ==> !s.downloads[s.timers[id]].status.QueuedLocally?)
  }

  predicate Open(trace: seq<Status>) {
    forall i | 0 <= i < |trace| :: !trace[i].Terminal()
  }

  // One terminal status, and nothing after it.
  predicate Closed(trace: seq<Status>) {
    trace != [] && trace[|trace| - 1].Terminal() && Open(trace[..|trace| - 1])
  }

  // A download is known exactly as long as its channel is open. The channels of all but the `early` downloads,
  // which were handed to the manager when it was made, start with QueuedLocally; theirs never carry it.
  ghost predicate Traced(s: State, early: set<Token>) {
    && (forall t | t in s.downloads :: t in s.sent && Open(s.sent[t]))
    && (forall t | t in s.sent && t !in s.downloads :: Closed(s.sent[t]))
    && ToldQueued(s, early)
  }

  predicate Told(trace: seq<Status>, early: bool) {
    if early then QueuedLocally !in trace else trace != [] && trace[0] == QueuedLocally
  }

  ghost predicate ToldQueued(s: State, early: set<Token>) {
    && early <= s.sent.Keys
    && forall t | t in s.sent :: Told(s.sent[t], t in early)
  }

  // While logged in nobody waits unless a slot is taken.
  ghost predicate Flow(s: State) {
    s.loggedIn ==>
      && (s.maxConcurrent.None? ==> s.pending == [])
      && (s.maxConcurrent.Some? && s.maxConcurrent.value >= 1 && s.pending != [] ==> s.active != {})
  }

  ghost predicate Cap(s: State) {
    s.maxConcurrent.Some? ==> |s.active| <= s.maxConcurrent.value
  }

  ghost predicate Inv(s: State, early: set<Token>) {
    Split(s) && Timed(s) && Traced(s, early) && Flow(s)
  }

  // ----- Taking a slot

  // t is known, but neither pending nor active.
  ghost predicate Between(s: State, t: Token) {
    && t in s.downloads && t !in s.pending && t !in s.active
    && Split(s.(active := s.active + {t}))
  }

  lemma InitiateKeeps(s: State, t: Token, early: set<Token>)
    requires Between(s, t) && Timed(s) && Traced(s, early)
    ensures Split(Initiate(s, t)) && Timed(Initiate(s, t)) && Traced(Initiate(s, t), early)
    ensures Initiate(s, t).active == s.active + {t}
  {
    InitiateSplit(s, t);
    InitiateTimed(s, t, early);
    InitiateTraced(s, t, early);
    hide Split, Timed, Traced;
  }

  lemma InitiateSplit(s: State, t: Token)
    requires Between(s, t)
    ensures Split(Initiate(s, t))
  {
    hide Distinct;
  }

  lemma InitiateTimed(s: State, t: Token, early: set<Token>)
    requires Between(s, t) && Timed(s) && Traced(s, early)
    ensures Timed(Initiate(s, t))
  {
    hide Split, Open, Closed, ToldQueued;
  }

  lemma InitiateTraced(s: State, t: Token, early: set<Token>)
    requires Between(s, t) && Traced(s, early)
    ensures Traced(Initiate(s, t), early)
  {
    hide Split, Open, Closed, Told;
  }

  lemma PopBetween(s: State, early: set<Token>)
    requires s.pending != [] && Split(s) && Timed(s) && Traced(s, early)
    ensures var s' := s.(pending := s.pending[1..]);
            Between(s', s.pending[0]) && Timed(s') && Traced(s', early)
  {
    hide Open, Closed, Told;
    PopSplit(s);
    hide Split, Between;
  }

  lemma PopSplit(s: State)
    requires s.pending != [] && Split(s)
    ensures Between(s.(pending := s.pending[1..]), s.pending[0])
  {
    DistinctTail(s.pending);
    assert s.pending == [s.pending[0]] + s.pending[1..];
    assert forall t :: t in s.pending <==> t == s.pending[0] || t in s.pending[1..];
    hide Distinct;
  }

  lemma DequeueKeeps(s: State, early: set<Token>)
    requires Split(s) && Timed(s) && Traced(s, early)
    requires s.loggedIn && s.maxConcurrent.None? ==> s.pending == []
    ensures Inv(DequeueNext(s), early)
  {
    hide Timed, Traced, Between;
    if s.loggedIn && Room(s) && s.pending != [] {
      PopBetween(s, early);
      InitiateKeeps(s.(pending := s.pending[1..]), s.pending[0], early);
      hide Split;
    }
  }

  lemma {:induction false} DrainKeeps(s: State, early: set<Token>)
    requires s.loggedIn && Split(s) && Timed(s) && Traced(s, early)
    ensures Inv(Drain(s), early)
    decreases |s.pending|
  {
    hide Timed, Traced, Between;
    if Room(s) && s.pending != [] {
      PopBetween(s, early);
      var s' := s.(pending := s.pending[1..]);
      InitiateKeeps(s', s.pending[0], early);
      DrainKeeps(Initiate(s', s.pending[0]), early);
    }
  }

  // ----- Leaving

  // The downloads in ts end with one terminal status each and leave pending, slots and table.
  function Ended(s: State, ts: set<Token>, status: Status): State {
    Removed(s.(sent := SentAll(s.sent, ts, status), pending := Without(s.pending, ts)), ts)
  }

  lemma EndedSplit(s: State, ts: set<Token>, status: Status)
    requires Split(s)
    ensures Split(Ended(s, ts, status))
  {
    WithoutMembers(s.pending, ts);
    WithoutDistinct(s.pending, ts);
    hide Without, Distinct, SentAll;
  }

  lemma EndedTimed(s: State, ts: set<Token>, status: Status)
    requires Timed(s)
    ensures Timed(Ended(s, ts, status))
  {
    WithoutMembers(s.pending, ts);
    hide Without;
  }

  lemma CloseTrace(trace: seq<Status>, status: Status)
    requires Open(trace) && status.Terminal()
    ensures Closed(trace + [status])
  {
  }

  lemma ToldStays(trace: seq<Status>, early: bool, status: Status)
    requires Told(trace, early) && !status.QueuedLocally?
    ensures Told(trace + [status], early)
  {
  }

  lemma EndedTraced(s: State, ts: set<Token>, status: Status, early: set<Token>)
    requires Traced(s, early) && ts <= s.downloads.Keys && status.Terminal()
    ensures Traced(Ended(s, ts, status), early)
  {
    forall t | t in ts ensures Closed(s.sent[t] + [status]) {
      CloseTrace(s.sent[t], status);
    }
    forall t | t in ts ensures Told(s.sent[t] + [status], t in early) {
      ToldStays(s.sent[t], t in early, status);
    }
    hide Without, Open, Closed, Told;
  }

  lemma EndedKeeps(s: State, ts: set<Token>, status: Status, ids: set<nat>, early: set<Token>)
    requires Inv(s, early) && ts <= s.downloads.Keys && status.Terminal()
    ensures var s' := Ended(s, ts, status).(timers := s.timers - ids);
            && Split(s') && Timed(s') && Traced(s', early)
            && (s.pending == [] ==> s'.pending == [])
  {
    EndedSplit(s, ts, status);
    EndedTimed(s, ts, status);
    EndedTraced(s, ts, status, early);
    hide SentAll, Split, Timed, Traced;
    FewerTimers(Ended(s, ts, status), ids);
    FewerTimersTimed(Ended(s, ts, status), ids, early);
  }

  lemma FewerTimers(s: State, ids: set<nat>)
    requires Split(s)
    ensures Split(s.(timers := s.timers - ids))
  {
  }

  lemma FewerTimersTimed(s: State, ids: set<nat>, early: set<Token>)
    requires Timed(s) && Traced(s, early)
    ensures Timed(s.(timers := s.timers - ids)) && Traced(s.(timers := s.timers - ids), early)
  {
    hide Open, Closed, Told;
  }

  lemma SentOne(sent: map<Token, seq<Status>>, t: Token, status: Status)
    ensures SentAll(sent, {t}, status) == Sent(sent, t, status)
  {
  }

  // ----- Every event keeps the invariant

  lemma CompletionIsEnd(s: State, t: Token, status: Status)
    requires t !in s.pending && t in s.downloads
    ensures OnCompleted(s, t, status) == DequeueNext(Ended(s, {t}, status))
  {
    WithoutNobody(s.pending, {t});
    SentOne(s.sent, t, status);
    hide SentAll, Without, DequeueNext;
  }

  lemma CompletionKeeps(s: State, t: Token, status: Status, early: set<Token>)
    requires Inv(s, early) && t !in s.pending && status.Terminal()
    ensures Inv(OnCompleted(s, t, status), early)
  {
    hide Inv, OnCompleted;
    if t in s.downloads {
      KnownCompletionKeeps(s, t, status, early);
    } else {
      GoneCompletionKeeps(s, t, status, early);
    }
  }

  lemma KnownCompletionKeeps(s: State, t: Token, status: Status, early: set<Token>)
    requires Inv(s, early) && t !in s.pending && t in s.downloads && status.Terminal()
    ensures Inv(OnCompleted(s, t, status), early)
  {
    hide Split, Timed, Traced, SentAll, Without, DequeueNext, OnCompleted;
    CompletionIsEnd(s, t, status);
    EndedKeeps(s, {t}, status, {}, early);
    assert s.timers - {} == s.timers;
    DequeueKeeps(Ended(s, {t}, status), early);
  }

  lemma GoneCompletionKeeps(s: State, t: Token, status: Status, early: set<Token>)
    requires Inv(s, early) && t !in s.downloads
    ensures Inv(OnCompleted(s, t, status), early)
  {
    assert s.downloads - {t} == s.downloads && s.active - {t} == s.active;
    hide Split, Timed, Traced, DequeueNext;
    DequeueKeeps(s, early);
  }

  lemma FailureKeeps(s: State, username: string, filename: Option<string>, early: set<Token>)
    requires Inv(s, early)
    ensures Inv(FailMatching(s, username, filename), early)
  {
    var failed := Matching(s.downloads, username, filename);
    EndedKeeps(s, failed, Failed, Handles(s.downloads, failed), early);
    var s' := Ended(s, failed, Failed).(timers := s.timers - Handles(s.downloads, failed));
    if failed == {} {
      WithoutNobody(s.pending, {});
      assert s.active - {} == s.active;
      hide Split, Timed, Traced, Matching, Handles, SentAll;
    } else {
      hide Split, Timed, Traced, Matching, Handles, SentAll, DequeueNext, Without;
      DequeueKeeps(s', early);
    }
  }

  lemma AbortedIs(timers: map<nat, Token>, handle: Option<nat>)
    ensures Aborted(timers, handle) == timers - if handle.Some? then {handle.value} else {}
  {
  }

  lemma CancelKeeps(s: State, t: Token, early: set<Token>)
    requires Inv(s, early)
    ensures Inv(OnCancel(s, t), early)
  {
    if t !in s.downloads {
      WithoutNobody(s.pending, {t});
    } else {
      var handle := s.downloads[t].timer;
      var ids := if handle.Some? then {handle.value} else {};
      EndedKeeps(s, {t}, Cancelled, ids, early);
      SentOne(s.sent, t, Cancelled);
      AbortedIs(s.timers, handle);
      var s' := Ended(s, {t}, Cancelled).(timers := s.timers - ids);
      if t in s.active {
        hide Split, Timed, Traced, SentAll, DequeueNext, Without;
        DequeueKeeps(s', early);
      } else {
        assert s.active - {t} == s.active;
        hide Split, Timed, Traced, SentAll, Without;
        assert s.pending != [];
      }
    }
  }

  lemma TimeoutKeeps(s: State, t: Token, early: set<Token>)
    requires Inv(s, early) && t in s.inbox
    ensures Inv(OnTimeout(s.(inbox := s.inbox - multiset{t}), t), early)
  {
    var s1 := s.(inbox := s.inbox - multiset{t});
    assert Inv(s1, early);
    if t in s.downloads && s.downloads[t].status.QueuedLocally? {
      assert t in s.active && t !in s.pending;
      hide Timed, Traced, Flow;
      CompletionKeeps(s1, t, TimedOut, early);
    }
  }

  lemma TimerKeeps(s: State, id: nat, early: set<Token>)
    requires Inv(s, early) && id in s.timers
    ensures Inv(s.(timers := s.timers - {id}, inbox := s.inbox + multiset{s.timers[id]}), early)
  {
    hide Open, Closed, Told, Distinct;
  }

  lemma QueuedAtKeeps(s: State, t: Token, place: Option<nat>, early: set<Token>)
    requires Inv(s, early) && t in s.downloads
    ensures Inv(QueuedAt(s, t, place), early)
  {
    QueuedAtSplit(s, t, place);
    QueuedAtTimed(s, t, place);
    QueuedAtTraced(s, t, place, early);
    hide Split, Timed, Traced, Sent, Aborted;
  }

  lemma QueuedAtSplit(s: State, t: Token, place: Option<nat>)
    requires Split(s) && t in s.downloads
    ensures Split(QueuedAt(s, t, place))
  {
    hide Distinct, Sent, Aborted;
  }

  lemma QueuedAtTimed(s: State, t: Token, place: Option<nat>)
    requires Timed(s) && t in s.downloads
    ensures Timed(QueuedAt(s, t, place))
  {
    AbortedIs(s.timers, s.downloads[t].timer);
    hide Aborted;
  }

  lemma QueuedAtTraced(s: State, t: Token, place: Option<nat>, early: set<Token>)
    requires Traced(s, early) && t in s.downloads
    ensures Traced(QueuedAt(s, t, place), early)
  {
    ToldStays(s.sent[t], t in early, QueuedRemotely(place));
    hide Closed, Aborted, Told;
  }

  lemma ArmedKeeps(s: State, t: Token, early: set<Token>)
    requires Inv(s, early) && t in s.downloads && !s.downloads[t].status.QueuedLocally?
    ensures Inv(Armed(s, t), early)
  {
    hide Open, Closed, Told, Distinct;
  }

  // A fresh download has been told that it is queued; it is not yet pending or active.
  function Accepted(s: State, d: Download): State {
    s.(sent := Sent(s.sent, d.token, QueuedLocally), downloads := s.downloads[d.token := d])
  }

  lemma AcceptedBetween(s: State, d: Download, early: set<Token>)
    requires Inv(s, early) && d.token !in s.sent
    ensures Between(Accepted(s, d), d.token)
  {
    assert d.token !in s.downloads;
    hide Open, Closed, Distinct, Timed;
  }

  lemma AcceptedTraced(s: State, d: Download, early: set<Token>)
    requires Inv(s, early) && d.token !in s.sent
    ensures Traced(Accepted(s, d), early)
  {
    hide Closed, Split, Timed;
  }

  lemma AcceptedTimed(s: State, d: Download, early: set<Token>)
    requires Inv(s, early) && d.token !in s.sent
    ensures Timed(Accepted(s, d)) && Timed(Accepted(s, d).(pending := s.pending + [d.token]))
  {
    hide Traced, Open, Closed, Distinct;
  }

  lemma RequestKeeps(s: State, d: Download, early: set<Token>)
    requires Inv(s, early) && d.token !in s.sent && d.timer.None?
    ensures Inv(Enqueue(s, d), early)
  {
    AcceptedBetween(s, d, early);
    AcceptedTraced(s, d, early);
    AcceptedTimed(s, d, early);
    InitiateKeeps(Accepted(s, d), d.token, early);
    WaitingKeeps(s, d, early);
    hide Between, Timed, Traced, Split, Sent, Initiate;
    InitiateSettings(Accepted(s, d), d.token);
  }

  lemma InitiateSettings(s: State, t: Token)
    ensures var s' := Initiate(s, t); s'.pending == s.pending && s'.maxConcurrent == s.maxConcurrent
  {
  }

  lemma WaitingKeeps(s: State, d: Download, early: set<Token>)
    requires Inv(s, early) && d.token !in s.sent && Traced(Accepted(s, d), early)
    ensures var s' := Accepted(s, d).(pending := s.pending + [d.token]); Split(s') && Traced(s', early)
    ensures !(s.loggedIn && Room(s)) ==> Flow(Accepted(s, d).(pending := s.pending + [d.token]))
  {
    WaitingSplit(s, d);
    hide Split, Timed, Open, Closed, Told, Sent;
  }

  lemma WaitingSplit(s: State, d: Download)
    requires Split(s) && d.token !in s.downloads
    ensures Split(Accepted(s, d).(pending := s.pending + [d.token]))
  {
    DistinctAppend(s.pending, d.token);
    hide Distinct, Sent;
  }

  lemma RearmedKeeps(s: State, t: Token, place: Option<nat>, early: set<Token>)
    requires Inv(s, early) && t in s.downloads
    ensures t in QueuedAt(s, t, place).downloads && Inv(Armed(QueuedAt(s, t, place), t), early)
  {
    hide Inv;
    QueuedAtKeeps(s, t, place, early);
    ArmedKeeps(QueuedAt(s, t, place), t, early);
  }

  lemma DisconnectKeeps(s: State, early: set<Token>)
    requires Inv(s, early)
    ensures Inv(s.(loggedIn := false), early)
  {
    hide Open, Closed, Told, Distinct;
  }

  lemma EventKeeps(s: State, e: Event, early: set<Token>)
    requires Inv(s, early) && Possible(s, e) && Fair(s, e)
    ensures Inv(Next(s, e), early)
  {
    hide Inv, Enqueue, OnCompleted, FailMatching, OnCancel, OnTimeout, OnTransferRequest, QueuedAt, Armed, Drain;
    match e {
      case Request(d) => RequestKeeps(s, d, early);
      case Completion(t, status) => CompletionKeeps(s, t, status, early);
      case Failure(username, filename) => FailureKeeps(s, username, filename, early);
      case CancelRequest(t) => CancelKeeps(s, t, early);
      case TimerFires(id) => TimerKeeps(s, id, early);
      case TimeoutArrives(t) => TimeoutKeeps(s, t, early);
      case TransferRequest(t, peerToken, size) => TransferRequestKeeps(s, t, peerToken, size, early);
      case QueuePosition(t, place) => RearmedKeeps(s, t, Some(place), early);
      case TransferRejected(t) => RearmedKeeps(s, t, None, early);
      case ServerDisconnected => DisconnectKeeps(s, early);
      case LoginSucceeded => LoginKeeps(s, early);
    }
  }

  lemma TransferRequestKeeps(s: State, t: Token, peerToken: nat, size: nat, early: set<Token>)
    requires Inv(s, early) && t in s.downloads
    ensures Inv(OnTransferRequest(s, t, peerToken, size), early)
  {
    QueuedAtKeeps(s, t, None, early);
    QueuedAtKnows(s, t, None);
    hide Inv, QueuedAt;
    DetailsKeep(QueuedAt(s, t, None), t, peerToken, size, early);
  }

  // Neither the peer's token nor the size matters to the invariant.
  lemma DetailsKeep(s: State, t: Token, peerToken: nat, size: nat, early: set<Token>)
    requires Inv(s, early) && t in s.downloads
    ensures Inv(s.(downloads := s.downloads[t := s.downloads[t].(peerToken := Some(peerToken), size := size)]), early)
  {
    var d := s.downloads[t].(peerToken := Some(peerToken), size := size);
    DetailsSplit(s, t, d);
    DetailsTimed(s, t, d);
    hide Split, Timed, Open, Closed, Told;
  }

  lemma DetailsSplit(s: State, t: Token, d: Download)
    requires Split(s) && t in s.downloads && d.token == t
    ensures Split(s.(downloads := s.downloads[t := d]))
  {
    hide Distinct;
  }

  lemma DetailsTimed(s: State, t: Token, d: Download)
    requires Timed(s) && t in s.downloads && d.status == s.downloads[t].status
    ensures Timed(s.(downloads := s.downloads[t := d]))
  {
  }

  lemma QueuedAtKnows(s: State, t: Token, place: Option<nat>)
    requires t in s.downloads
    ensures t in QueuedAt(s, t, place).downloads
  {
  }

  lemma LoginKeeps(s: State, early: set<Token>)
    requires Inv(s, early)
    ensures Inv(Drain(s.(loggedIn := true)), early)
  {
    hide Open, Closed, Distinct, Drain;
    DrainKeeps(s.(loggedIn := true), early);
  }

  // ----- Runs

  ghost predicate Run(s: State, events: seq<Event>)
    decreases |events|
  {
    events == [] || (Possible(s, events[0]) && Run(Next(s, events[0]), events[1..]))
  }

  ghost function After(s: State, events: seq<Event>): State
    requires Run(s, events)
    decreases |events|
  {
    if events == [] then s else After(Next(s, events[0]), events[1..])
  }

  ghost predicate FairRun(s: State, events: seq<Event>)
    requires Run(s, events)
    decreases |events|
  {
    events == [] || (Fair(s, events[0]) && FairRun(Next(s, events[0]), events[1..]))
  }

  // A new manager, with the downloads that were requested before the connection existed.
  function Start(maxConcurrent: Option<nat>, requested: seq<Download>): State {
    var tokens := seq(|requested|, i requires 0 <= i < |requested| => requested[i].token);
    State(false, tokens, maxConcurrent, {}, Table(requested), map[], 0, multiset{}, map t | t in tokens :: [])
  }

  function Table(requested: seq<Download>): map<Token, Download> {
    if requested == [] then map[]
    else
      var d := requested[|requested| - 1];
      Table(requested[..|requested| - 1])[d.token := d]
  }

  ghost predicate FreshRequests(requested: seq<Download>) {
    && (forall i, j | 0 <= i < j < |requested| :: requested[i].token != requested[j].token)
    && (forall i | 0 <= i < |requested| :: requested[i].timer.None?)
  }

  lemma {:induction false} TableKeys(requested: seq<Download>)
    ensures forall t :: t in Table(requested) <==> exists i :: 0 <= i < |requested| && requested[i].token == t
    ensures forall t | t in Table(requested) :: Table(requested)[t].token == t
  {
    if requested != [] {
      var n := |requested| - 1;
      TableKeys(requested[..n]);
      forall t ensures t in Table(requested) <==> exists i :: 0 <= i < |requested| && requested[i].token == t {
        if i :| 0 <= i < |requested| && requested[i].token == t {
          if i < n {
            assert requested[..n][i].token == t;
          }
        }
      }
    }
  }

  lemma StartInv(maxConcurrent: Option<nat>, requested: seq<Download>)
    requires FreshRequests(requested)
    ensures var s := Start(maxConcurrent, requested); Inv(s, s.downloads.Keys)
  {
    TableKeys(requested);
    hide Table;
    var s := Start(maxConcurrent, requested);
    assert forall i | 0 <= i < |requested| :: s.pending[i] == requested[i].token;
    assert forall t | t in s.sent :: Open(s.sent[t]);
  }

  lemma {:induction false} RunKeeps(s: State, events: seq<Event>, early: set<Token>)
    requires Inv(s, early) && Run(s, events) && FairRun(s, events)
    ensures Inv(After(s, events), early)
    decreases |events|
  {
    if events != [] {
      hide Inv, Next, Possible, Fair;
      EventKeeps(s, events[0], early);
      RunKeeps(Next(s, events[0]), events[1..], early);
    }
  }

  // In every reachable state the known downloads split into pending and active ones, nobody is queued twice,
  // and with a cap of at least one slot a logged-in manager with someone waiting has a slot in use.
  lemma ReachablePartition(maxConcurrent: Option<nat>, requested: seq<Download>, events: seq<Event>)
    requires FreshRequests(requested)
    requires Run(Start(maxConcurrent, requested), events) && FairRun(Start(maxConcurrent, requested), events)
    ensures var s := After(Start(maxConcurrent, requested), events);
            && s.downloads.Keys == (set t | t in s.pending) + s.active
            && ((set t | t in s.pending) !! s.active)
            && Distinct(s.pending)
            && Flow(s)
  {
    var s0 := Start(maxConcurrent, requested);
    StartInv(maxConcurrent, requested);
    RunKeeps(s0, events, s0.downloads.Keys);
    hide Start, Timed, Traced, Flow, Distinct, After, Run, FairRun;
  }

  // ----- Exactly one terminal status

  lemma GrowthOfSentAll(sent: map<Token, seq<Status>>, ts: set<Token>, status: Status)
    ensures forall t | t in sent :: t in SentAll(sent, ts, status) && sent[t] <= SentAll(sent, ts, status)[t]
  {
  }

  ghost predicate Grows(s: State, s': State) {
    forall t | t in s.sent :: t in s'.sent && s.sent[t] <= s'.sent[t]
  }

  lemma {:induction false} DrainSends(s: State)
    ensures Drain(s).sent == s.sent
    decreases |s.pending|
  {
    if Room(s) && s.pending != [] {
      DrainSends(Initiate(s.(pending := s.pending[1..]), s.pending[0]));
    }
  }

  lemma GrowthOfSent(sent: map<Token, seq<Status>>, t: Token, status: Status)
    ensures forall u | u in sent :: u in Sent(sent, t, status) && sent[u] <= Sent(sent, t, status)[u]
  {
  }

  lemma DequeueSends(s: State)
    ensures DequeueNext(s).sent == s.sent
  {
  }

  lemma EventGrows(s: State, e: Event)
    requires Possible(s, e)
    ensures Grows(s, Next(s, e))
  {
    hide Without, Matching, Handles, Room, Aborted, Drain, DequeueNext, Initiate, Sent, SentAll;
    match e {
      case Request(d) =>
        GrowthOfSent(s.sent, d.token, QueuedLocally);
        InitiateSends(Accepted(s, d), d.token);
      case Completion(t, status) =>
        GrowthOfSent(s.sent, t, status);
        DequeueSends(Removed(s, {t}));
        DequeueSends(Removed(s.(sent := Sent(s.sent, t, status)), {t}));
      case Failure(username, filename) => FailureGrows(s, username, filename);
      case CancelRequest(t) => CancelGrows(s, t);
      case TimeoutArrives(t) => TimeoutGrows(s.(inbox := s.inbox - multiset{t}), t);
      case TransferRequest(t, _, _) => GrowthOfSent(s.sent, t, QueuedRemotely(None));
      case QueuePosition(t, place) => GrowthOfSent(s.sent, t, QueuedRemotely(Some(place)));
      case TransferRejected(t) => GrowthOfSent(s.sent, t, QueuedRemotely(None));
      case LoginSucceeded => DrainSends(s.(loggedIn := true));
      case _ =>
    }
  }

  lemma InitiateSends(s: State, t: Token)
    ensures Initiate(s, t).sent == s.sent
  {
  }

  lemma FailureGrows(s: State, username: string, filename: Option<string>)
    ensures Grows(s, FailMatching(s, username, filename))
  {
    hide Without, Matching, Handles, DequeueNext, SentAll;
    var failed := Matching(s.downloads, username, filename);
    GrowthOfSentAll(s.sent, failed, Failed);
    DequeueSends(Removed(s.(sent := SentAll(s.sent, failed, Failed), pending := Without(s.pending, failed),
                            timers := s.timers - Handles(s.downloads, failed)), failed));
  }

  lemma CancelGrows(s: State, t: Token)
    ensures Grows(s, OnCancel(s, t))
  {
    hide Without, Aborted, DequeueNext, Sent;
    if t in s.downloads {
      GrowthOfSent(s.sent, t, Cancelled);
      DequeueSends(Removed(s.(pending := Without(s.pending, {t}), timers := Aborted(s.timers, s.downloads[t].timer),
                              sent := Sent(s.sent, t, Cancelled)), {t}));
    }
  }

  lemma TimeoutGrows(s: State, t: Token)
    ensures Grows(s, OnTimeout(s, t))
  {
    hide DequeueNext, Sent;
    GrowthOfSent(s.sent, t, TimedOut);
    DequeueSends(Removed(s.(sent := Sent(s.sent, t, TimedOut)), {t}));
  }

  lemma NoneAfterTerminal(p: seq<Status>, q: seq<Status>)
    requires Closed(p) && p < q
    ensures !Open(q) && !Closed(q)
  {
    assert q[..|q| - 1][|p| - 1] == q[|p| - 1] == p[|p| - 1];
  }

  lemma NotBoth(trace: seq<Status>)
    ensures !(Open(trace) && Closed(trace))
  {
  }

  lemma ClosedStays(p: seq<Status>, q: seq<Status>)
    requires Closed(p) && p <= q && (Open(q) || Closed(q))
    ensures p == q
  {
    if |p| < |q| {
      NoneAfterTerminal(p, q);
    }
  }

  // A download that has left is never heard of again.
  lemma {:induction false} GoneForGood(s: State, events: seq<Event>, t: Token, early: set<Token>)
    requires Inv(s, early) && Run(s, events) && FairRun(s, events) && t in s.sent && t !in s.downloads
    ensures var s' := After(s, events); t in s'.sent && t !in s'.downloads && s'.sent[t] == s.sent[t]
    decreases |events|
  {
    if events != [] {
      var s' := Next(s, events[0]);
      EventKeeps(s, events[0], early);
      EventGrows(s, events[0]);
      ClosedStays(s.sent[t], s'.sent[t]);
      NotBoth(s.sent[t]);
      hide Inv, Next, Possible, Fair, Closed, Open;
      GoneForGood(s', events[1..], t, early);
    }
  }

  // The downloads whose channel is closed.
  ghost function Terminated(s: State): set<Token> {
    set t | t in s.sent && Closed(s.sent[t])
  }

  // A download is known if and only if its channel is open, and gone if and only if it is closed.
  ghost predicate Settled(s: State) {
    forall t | t in s.sent :: (t in s.downloads <==> Open(s.sent[t])) && (t !in s.downloads <==> Closed(s.sent[t]))
  }

  // In every reachable state an accepted download is known and has no terminal status, or it has left and its
  // last status is its only terminal one; so accepted = live + terminated. Every channel starts with QueuedLocally,
  // except those of the downloads that the manager was made with: nobody tells their owners.
  lemma OneTerminalStatus(maxConcurrent: Option<nat>, requested: seq<Download>, events: seq<Event>)
    requires FreshRequests(requested)
    requires Run(Start(maxConcurrent, requested), events) && FairRun(Start(maxConcurrent, requested), events)
    ensures var s := After(Start(maxConcurrent, requested), events);
            && Settled(s)
            && |s.sent.Keys| == |s.downloads.Keys| + |Terminated(s)|
            && ToldQueued(s, Start(maxConcurrent, requested).downloads.Keys)
  {
    var s0 := Start(maxConcurrent, requested);
    StartInv(maxConcurrent, requested);
    RunKeeps(s0, events, s0.downloads.Keys);
    hide Start, Timed, Split, Flow, After, Run, FairRun, Settled, Traced, Terminated, ToldQueued;
    OpenOrClosed(After(s0, events), s0.downloads.Keys);
  }

  // What a channel carries first tells who was handed over at the start: exactly the others hear QueuedLocally.
  lemma ToldFirst(maxConcurrent: Option<nat>, requested: seq<Download>, events: seq<Event>)
    requires FreshRequests(requested)
    requires Run(Start(maxConcurrent, requested), events) && FairRun(Start(maxConcurrent, requested), events)
    ensures var s := After(Start(maxConcurrent, requested), events);
            forall t | t in s.sent ::
              if exists i :: 0 <= i < |requested| && requested[i].token == t then QueuedLocally !in s.sent[t]
              else s.sent[t] != [] && s.sent[t][0] == QueuedLocally
  {
    OneTerminalStatus(maxConcurrent, requested, events);
    TableKeys(requested);
    hide Table, After, Run, FairRun, Settled, Terminated;
  }

  lemma OpenOrClosed(s: State, early: set<Token>)
    requires Traced(s, early)
    ensures Settled(s) && ToldQueued(s, early)
    ensures |s.sent.Keys| == |s.downloads.Keys| + |Terminated(s)|
  {
    forall t | t in s.sent ensures !(Open(s.sent[t]) && Closed(s.sent[t])) {
      NotBoth(s.sent[t]);
    }
    hide Open, Closed, Told;
    assert s.sent.Keys == s.downloads.Keys + Terminated(s);
    assert s.downloads.Keys !! Terminated(s);
  }
}
