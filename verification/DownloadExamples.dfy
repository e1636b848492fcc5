/** Runs that show what can go wrong, each from a new manager. */
module DownloadExamples {
  import opened Collections
  import opened DownloadLimits
  import opened DownloadProofs
  import opened DownloadSpec

  lemma NoEvent(s: State)
    ensures Run(s, []) && FairRun(s, []) && After(s, []) == s
  {
  }

  lemma FirstEvent(s: State, e: Event, events: seq<Event>)
    requires Possible(s, e) && Run(Next(s, e), events)
    ensures Run(s, [e] + events) && After(s, [e] + events) == After(Next(s, e), events)
    ensures FairRun(s, [e] + events) <==> Fair(s, e) && FairRun(Next(s, e), events)
  {
    assert ([e] + events)[1..] == events;
  }

  function Wanted(token: Token, username: string): Download {
    Download(token, username, "song", 0, None, QueuedLocally, None)
  }

  function FourWanted(): seq<Download> {
    [Wanted(1, "p"), Wanted(2, "p"), Wanted(3, "q"), Wanted(4, "q")]
  }

  lemma StartExample()
    ensures var s := Start(Some(2), FourWanted());
            && s.pending == [1, 2, 3, 4]
            && s.downloads == map[1 := Wanted(1, "p"), 2 := Wanted(2, "p"), 3 := Wanted(3, "q"), 4 := Wanted(4, "q")]
  {
    var four := FourWanted();
    assert four[..3] == [four[0], four[1], four[2]];
    assert four[..3][..2] == [four[0], four[1]];
    assert four[..3][..2][..1] == [four[0]];
    assert Table(four[..3][..2][..1]) == map[1 := four[0]];
    assert Table(four[..3][..2]) == map[1 := four[0], 2 := four[1]];
    assert Table(four[..3]) == map[1 := four[0], 2 := four[1], 3 := four[2]];
  }

  lemma StartSettings()
    ensures FreshRequests(FourWanted())
    ensures Start(Some(2), FourWanted()).maxConcurrent == Some(2) && Start(Some(2), FourWanted()).active == {}
  {
  }

  lemma DrainOne(s: State)
    requires Room(s) && s.pending != [] && s.pending[0] in s.downloads
    ensures var s' := Initiate(s.(pending := s.pending[1..]), s.pending[0]);
            && Drain(s) == Drain(s')
            && s'.pending == s.pending[1..] && s'.active == s.active + {s.pending[0]}
            && s'.maxConcurrent == s.maxConcurrent && s'.loggedIn == s.loggedIn
            && s'.downloads.Keys == s.downloads.Keys
            && (forall t | t in s.downloads :: s'.downloads[t].username == s.downloads[t].username)
  {
  }

  lemma LoggedInExample(s: State)
    requires s.pending == [1, 2, 3, 4] && s.active == {} && s.maxConcurrent == Some(2)
    requires s.downloads.Keys == {1, 2, 3, 4}
    requires forall t | t in s.downloads :: s.downloads[t].username == (if t <= 2 then "p" else "q")
    ensures var s' := Drain(s);
            && s'.pending == [3, 4] && s'.active == {1, 2} && s'.maxConcurrent == Some(2) && s'.loggedIn == s.loggedIn
            && s'.downloads.Keys == {1, 2, 3, 4}
            && (forall t | t in s'.downloads :: s'.downloads[t].username == (if t <= 2 then "p" else "q"))
  {
    DrainOne(s);
    var s1 := Initiate(s.(pending := s.pending[1..]), 1);
    assert s1.pending == [2, 3, 4];
    DrainOne(s1);
    hide Initiate;
    var s2 := Initiate(s1.(pending := s1.pending[1..]), 2);
    assert s2.pending == [3, 4] && s2.active == {1, 2};
    assert Drain(s2) == s2;
  }

  lemma FailureExample(s: State)
    requires s.pending == [3, 4] && s.active == {1, 2} && s.maxConcurrent == Some(2) && s.loggedIn
    requires s.downloads.Keys == {1, 2, 3, 4}
    requires forall t | t in s.downloads :: s.downloads[t].username == (if t <= 2 then "p" else "q")
    ensures var s' := FailMatching(s, "p", None);
            s'.loggedIn && Room(s') && s'.pending == [4] && s'.active == {3}
  {
    hide SentAll, Handles;
    var failed: set<Token> := {1, 2};
    assert "p"[0] != "q"[0];
    assert Matching(s.downloads, "p", None) == failed;
    WithoutNobody(s.pending, failed);
    hide Without, Matching;
    var s' := Removed(s.(sent := SentAll(s.sent, failed, Failed),
                         timers := s.timers - Handles(s.downloads, failed)), failed);
    assert FailMatching(s, "p", None) == DequeueNext(s');
    assert s'.active == {} && 3 in s'.downloads;
    assert s'.pending[1..] == [4];
  }

  // Two slots held by one peer's downloads, two downloads of another peer waiting: when the first peer
  // disconnects, both slots come free and only one is taken again.
  lemma StallExample() returns (events: seq<Event>)
    ensures FreshRequests(FourWanted())
    ensures Run(Start(Some(2), FourWanted()), events) && FairRun(Start(Some(2), FourWanted()), events)
    ensures var s := After(Start(Some(2), FourWanted()), events);
            s.loggedIn && Room(s) && s.pending == [4] && s.active == {3}
  {
    hide Start, Drain, FailMatching, FourWanted;
    var s0 := Start(Some(2), FourWanted());
    var s1 := s0.(loggedIn := true);
    StartExample();
    StartSettings();
    LoggedInExample(s1);
    DrainSettings(s1);
    FailureExample(Drain(s1));
    events := [LoginSucceeded, Failure("p", None)];
    NoEvent(Next(Drain(s1), Failure("p", None)));
    FirstEvent(Drain(s1), Failure("p", None), []);
    FirstEvent(s0, LoginSucceeded, [Failure("p", None)]);
    assert [LoginSucceeded] + [Failure("p", None)] == events && [Failure("p", None)] + [] == [Failure("p", None)];
  }

  // ----- Violations of the assumptions

  lemma StartOne(maxConcurrent: Option<nat>)
    ensures var s := Start(maxConcurrent, [Wanted(1, "p")]);
            && s.pending == [1] && s.downloads == map[1 := Wanted(1, "p")] && s.active == {} && !s.loggedIn
            && s.timers == map[] && s.nextTimer == 0 && s.inbox == multiset{} && s.sent == map[1 := []]
            && s.maxConcurrent == maxConcurrent
    ensures FreshRequests([Wanted(1, "p")])
  {
    assert Table([]) == map[];
    assert [Wanted(1, "p")][..0] == [];
  }

  // Before the login, a completion that names a waiting download leaves its token in the queue of a manager
  // that no longer knows it.
  lemma PendingCompletionExample()
    ensures var s0, events := Start(Some(1), [Wanted(1, "p")]), [Completion(1, Failed)];
            Run(s0, events) && !Split(After(s0, events)) && After(s0, events).pending == [1]
  {
    var s0 := Start(Some(1), [Wanted(1, "p")]);
    StartOne(Some(1));
    hide Start;
    var s1 := Next(s0, Completion(1, Failed));
    assert s1.pending == [1] && 1 !in s1.downloads;
    NoEvent(s1);
    FirstEvent(s0, Completion(1, Failed), []);
    assert [Completion(1, Failed)] + [] == [Completion(1, Failed)];
  }

  // A token that is taken again while its download waits is queued twice.
  lemma ReusedTokenExample()
    ensures var s0, events := Start(Some(1), [Wanted(1, "p")]), [Request(Wanted(1, "p"))];
            Run(s0, events) && !Split(After(s0, events)) && After(s0, events).pending == [1, 1]
  {
    var s0 := Start(Some(1), [Wanted(1, "p")]);
    StartOne(Some(1));
    hide Start;
    var s1 := Next(s0, Request(Wanted(1, "p")));
    assert s1.pending == [1, 1] && s1.pending[0] == s1.pending[1];
    NoEvent(s1);
    FirstEvent(s0, Request(Wanted(1, "p")), []);
    assert [Request(Wanted(1, "p"))] + [] == [Request(Wanted(1, "p"))];
  }

  // A download starts, its timer fires, it is cancelled, and its token is taken again after the server has gone:
  // the timeout message of the first download then removes the second one from the table, but not from the queue.
  lemma LateTimeoutExample() returns (events: seq<Event>)
    ensures var s0 := Start(None, [Wanted(1, "p")]);
            Run(s0, events) && !Split(After(s0, events)) && After(s0, events).pending == [1]
  {
    var s0 := Start(None, [Wanted(1, "p")]);
    StartOne(None);
    hide Start;
    var s1 := StartedOne(s0);
    var s3 := CancelledLate(s1);
    var last := LateRequest(s3);
    hide Next, Possible, Run, After, Split;
    ThreeEvents(s0, LoginSucceeded, TimerFires(0), CancelRequest(1), last);
    events := [LoginSucceeded, TimerFires(0), CancelRequest(1)] + last;
  }

  lemma LateRequest(s: State) returns (events: seq<Event>)
    requires s.pending == [] && s.active == {} && s.downloads == map[] && s.inbox == multiset{1}
    ensures Run(s, events) && !Split(After(s, events)) && After(s, events).pending == [1]
  {
    hide Next, Run, After, Split;
    var again := Request(Wanted(1, "p"));
    var s2 := Requeued(s);
    TimeoutBreaks(s2);
    NoEvent(Next(s2, TimeoutArrives(1)));
    ThreeEvents(s, ServerDisconnected, again, TimeoutArrives(1), []);
    events := [ServerDisconnected, again, TimeoutArrives(1)] + [];
  }

  lemma TimeoutBreaks(s: State)
    requires s.pending == [1] && s.active == {} && s.downloads == map[1 := Wanted(1, "p")] && 1 in s.inbox
    ensures var s' := Next(s, TimeoutArrives(1)); s'.pending == [1] && !Split(s')
  {
    var s' := Next(s, TimeoutArrives(1));
    assert 1 in s'.pending && 1 !in s'.downloads;
  }

  lemma ThreeEvents(s: State, e1: Event, e2: Event, e3: Event, events: seq<Event>)
    requires Possible(s, e1) && Possible(Next(s, e1), e2) && Possible(Next(Next(s, e1), e2), e3)
    requires Run(Next(Next(Next(s, e1), e2), e3), events)
    ensures Run(s, [e1, e2, e3] + events)
    ensures After(s, [e1, e2, e3] + events) == After(Next(Next(Next(s, e1), e2), e3), events)
  {
    hide Next, Possible, Run, After;
    FirstEvent(Next(Next(s, e1), e2), e3, events);
    FirstEvent(Next(s, e1), e2, [e3] + events);
    FirstEvent(s, e1, [e2] + ([e3] + events));
    assert [e1, e2, e3] + events == [e1] + ([e2] + ([e3] + events));
  }

  lemma StartedOne(s: State) returns (s': State)
    requires s.pending == [1] && s.downloads == map[1 := Wanted(1, "p")] && s.active == {} && s.maxConcurrent == None
    requires s.timers == map[] && s.nextTimer == 0 && s.inbox == multiset{}
    ensures s' == Next(s, LoginSucceeded) && s'.loggedIn && s'.pending == [] && s'.active == {1}
    ensures s'.downloads.Keys == {1} && s'.downloads[1].timer == Some(0) && s'.timers == map[0 := 1]
    ensures s'.inbox == multiset{} && s'.maxConcurrent == None
  {
    s' := Next(s, LoginSucceeded);
    var s1 := s.(loggedIn := true);
    var s2 := Initiate(s1.(pending := s1.pending[1..]), 1);
    assert s1.pending[1..] == [];
    assert Drain(s1) == Drain(s2) == s2;
  }

  lemma CancelledLate(s: State) returns (s': State)
    requires s.pending == [] && s.active == {1} && s.downloads.Keys == {1} && s.downloads[1].timer == Some(0)
    requires s.timers == map[0 := 1] && s.inbox == multiset{}
    ensures Possible(s, TimerFires(0)) && s' == Next(Next(s, TimerFires(0)), CancelRequest(1))
    ensures s'.pending == [] && s'.active == {} && s'.downloads == map[] && s'.inbox == multiset{1}
  {
    var s1 := Next(s, TimerFires(0));
    s' := Next(s1, CancelRequest(1));
    assert Without(s1.pending, {1}) == [];
  }

  lemma Requeued(s: State) returns (s': State)
    requires s.pending == [] && s.active == {} && s.downloads == map[] && s.inbox == multiset{1}
    ensures s' == Next(Next(s, ServerDisconnected), Request(Wanted(1, "p")))
    ensures s'.pending == [1] && s'.active == {} && s'.downloads == map[1 := Wanted(1, "p")] && s'.inbox == multiset{1}
  {
    s' := Next(Next(s, ServerDisconnected), Request(Wanted(1, "p")));
  }

  // A download that was handed over at the start is cancelled without ever having been reported as queued.
  lemma EarlyExample()
    ensures var s0, events := Start(None, [Wanted(1, "p")]), [LoginSucceeded, CancelRequest(1)];
            && FreshRequests([Wanted(1, "p")]) && Run(s0, events) && FairRun(s0, events)
            && 1 in After(s0, events).sent && After(s0, events).sent[1] == [Cancelled]
  {
    var s0 := Start(None, [Wanted(1, "p")]);
    StartOne(None);
    hide Start;
    var s1 := StartedOne(s0);
    DrainSends(s0.(loggedIn := true));
    var s2 := Next(s1, CancelRequest(1));
    CancelGrows(s1, 1);
    assert s2.sent[1] == [Cancelled] by { CancelSends(s1, 1); }
    NoEvent(s2);
    hide Next;
    FirstEvent(s1, CancelRequest(1), []);
    FirstEvent(s0, LoginSucceeded, [CancelRequest(1)]);
    assert [CancelRequest(1)] + [] == [CancelRequest(1)];
    assert [LoginSucceeded] + [CancelRequest(1)] == [LoginSucceeded, CancelRequest(1)];
  }

  lemma CancelSends(s: State, t: Token)
    requires t in s.downloads && t in s.sent
    ensures var s' := OnCancel(s, t); t in s'.sent && s'.sent[t] == s.sent[t] + [Cancelled]
  {
    hide Without, Aborted, DequeueNext;
    DequeueSends(Removed(s.(pending := Without(s.pending, {t}), timers := Aborted(s.timers, s.downloads[t].timer),
                            sent := Sent(s.sent, t, Cancelled)), {t}));
  }
}
