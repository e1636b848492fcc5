/** How many downloads an event starts. */
module DownloadSlots {
  import opened Collections
  import opened DownloadLaws
  import opened DownloadOrder
  import opened DownloadProofs
  import opened DownloadSpec

  // Those who wait when the downloads that leave are gone.
  function Waiting(s: State, e: Event): seq<Token> {
    Without(s.pending, Leaving(s, e))
  }

  // One slot is offered after every completion, after a failure of anything, and when an active download is cancelled
  // or times out.
  predicate Offers(s: State, e: Event) {
    e.Completion? || (Leaving(s, e) != {} && (e.Failure? || Leaving(s, e) * s.active != {}))
  }

  // How many may start until the cap is reached.
  function Slots(s: State, e: Event): nat {
    match s.maxConcurrent
    case None => |Waiting(s, e)|
    case Some(cap) => if |s.active - Leaving(s, e)| < cap then cap - |s.active - Leaving(s, e)| else 0
  }

  // How many start of those to whom slots are offered.
  function Starts(s: State, e: Event, offered: nat): nat {
    Smaller(offered, Smaller(|Waiting(s, e)|, Slots(s, e)))
  }

  // A login offers slots to everybody, and an offer of a manager that is logged in is for one.
  function HowMany(s: State, e: Event): nat {
    Starts(s, e, if e.LoginSucceeded? then |Waiting(s, e)| else if s.loggedIn && Offers(s, e) then 1 else 0)
  }

  function Smaller(a: nat, b: nat): nat { if a < b then a else b }

  lemma {:induction false} DrainCount(s: State)
    requires Distinct(s.pending) && forall t | t in s.pending :: t in s.downloads && t !in s.active
    ensures |Drain(s).pending|
         == |s.pending| - if s.maxConcurrent.None? then |s.pending|
                          else if |s.active| >= s.maxConcurrent.value then 0
                          else Smaller(|s.pending|, s.maxConcurrent.value - |s.active|)
    decreases |s.pending|
  {
    if Room(s) && s.pending != [] {
      var s1 := Initiate(s.(pending := s.pending[1..]), s.pending[0]);
      DistinctTail(s.pending);
      hide Distinct;
      assert s1.active == s.active + {s.pending[0]} && s1.pending == s.pending[1..];
      DrainCount(s1);
    }
  }

  // The state after the event's own effect offers one slot.
  lemma OfferCount(s: State, e: Event, base: State)
    requires base.pending == Waiting(s, e) && base.active == s.active - Leaving(s, e)
    requires base.loggedIn == s.loggedIn && base.maxConcurrent == s.maxConcurrent
    ensures |DequeueNext(base).pending| == |Waiting(s, e)| - Starts(s, e, if s.loggedIn then 1 else 0)
  {
    hide Without, Leaving;
  }

  lemma CompletionCount(s: State, t: Token, status: Status, early: set<Token>)
    requires Inv(s, early) && t !in s.pending && status.Terminal()
    ensures var e := Completion(t, status); |Next(s, e).pending| == |Waiting(s, e)| - HowMany(s, e)
  {
    hide Inv, OnCompleted, DequeueNext, Starts, Ended, Waiting;
    var e := Completion(t, status);
    var base := EndedOrNot(s, t, status, early);
    OfferCount(s, e, base);
  }

  // What is left of a completed download, known or not, before its slot is offered.
  lemma EndedOrNot(s: State, t: Token, status: Status, early: set<Token>) returns (base: State)
    requires Inv(s, early) && t !in s.pending && status.Terminal()
    ensures OnCompleted(s, t, status) == DequeueNext(base)
    ensures var e := Completion(t, status); base.pending == Waiting(s, e) && base.active == s.active - Leaving(s, e)
    ensures base.loggedIn == s.loggedIn && base.maxConcurrent == s.maxConcurrent
  {
    Nobody(s);
    if t in s.downloads {
      CompletionIsEnd(s, t, status);
      base := Ended(s, {t}, status);
    } else {
      assert s.downloads - {t} == s.downloads && s.active - {t} == s.active;
      base := s;
    }
    hide DequeueNext, Without, SentAll, Traced, Flow, Timed;
  }

  lemma FailureCount(s: State, username: string, filename: Option<string>)
    ensures var e := Failure(username, filename); |Next(s, e).pending| == |Waiting(s, e)| - HowMany(s, e)
  {
    var e, failed := Failure(username, filename), Matching(s.downloads, username, filename);
    assert Leaving(s, e) == failed;
    hide DequeueNext, Without, SentAll, Handles, Matching, Leaving, Starts;
    OfferCount(s, e, Removed(s.(sent := SentAll(s.sent, failed, Failed), pending := Without(s.pending, failed),
                                timers := s.timers - Handles(s.downloads, failed)), failed));
    NoStarts(s, e);
  }

  lemma NoStarts(s: State, e: Event)
    ensures Starts(s, e, 0) == 0
  {
  }

  lemma CancelCount(s: State, t: Token, early: set<Token>)
    requires Inv(s, early)
    ensures var e := CancelRequest(t); |Next(s, e).pending| == |Waiting(s, e)| - HowMany(s, e)
  {
    var e := CancelRequest(t);
    if t in s.downloads {
      var ids := if s.downloads[t].timer.Some? then {s.downloads[t].timer.value} else {};
      KnownCancel(s, t, ids);
      EndedCount(s, e, Ended(s, {t}, Cancelled).(timers := s.timers - ids), t);
    } else {
      UnknownCancel(s, t, early);
      NothingCount(s, e);
    }
    hide Inv, OnCancel, DequeueNext, Without, SentAll, HowMany, Ended;
  }

  // Only one who was active leaves a slot.
  lemma EndedCount(s: State, e: Event, base: State, t: Token)
    requires e == CancelRequest(t) && t in s.downloads
    requires base.pending == Without(s.pending, {t}) && base.active == s.active - {t}
    requires base.loggedIn == s.loggedIn && base.maxConcurrent == s.maxConcurrent
    ensures |(if t in s.active then DequeueNext(base) else base).pending| == |Waiting(s, e)| - HowMany(s, e)
  {
    NoStarts(s, e);
    hide Without, DequeueNext, Starts;
    OfferCount(s, e, base);
    if t in s.active {
      assert t in {t} * s.active;
    }
  }

  lemma NothingCount(s: State, e: Event)
    requires Leaving(s, e) == {} && !Offers(s, e) && !e.LoginSucceeded?
    ensures |s.pending| == |Waiting(s, e)| - HowMany(s, e)
  {
    NoStarts(s, e);
    Nobody(s);
    hide Without, Leaving, Starts, Offers;
  }

  lemma TimeoutCount(s: State, t: Token, early: set<Token>)
    requires Inv(s, early) && t in s.inbox
    ensures var e := TimeoutArrives(t); |Next(s, e).pending| == |Waiting(s, e)| - HowMany(s, e)
  {
    hide Inv, OnCompleted, Without, HowMany, Waiting;
    var e, s1 := TimeoutArrives(t), s.(inbox := s.inbox - multiset{t});
    NoLongerWaits(s, t, early);
    if t in s.downloads && s.downloads[t].status.QueuedLocally? {
      TimeoutIsCompletion(s1, t);
      CompletionCount(s1, t, TimedOut, early);
      assert t in Leaving(s, e) * s.active;
      SameSlots(s, s1, e, Completion(t, TimedOut));
    } else {
      NothingCount(s, e);
    }
    hide OnTimeout;
  }

  lemma SameSlots(s: State, s1: State, e: Event, e1: Event)
    requires s1 == s.(inbox := s1.inbox) && Leaving(s, e) == Leaving(s1, e1) && Offers(s, e) && Offers(s1, e1)
    requires !e.LoginSucceeded? && !e1.LoginSucceeded?
    ensures Waiting(s, e) == Waiting(s1, e1) && HowMany(s, e) == HowMany(s1, e1)
  {
    hide Leaving, Without, Offers;
  }

  lemma LoginCount(s: State, early: set<Token>)
    requires Inv(s, early)
    ensures |Next(s, LoginSucceeded).pending| == |Waiting(s, LoginSucceeded)| - HowMany(s, LoginSucceeded)
  {
    hide Inv, Drain, HowMany, Waiting, Distinct, Timed, Smaller, Room;
    Unstopped(s, early);
    WellFormed(s, early);
    LoginStarts(s);
    var s1 := s.(loggedIn := true);
    DrainCount(s1);
    assert Next(s, LoginSucceeded) == Drain(s1);
  }

  lemma LoginStarts(s: State)
    ensures var e := LoginSucceeded;
            && Waiting(s, e) == s.pending
            && HowMany(s, e) == if s.maxConcurrent.None? then |s.pending|
                                else if |s.active| >= s.maxConcurrent.value then 0
                                else Smaller(|s.pending|, s.maxConcurrent.value - |s.active|)
  {
    Nobody(s);
    hide Without;
  }

  lemma EventCount(s: State, e: Event, early: set<Token>)
    requires Inv(s, early) && Possible(s, e) && Fair(s, e) && !e.Request?
    ensures |Next(s, e).pending| == |Waiting(s, e)| - HowMany(s, e)
  {
    hide Inv, Without, HowMany, Waiting, OnCompleted, FailMatching, OnCancel, OnTimeout, Drain, Aborted, Sent;
    match e {
      case Completion(t, status) => CompletionCount(s, t, status, early);
      case Failure(username, filename) => FailureCount(s, username, filename);
      case CancelRequest(t) => CancelCount(s, t, early);
      case TimeoutArrives(t) => TimeoutCount(s, t, early);
      case LoginSucceeded => LoginCount(s, early);
      case _ => NothingCount(s, e);
    }
  }

  // After every event but a request the first of those who wait have started, exactly as many as this.
  lemma StartsExactly(s: State, e: Event, early: set<Token>)
    requires Inv(s, early) && Possible(s, e) && Fair(s, e) && !e.Request?
    ensures HowMany(s, e) <= |Waiting(s, e)|
    ensures Next(s, e).pending == Waiting(s, e)[HowMany(s, e)..]
    ensures Next(s, e).active == s.active - Leaving(s, e) + Members(Waiting(s, e)[..HowMany(s, e)])
  {
    var started, armed := EventServes(s, e, early);
    EventCount(s, e, early);
    hide Inv, Next, HowMany, Without, Members, Times, Possible, Fair, Leaving;
    assert started == Waiting(s, e)[..|started|] && Next(s, e).pending == Waiting(s, e)[|started|..];
  }
}
