/** The status that is recorded of a download, against what its owner was told last. */
module DownloadStatus {
  import opened Collections
  import opened DownloadLaws
  import opened DownloadOrder
  import opened DownloadProofs
  import opened DownloadSpec

  function LastTold(s: State, t: Token): Option<Status> {
    if Trace(s, t) == [] then None else Some(Trace(s, t)[|Trace(s, t)| - 1])
  }

  // What is recorded as queued by the peer was told last, with the same place.
  ghost predicate Honest(s: State) {
    forall t | t in s.downloads && s.downloads[t].status.QueuedRemotely? ::
      LastTold(s, t) == Some(s.downloads[t].status)
  }

  predicate FromPeer(e: Event) {
    e.TransferRequest? || e.QueuePosition? || e.TransferRejected?
  }

  // Who is known after an event.
  lemma KnownAfter(s: State, e: Event)
    requires Possible(s, e)
    ensures Next(s, e).downloads.Keys
         == s.downloads.Keys - Leaving(s, e) + if e.Request? then {e.d.token} else {}
  {
    hide Room, Drain, Aborted, Sent, OnCompleted, FailMatching, OnCancel, OnTimeout;
    match e {
      case Completion(t, status) => CompletionKnown(s, t, status);
      case Failure(username, filename) => FailureKnown(s, username, filename);
      case CancelRequest(t) => CancelKnown(s, t);
      case TimeoutArrives(t) => TimeoutKnown(s.(inbox := s.inbox - multiset{t}), t);
      case LoginSucceeded => DrainKeys(s.(loggedIn := true));
      case _ =>
    }
  }

  lemma CompletionKnown(s: State, t: Token, status: Status)
    ensures OnCompleted(s, t, status).downloads.Keys == s.downloads.Keys - {t}
  {
    DequeueKeys(Removed(if t in s.downloads then s.(sent := Sent(s.sent, t, status)) else s, {t}));
    hide DequeueNext, Sent;
  }

  lemma FailureKnown(s: State, username: string, filename: Option<string>)
    ensures FailMatching(s, username, filename).downloads.Keys
         == s.downloads.Keys - Leaving(s, Failure(username, filename))
  {
    var failed := Matching(s.downloads, username, filename);
    DequeueKeys(Removed(s.(sent := SentAll(s.sent, failed, Failed), pending := Without(s.pending, failed),
                           timers := s.timers - Handles(s.downloads, failed)), failed));
    assert Leaving(s, Failure(username, filename)) == failed;
    hide DequeueNext, SentAll, Without, Handles, Matching, Leaving;
  }

  lemma CancelKnown(s: State, t: Token)
    ensures OnCancel(s, t).downloads.Keys == s.downloads.Keys - {t}
  {
    if t in s.downloads {
      DequeueKeys(Removed(s.(pending := Without(s.pending, {t}), timers := Aborted(s.timers, s.downloads[t].timer),
                             sent := Sent(s.sent, t, Cancelled)), {t}));
    }
    hide DequeueNext, Sent, Without, Aborted;
  }

  lemma TimeoutKnown(s: State, t: Token)
    ensures OnTimeout(s, t).downloads.Keys
         == s.downloads.Keys - if t in s.downloads && s.downloads[t].status.QueuedLocally? then {t} else {}
  {
    DequeueKeys(Removed(s.(sent := Sent(s.sent, t, TimedOut)), {t}));
    hide DequeueNext, Sent;
  }

  lemma {:induction false} DrainKeys(s: State)
    ensures Drain(s).downloads.Keys == s.downloads.Keys
    decreases |s.pending|
  {
    if Room(s) && s.pending != [] {
      DrainKeys(Initiate(s.(pending := s.pending[1..]), s.pending[0]));
    }
  }

  // Whoever is told something and stays is told so by a request or a peer, and what a peer's event tells is recorded.
  lemma ToldAndKnown(s: State, e: Event, t: Token)
    requires Possible(s, e) && t in Next(s, e).downloads && Report(s, e, t) != []
    ensures if e.Request? then t == e.d.token
            else FromPeer(e) && t == e.token && Report(s, e, t) == [Next(s, e).downloads[t].status]
  {
    KnownAfter(s, e);
    hide OnCompleted, FailMatching, OnCancel, OnTimeout, Drain, Initiate, Aborted, Sent, SentAll, Room;
  }

  lemma RequestKeeps(s: State, d: Download, t: Token)
    requires Possible(s, Request(d))
    ensures var s' := Next(s, Request(d));
            && (t in s'.downloads && t != d.token ==> t in s.downloads && s'.downloads[t] == s.downloads[t])
            && (d.status == QueuedLocally ==> s'.downloads[d.token].status == QueuedLocally)
  {
    hide Sent, Room;
  }

  lemma EventHonest(s: State, e: Event)
    requires Possible(s, e) && Honest(s) && (e.Request? ==> e.d.status == QueuedLocally)
    ensures Honest(Next(s, e))
  {
    var s' := Next(s, e);
    KnownAfter(s, e);
    hide Next, Possible, Report, Trace, Leaving, Stopped, Untouched;
    forall t | t in s'.downloads && s'.downloads[t].status.QueuedRemotely?
      ensures LastTold(s', t) == Some(s'.downloads[t].status)
    {
      StillHonest(s, e, t);
    }
  }

  lemma StillHonest(s: State, e: Event, t: Token)
    requires Possible(s, e) && Honest(s) && (e.Request? ==> e.d.status == QueuedLocally)
    requires t in Next(s, e).downloads && Next(s, e).downloads[t].status.QueuedRemotely?
    ensures LastTold(Next(s, e), t) == Some(Next(s, e).downloads[t].status)
  {
    EventTells(s, e, t);
    KnownAfter(s, e);
    if Report(s, e, t) != [] {
      ToldAndKnown(s, e, t);
      if e.Request? {
        RequestKeeps(s, e.d, t);
      }
    } else {
      assert Trace(s, t) + [] == Trace(s, t);
      SilentStatus(s, e, t);
    }
    hide Next, Possible, Report, Trace, Leaving;
  }

  // Who is told nothing keeps its status, unless it starts.
  lemma SilentStatus(s: State, e: Event, t: Token)
    requires Possible(s, e) && t in Next(s, e).downloads && Report(s, e, t) == []
    ensures t in s.downloads
    ensures Next(s, e).downloads[t].status in {s.downloads[t].status, QueuedLocally}
  {
    KnownAfter(s, e);
    if e.Request? {
      RequestKeeps(s, e.d, t);
    } else {
      EventUntouched(s, e, t);
    }
    hide Next;
  }

  ghost predicate RequestedLocally(events: seq<Event>) {
    forall e | e in events && e.Request? :: e.d.status == QueuedLocally
  }

  lemma {:induction false} RunHonest(s: State, events: seq<Event>)
    requires Run(s, events) && Honest(s) && RequestedLocally(events)
    ensures Honest(After(s, events))
    decreases |events|
  {
    if events != [] {
      hide Next, Possible, Honest;
      assert events[0] in events && forall e | e in events[1..] :: e in events;
      EventHonest(s, events[0]);
      RunHonest(Next(s, events[0]), events[1..]);
    }
  }

  // Whatever the environment does, a download that is recorded as queued by the peer was told so last, with its place.
  lemma RemoteIsToldLast(maxConcurrent: Option<nat>, requested: seq<Download>, events: seq<Event>, t: Token)
    requires Run(Start(maxConcurrent, requested), events)
    requires RequestedLocally(events) && forall d | d in requested :: d.status == QueuedLocally
    ensures var s := After(Start(maxConcurrent, requested), events);
            t in s.downloads && s.downloads[t].status.QueuedRemotely? ==> LastTold(s, t) == Some(s.downloads[t].status)
  {
    TableStatus(requested);
    var s0 := Start(maxConcurrent, requested);
    assert Honest(s0);
    hide Start, Run, After;
    RunHonest(s0, events);
  }

  lemma {:induction false} TableStatus(requested: seq<Download>)
    requires forall d | d in requested :: d.status == QueuedLocally
    ensures forall t | t in Table(requested) :: Table(requested)[t].status == QueuedLocally
  {
    if requested != [] {
      assert forall d | d in requested[..|requested| - 1] :: d in requested;
      TableStatus(requested[..|requested| - 1]);
    }
  }
}
