/** What a download is told, what is recorded of it, in which order downloads start, and which timers run. */
module DownloadLaws {
  import opened Collections
  import opened DownloadProofs
  import opened DownloadSpec

  // ----- What is told

  function Trace(s: State, t: Token): seq<Status> {
    if t in s.sent then s.sent[t] else []
  }

  // What the owner of t hears of an event.
  function Report(s: State, e: Event, t: Token): seq<Status> {
    match e
    case Request(d) => if t == d.token then [QueuedLocally] else []
    case Completion(u, status) => if t == u && t in s.downloads then [status] else []
    case Failure(username, filename) =>
      if t !in s.downloads || s.downloads[t].username != username then []
      else if filename.None? || filename.value == s.downloads[t].filename then [Failed] else []
    case CancelRequest(u) => if t == u && t in s.downloads then [Cancelled] else []
    case TimeoutArrives(u) =>
      if t == u && t in s.downloads && s.downloads[t].status == QueuedLocally then [TimedOut] else []
    case TransferRequest(u, _, _) => if t == u then [QueuedRemotely(None)] else []
    case QueuePosition(u, place) => if t == u then [QueuedRemotely(Some(place))] else []
    case TransferRejected(u) => if t == u then [QueuedRemotely(None)] else []
    case _ => []
  }

  lemma SentTrace(s: State, u: Token, status: Status, t: Token)
    ensures Trace(s.(sent := Sent(s.sent, u, status)), t) == Trace(s, t) + if t == u then [status] else []
  {
  }

  lemma SentAllTrace(s: State, ts: set<Token>, status: Status, t: Token)
    ensures Trace(s.(sent := SentAll(s.sent, ts, status)), t) == Trace(s, t) + if t in ts then [status] else []
  {
  }

  // The owner of a download hears exactly this of every event.
  lemma EventTells(s: State, e: Event, t: Token)
    requires Possible(s, e)
    ensures Trace(Next(s, e), t) == Trace(s, t) + Report(s, e, t)
  {
    hide Without, Handles, Room, Aborted, Drain, DequeueNext, Initiate, Sent, SentAll;
    hide OnCompleted, OnCancel, OnTimeout, FailMatching;
    match e {
      case Request(d) =>
        SentTrace(s, d.token, QueuedLocally, t);
        InitiateSends(Accepted(s, d), d.token);
      case Completion(u, status) =>
        SentTrace(s, u, status, t);
        CompletionTells(s, u, status);
      case Failure(username, filename) => FailureTells(s, username, filename, t);
      case CancelRequest(u) =>
        SentTrace(s, u, Cancelled, t);
        CancelTells(s, u);
      case TimeoutArrives(u) =>
        SentTrace(s, u, TimedOut, t);
        TimeoutTells(s.(inbox := s.inbox - multiset{u}), u);
      case TransferRequest(u, _, _) => SentTrace(s, u, QueuedRemotely(None), t);
      case QueuePosition(u, place) => SentTrace(s, u, QueuedRemotely(Some(place)), t);
      case TransferRejected(u) => SentTrace(s, u, QueuedRemotely(None), t);
      case LoginSucceeded => DrainSends(s.(loggedIn := true));
      case _ =>
    }
  }

  ghost function Reports(s: State, events: seq<Event>, t: Token): seq<Status>
    requires Run(s, events)
    decreases |events|
  {
    if events == [] then [] else Report(s, events[0], t) + Reports(Next(s, events[0]), events[1..], t)
  }

  lemma Joined<T>(a: seq<T>, b: seq<T>, c: seq<T>)
    ensures a + [] == a && a + b + c == a + (b + c)
  {
  }

  // So over whole runs, whatever the environment does.
  lemma {:induction false} RunTells(s: State, events: seq<Event>, t: Token)
    requires Run(s, events)
    ensures Trace(After(s, events), t) == Trace(s, t) + Reports(s, events, t)
    decreases |events|
  {
    hide Next, Possible, Report, Trace;
    if events == [] {
      Joined(Trace(s, t), [], []);
    } else {
      var s1, rest := Next(s, events[0]), events[1..];
      EventTells(s, events[0], t);
      RunTells(s1, rest, t);
      Joined(Trace(s, t), Report(s, events[0], t), Reports(s1, rest, t));
    }
  }

  lemma CompletionTells(s: State, u: Token, status: Status)
    ensures OnCompleted(s, u, status).sent == if u in s.downloads then Sent(s.sent, u, status) else s.sent
  {
    hide DequeueNext, Sent;
    DequeueSends(Removed(if u in s.downloads then s.(sent := Sent(s.sent, u, status)) else s, {u}));
  }

  lemma TimeoutTells(s: State, u: Token)
    ensures OnTimeout(s, u).sent
         == if u in s.downloads && s.downloads[u].status == QueuedLocally then Sent(s.sent, u, TimedOut) else s.sent
  {
    hide DequeueNext, Sent;
    DequeueSends(Removed(s.(sent := Sent(s.sent, u, TimedOut)), {u}));
  }

  lemma FailureTells(s: State, username: string, filename: Option<string>, t: Token)
    ensures Trace(FailMatching(s, username, filename), t)
         == Trace(s, t) + Report(s, Failure(username, filename), t)
  {
    hide Without, Handles, DequeueNext, SentAll;
    var failed := Matching(s.downloads, username, filename);
    SentAllTrace(s, failed, Failed, t);
    DequeueSends(Removed(s.(sent := SentAll(s.sent, failed, Failed), pending := Without(s.pending, failed),
                            timers := s.timers - Handles(s.downloads, failed)), failed));
  }

  lemma CancelTells(s: State, u: Token)
    ensures OnCancel(s, u).sent == if u in s.downloads then Sent(s.sent, u, Cancelled) else s.sent
  {
    hide Without, Aborted, DequeueNext, Sent;
    if u in s.downloads {
      DequeueSends(Removed(s.(pending := Without(s.pending, {u}), timers := Aborted(s.timers, s.downloads[u].timer),
                              sent := Sent(s.sent, u, Cancelled)), {u}));
    }
  }

  // ----- What is recorded

  datatype Details = Details(username: string, filename: string, size: nat, peerToken: Option<nat>)

  function DetailsOf(d: Download): Details {
    Details(d.username, d.filename, d.size, d.peerToken)
  }

  // Requests say everything, and later transfer requests the size and the peer's token; nothing else changes them.
  function Noted(notes: map<Token, Details>, e: Event): map<Token, Details> {
    match e
    case Request(d) => notes[d.token := DetailsOf(d)]
    case TransferRequest(t, peerToken, size) =>
      if t in notes then notes[t := notes[t].(size := size, peerToken := Some(peerToken))] else notes
    case _ => notes
  }

  function NotedAll(notes: map<Token, Details>, events: seq<Event>): map<Token, Details>
    decreases |events|
  {
    if events == [] then notes else NotedAll(Noted(notes, events[0]), events[1..])
  }

  // The notes are right about all known downloads.
  ghost predicate Records(s: State, notes: map<Token, Details>) {
    forall t | t in s.downloads :: t in notes && notes[t] == DetailsOf(s.downloads[t]) && s.downloads[t].token == t
  }

  lemma InitiateRecords(s: State, t: Token, notes: map<Token, Details>)
    requires Records(s, notes)
    ensures Records(Initiate(s, t), notes)
  {
  }

  lemma DequeueRecords(s: State, notes: map<Token, Details>)
    requires Records(s, notes)
    ensures Records(DequeueNext(s), notes)
  {
    if s.loggedIn && Room(s) && s.pending != [] {
      InitiateRecords(s.(pending := s.pending[1..]), s.pending[0], notes);
    }
  }

  lemma {:induction false} DrainRecords(s: State, notes: map<Token, Details>)
    requires Records(s, notes)
    ensures Records(Drain(s), notes)
    decreases |s.pending|
  {
    if Room(s) && s.pending != [] {
      InitiateRecords(s.(pending := s.pending[1..]), s.pending[0], notes);
      hide Initiate;
      DrainRecords(Initiate(s.(pending := s.pending[1..]), s.pending[0]), notes);
    }
  }

  lemma RemovedRecords(s: State, ts: set<Token>, notes: map<Token, Details>)
    requires Records(s, notes)
    ensures Records(Removed(s, ts), notes)
  {
  }

  lemma EventRecords(s: State, e: Event, notes: map<Token, Details>)
    requires Records(s, notes) && Possible(s, e)
    ensures Records(Next(s, e), Noted(notes, e))
  {
    hide Without, Matching, Handles, Room, Aborted, Drain, DequeueNext, Initiate, Sent, SentAll, Removed;
    match e {
      case Request(d) =>
        AcceptedRecords(s, d, notes);
        InitiateRecords(Accepted(s, d), d.token, Noted(notes, e));
      case Completion(t, status) =>
        var s' := if t in s.downloads then s.(sent := Sent(s.sent, t, status)) else s;
        RemovedRecords(s', {t}, notes);
        DequeueRecords(Removed(s', {t}), notes);
      case Failure(username, filename) => FailureRecords(s, username, filename, notes);
      case CancelRequest(t) => CancelRecords(s, t, notes);
      case TimeoutArrives(t) => TimeoutRecords(s.(inbox := s.inbox - multiset{t}), t, notes);
      case LoginSucceeded => DrainRecords(s.(loggedIn := true), notes);
      case _ =>
    }
  }

  lemma AcceptedRecords(s: State, d: Download, notes: map<Token, Details>)
    requires Records(s, notes)
    ensures Records(Accepted(s, d), Noted(notes, Request(d)))
  {
  }

  lemma FailureRecords(s: State, username: string, filename: Option<string>, notes: map<Token, Details>)
    requires Records(s, notes)
    ensures Records(FailMatching(s, username, filename), notes)
  {
    hide Without, Matching, Handles, DequeueNext, SentAll, Removed;
    var failed := Matching(s.downloads, username, filename);
    var s' := s.(sent := SentAll(s.sent, failed, Failed), pending := Without(s.pending, failed),
                 timers := s.timers - Handles(s.downloads, failed));
    RemovedRecords(s', failed, notes);
    DequeueRecords(Removed(s', failed), notes);
  }

  lemma CancelRecords(s: State, t: Token, notes: map<Token, Details>)
    requires Records(s, notes)
    ensures Records(OnCancel(s, t), notes)
  {
    hide Without, Aborted, DequeueNext, Sent, Removed;
    if t in s.downloads {
      var s' := s.(pending := Without(s.pending, {t}), timers := Aborted(s.timers, s.downloads[t].timer),
                   sent := Sent(s.sent, t, Cancelled));
      RemovedRecords(s', {t}, notes);
      DequeueRecords(Removed(s', {t}), notes);
    }
  }

  lemma TimeoutRecords(s: State, t: Token, notes: map<Token, Details>)
    requires Records(s, notes)
    ensures Records(OnTimeout(s, t), notes)
  {
    hide DequeueNext, Sent, Removed;
    var s' := s.(sent := Sent(s.sent, t, TimedOut));
    RemovedRecords(s', {t}, notes);
    DequeueRecords(Removed(s', {t}), notes);
  }

  lemma {:induction false} RunRecords(s: State, events: seq<Event>, notes: map<Token, Details>)
    requires Records(s, notes) && Run(s, events)
    ensures Records(After(s, events), NotedAll(notes, events))
    decreases |events|
  {
    if events != [] {
      hide Records, Next, Possible, Noted;
      EventRecords(s, events[0], notes);
      RunRecords(Next(s, events[0]), events[1..], Noted(notes, events[0]));
    }
  }

  // In every reachable state, whatever the environment does, the user, file, size and peer's token of a known download
  // are those of its request and of the last transfer request for it.
  lemma RecordsKept(maxConcurrent: Option<nat>, requested: seq<Download>, events: seq<Event>, t: Token)
    requires Run(Start(maxConcurrent, requested), events)
    ensures var s0 := Start(maxConcurrent, requested);
            var s := After(s0, events);
            var notes := NotedAll(map u | u in s0.downloads :: DetailsOf(s0.downloads[u]), events);
            t in s.downloads ==> t in notes && DetailsOf(s.downloads[t]) == notes[t]
  {
    var s0 := Start(maxConcurrent, requested);
    TableKeys(requested);
    hide Table, Run, After, NotedAll;
    RunRecords(s0, events, map u | u in s0.downloads :: DetailsOf(s0.downloads[u]));
  }

  // What a transfer request leaves behind: the peer's token finds the download, and nothing else of it has changed.
  lemma TransferRecorded(s: State, t: Token, peerToken: nat, size: nat)
    requires t in s.downloads
    ensures var s' := OnTransferRequest(s, t, peerToken, size);
            && s'.downloads.Keys == s.downloads.Keys
            && s'.downloads[t].peerToken == Some(peerToken) && s'.downloads[t].size == size
            && s'.downloads[t].username == s.downloads[t].username
            && s'.downloads[t].filename == s.downloads[t].filename && s'.downloads[t].token == s.downloads[t].token
            && (forall u | u in s.downloads && u != t :: s'.downloads[u] == s.downloads[u])
  {
    hide Sent, Aborted;
  }

  // Who is found by a peer's token.
  function FoundBy(s: State, peerToken: nat): set<Token> {
    set t | t in s.downloads && s.downloads[t].peerToken == Some(peerToken)
  }

  // A rejection that follows finds a download, and it finds t if no other download carries that token; what was
  // recorded of t outlives the rejection.
  lemma RejectionFinds(s: State, t: Token, peerToken: nat, size: nat)
    requires t in s.downloads
    ensures var s' := OnTransferRequest(s, t, peerToken, size);
            && FoundBy(s', peerToken) == FoundBy(s, peerToken) + {t}
            && (forall u | u in FoundBy(s', peerToken) ::
                  var r := OnTransferRejected(s', u);
                  r.downloads[t].peerToken == Some(peerToken) && r.downloads[t].size == size)
  {
    TransferRecorded(s, t, peerToken, size);
    hide OnTransferRequest, Sent, Aborted;
  }

  // ----- Timeouts

  // A download that the peer has queued is not timed out, and one that has just been started is.
  lemma TimeoutIff(s: State, t: Token, place: Option<nat>)
    requires t in s.downloads
    ensures OnTimeout(QueuedAt(s, t, place), t) == QueuedAt(s, t, place)
    ensures t !in OnTimeout(Initiate(s, t), t).downloads
    ensures Trace(OnTimeout(Initiate(s, t), t), t) == Trace(s, t) + [TimedOut]
  {
    var s1 := Initiate(s, t);
    InitiateSends(s, t);
    SentTrace(s1, t, TimedOut, t);
    DequeueSends(Removed(s1.(sent := Sent(s1.sent, t, TimedOut)), {t}));
    DequeueKeys(Removed(s1.(sent := Sent(s1.sent, t, TimedOut)), {t}));
    hide Sent, Aborted, DequeueNext;
  }

  lemma DequeueKeys(s: State)
    ensures DequeueNext(s).downloads.Keys == s.downloads.Keys
  {
  }

  // ----- Starting downloads

  function StartAll(s: State, ts: seq<Token>): State
    decreases |ts|
  {
    if ts == [] then s else StartAll(Initiate(s, ts[0]), ts[1..])
  }

  function Members(ts: seq<Token>): set<Token> {
    set t | t in ts
  }

  lemma {:induction false} StartAllSlots(s: State, ts: seq<Token>)
    requires forall t | t in ts :: t in s.downloads
    ensures var s' := StartAll(s, ts);
            && s'.pending == s.pending && s'.active == s.active + Members(ts) && s'.downloads.Keys == s.downloads.Keys
            && s'.nextTimer == s.nextTimer + |ts| && s'.inbox == s.inbox && s'.sent == s.sent
            && s'.loggedIn == s.loggedIn && s'.maxConcurrent == s.maxConcurrent
    decreases |ts|
  {
    if ts != [] {
      StartFirst(s, ts, Initiate(s, ts[0]));
      hide Initiate, Members;
      StartAllSlots(Initiate(s, ts[0]), ts[1..]);
    } else {
      assert Members(ts) == {};
    }
  }

  // The i-th of them gets the i-th new timer; other timers stay.
  lemma {:induction false} StartAllTimers(s: State, ts: seq<Token>, id: nat)
    requires forall t | t in ts :: t in s.downloads
    ensures var timers, added := StartAll(s, ts).timers, s.nextTimer <= id < s.nextTimer + |ts|;
            && (id in timers <==> id in s.timers || added)
            && (id in timers ==> timers[id] == if added then ts[id - s.nextTimer] else s.timers[id])
    decreases |ts|
  {
    if ts != [] {
      StartFirst(s, ts, Initiate(s, ts[0]));
      hide Initiate, Members;
      StartAllTimers(Initiate(s, ts[0]), ts[1..], id);
    }
  }

  // Those that start are queued locally under their timers; the others stay as they are.
  lemma {:induction false} StartAllDownloads(s: State, ts: seq<Token>)
    requires Distinct(ts) && forall t | t in ts :: t in s.downloads
    ensures var s' := StartAll(s, ts);
            && s'.downloads.Keys == s.downloads.Keys
            && (forall i | 0 <= i < |ts| ::
                  s'.downloads[ts[i]] == s.downloads[ts[i]].(status := QueuedLocally, timer := Some(s.nextTimer + i)))
            && (forall t | t in s.downloads && t !in ts :: s'.downloads[t] == s.downloads[t])
    decreases |ts|
  {
    if ts != [] {
      var s1, rest := Initiate(s, ts[0]), ts[1..];
      StartFirst(s, ts, s1);
      DistinctTail(ts);
      hide Initiate, Members, Distinct;
      StartAllDownloads(s1, rest);
      var s' := StartAll(s1, rest);
      forall i | 0 <= i < |ts|
        ensures s'.downloads[ts[i]] == s.downloads[ts[i]].(status := QueuedLocally, timer := Some(s.nextTimer + i))
      {
        if i > 0 {
          assert rest[i - 1] == ts[i] && ts[i] != ts[0];
        }
      }
    }
  }

  lemma StartFirst(s: State, ts: seq<Token>, s1: State)
    requires ts != [] && ts[0] in s.downloads && s1 == Initiate(s, ts[0])
    ensures s1.pending == s.pending && s1.active == s.active + {ts[0]} && s1.downloads.Keys == s.downloads.Keys
    ensures s1.nextTimer == s.nextTimer + 1 && s1.inbox == s.inbox && s1.sent == s.sent
    ensures s1.loggedIn == s.loggedIn && s1.maxConcurrent == s.maxConcurrent
    ensures s1.timers == s.timers[s.nextTimer := ts[0]]
    ensures s1.downloads[ts[0]] == s.downloads[ts[0]].(status := QueuedLocally, timer := Some(s.nextTimer))
    ensures forall t | t in s.downloads && t != ts[0] :: s1.downloads[t] == s.downloads[t]
    ensures Members(ts) == {ts[0]} + Members(ts[1..])
  {
  }

  // Draining and dequeueing start a first part of the queue.
  lemma {:induction false} DrainStarts(s: State) returns (k: nat)
    ensures k <= |s.pending| && Drain(s) == StartAll(s.(pending := s.pending[k..]), s.pending[..k])
    decreases |s.pending|
  {
    if Room(s) && s.pending != [] {
      var t, rest := s.pending[0], s.pending[1..];
      var s1 := Initiate(s.(pending := rest), t);
      InitiateSettings(s.(pending := rest), t);
      k := DrainStarts(s1);
      assert rest[k..] == s.pending[k + 1..] && s.pending[..k + 1][1..] == rest[..k] && s.pending[..k + 1][0] == t;
      InitiateApart(s, rest, rest[k..], t);
      k := k + 1;
    } else {
      k := 0;
      assert s.pending[0..] == s.pending && s.pending[..0] == [];
    }
  }

  // What waits has no part in a start.
  lemma InitiateApart(s: State, waiting: seq<Token>, fewer: seq<Token>, t: Token)
    ensures Initiate(s.(pending := waiting), t).(pending := fewer) == Initiate(s.(pending := fewer), t)
  {
  }

  lemma DequeueStarts(s: State) returns (k: nat)
    ensures k <= |s.pending| && DequeueNext(s) == StartAll(s.(pending := s.pending[k..]), s.pending[..k])
  {
    if s.loggedIn && Room(s) && s.pending != [] {
      k := 1;
      var first := s.pending[..1];
      assert first[0] == s.pending[0] && first[1..] == [];
      StartOnly(s.(pending := s.pending[1..]), first);
      hide Initiate;
    } else {
      k := 0;
      assert s.pending[0..] == s.pending && s.pending[..0] == [];
    }
  }

  lemma StartOnly(s: State, ts: seq<Token>)
    requires |ts| == 1
    ensures StartAll(s, ts) == Initiate(s, ts[0])
  {
    hide Initiate;
    assert ts[1..] == [];
  }
}
