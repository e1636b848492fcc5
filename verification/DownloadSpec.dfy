/**
 The download manager as a transition system: one step per event, with the timers it arms, the timeout messages that are
 on their way back to it, and what it sends on every download's status channel.
 */
module DownloadSpec {
  import opened Collections

  type Token = nat

  datatype Status =
    | QueuedLocally
    | QueuedRemotely(place: Option<nat>)
    | Completed
    | Failed
    | TimedOut
    | Cancelled
  {
    predicate Terminal() { Completed? || Failed? || TimedOut? || Cancelled? }
  }

  datatype Download = Download(token: Token, username: string, filename: string, size: nat, peerToken: Option<nat>,
                               status: Status, timer: Option<nat>)

  // `timers` are the armed response timers, `inbox` the timeout messages not yet handled, `sent` what went out
  // on the status channel of every download ever accepted.
  datatype State = State(loggedIn: bool, pending: seq<Token>, maxConcurrent: Option<nat>, active: set<Token>,
                         downloads: map<Token, Download>, timers: map<nat, Token>, nextTimer: nat,
                         inbox: multiset<Token>, sent: map<Token, seq<Status>>)

  // ----- Steps of the methods

  function Sent(sent: map<Token, seq<Status>>, t: Token, status: Status): map<Token, seq<Status>> {
    sent[t := (if t in sent then sent[t] else []) + [status]]
  }

  function SentAll(sent: map<Token, seq<Status>>, ts: set<Token>, status: Status): map<Token, seq<Status>> {
    map t | t in sent.Keys + ts :: if t in ts then (if t in sent then sent[t] else []) + [status] else sent[t]
  }

  function Aborted(timers: map<nat, Token>, handle: Option<nat>): map<nat, Token> {
    if handle.Some? then timers - {handle.value} else timers
  }

  // A fresh timer for t; its handle replaces whatever the download remembers.
  function Armed(s: State, t: Token): State
    requires t in s.downloads
  {
    s.(timers := s.timers[s.nextTimer := t], nextTimer := s.nextTimer + 1,
       downloads := s.downloads[t := s.downloads[t].(timer := Some(s.nextTimer))])
  }

  predicate Room(s: State) {
    s.maxConcurrent.None? || |s.active| < s.maxConcurrent.value
  }

  function Initiate(s: State, t: Token): State {
    if t !in s.downloads then s
    else
      Armed(s.(active := s.active + {t}, downloads := s.downloads[t := s.downloads[t].(status := QueuedLocally)]), t)
  }

  function Enqueue(s: State, d: Download): State {
    var s' := s.(sent := Sent(s.sent, d.token, QueuedLocally), downloads := s.downloads[d.token := d]);
    if s.loggedIn && Room(s) then Initiate(s', d.token) else s'.(pending := s.pending + [d.token])
  }

  function Drain(s: State): State
    decreases |s.pending|
  {
    if !Room(s) || s.pending == [] then s
    else Drain(Initiate(s.(pending := s.pending[1..]), s.pending[0]))
  }

  function DequeueNext(s: State): State {
    if !s.loggedIn || !Room(s) || s.pending == [] then s
    else Initiate(s.(pending := s.pending[1..]), s.pending[0])
  }

  function Removed(s: State, ts: set<Token>): State {
    s.(downloads := s.downloads - ts, active := s.active - ts)
  }

  function OnCompleted(s: State, t: Token, status: Status): State {
    var s' := if t in s.downloads then s.(sent := Sent(s.sent, t, status)) else s;
    DequeueNext(Removed(s', {t}))
  }

  // The downloads from one peer, or of one file of that peer.
  function Matching(downloads: map<Token, Download>, username: string, filename: Option<string>): set<Token> {
    set t | t in downloads && downloads[t].username == username
            && (filename.None? || downloads[t].filename == filename.value)
  }

  function Handles(downloads: map<Token, Download>, ts: set<Token>): set<nat> {
    set t | t in ts && t in downloads && downloads[t].timer.Some? :: downloads[t].timer.value
  }

  function FailMatching(s: State, username: string, filename: Option<string>): State {
    var failed := Matching(s.downloads, username, filename);
    var s' := Removed(s.(sent := SentAll(s.sent, failed, Failed), pending := Without(s.pending, failed),
                         timers := s.timers - Handles(s.downloads, failed)), failed);
    if failed == {} then s' else DequeueNext(s')
  }

  function OnCancel(s: State, t: Token): State {
    var s1 := s.(pending := Without(s.pending, {t}));
    if t !in s.downloads then s1
    else
      var timers := Aborted(s.timers, s.downloads[t].timer);
      var s2 := Removed(s1.(timers := timers, sent := Sent(s.sent, t, Cancelled)), {t});
      if t in s.active then DequeueNext(s2) else s2
  }

  function OnTimeout(s: State, t: Token): State {
    if t !in s.downloads || !s.downloads[t].status.QueuedLocally? then s
    else
      var s' := Removed(s.(sent := Sent(s.sent, t, TimedOut)), {t});
      if t in s.active then DequeueNext(s') else s'
  }

  // The timer of t is aborted and forgotten, and t is queued remotely.
  function QueuedAt(s: State, t: Token, place: Option<nat>): State
    requires t in s.downloads
  {
    var d := s.downloads[t];
    s.(timers := Aborted(s.timers, d.timer), sent := Sent(s.sent, t, QueuedRemotely(place)),
       downloads := s.downloads[t := d.(timer := None, status := QueuedRemotely(place))])
  }

  function OnTransferRequest(s: State, t: Token, peerToken: nat, size: nat): State
    requires t in s.downloads
  {
    var s' := QueuedAt(s, t, None);
    s'.(downloads := s'.downloads[t := s'.downloads[t].(peerToken := Some(peerToken), size := size)])
  }

  function OnQueuePosition(s: State, t: Token, place: nat): State
    requires t in s.downloads
  {
    Armed(QueuedAt(s, t, Some(place)), t)
  }

  function OnTransferRejected(s: State, t: Token): State
    requires t in s.downloads
  {
    Armed(QueuedAt(s, t, None), t)
  }

  // ----- Events. The three that look a download up name the one the map search came upon.

  datatype Event =
    | Request(d: Download)
    | Completion(token: Token, status: Status)
    | Failure(username: string, filename: Option<string>)
    | CancelRequest(token: Token)
    | TimerFires(timer: nat)
    | TimeoutArrives(token: Token)
    | TransferRequest(token: Token, peerToken: nat, fileSize: nat)
    | QueuePosition(token: Token, place: nat)
    | TransferRejected(token: Token)
    | ServerDisconnected
    | LoginSucceeded

  // What can happen at all.
  predicate Possible(s: State, e: Event) {
    match e
    case Request(d) => d.timer.None?
    case Completion(_, status) => status.Terminal()
    case TimerFires(id) => id in s.timers
    case TimeoutArrives(t) => t in s.inbox
    case TransferRequest(t, _, _) => t in s.downloads
    case QueuePosition(t, _) => t in s.downloads
    case TransferRejected(t) => t in s.downloads
    case _ => true
  }

  // The two assumptions about the environment: tokens are not reused, and a completion names a token
  // that is active or already gone.
  predicate Fair(s: State, e: Event) {
    match e
    case Request(d) => d.token !in s.sent
    case Completion(t, _) => t !in s.pending
    case _ => true
  }

  function Next(s: State, e: Event): State
    requires Possible(s, e)
  {
    match e
    case Request(d) => Enqueue(s, d)
    case Completion(t, status) => OnCompleted(s, t, status)
    case Failure(username, filename) => FailMatching(s, username, filename)
    case CancelRequest(t) => OnCancel(s, t)
    case TimerFires(id) => s.(timers := s.timers - {id}, inbox := s.inbox + multiset{s.timers[id]})
    case TimeoutArrives(t) => OnTimeout(s.(inbox := s.inbox - multiset{t}), t)
    case TransferRequest(t, peerToken, size) => OnTransferRequest(s, t, peerToken, size)
    case QueuePosition(t, place) => OnQueuePosition(s, t, place)
    case TransferRejected(t) => OnTransferRejected(s, t)
    case ServerDisconnected => s.(loggedIn := false)
    case LoginSucceeded => Drain(s.(loggedIn := true))
  }
}
