/**
 The server actor as a transition system: its connection, its login state, the commands it holds back while it is not
 connected, and the messages it has put on its signal queue. Times are nanoseconds.
 */
module ServerSpec {
  import opened Arith
  import opened Collections

  const SECOND: nat := 1000000000
  const U64_MAX: nat := 18446744073709551615

  // ----- The reconnect delay

  // 1 shifted left by exp, unless all 64 bits are shifted out.
  function CheckedShl(exp: nat): Option<nat> {
    if exp < 64 then Some(Pow2(exp)) else None
  }

  function SaturatingMul(a: nat, b: nat): nat {
    Min(a * b, U64_MAX)
  }

  // In whole seconds: the checked shift and the saturating product never show.
  function BackoffSecs(attempt: nat, minDelay: nat, maxDelay: nat): (secs: nat)
    requires minDelay <= U64_MAX && maxDelay <= U64_MAX
    ensures secs == Min(minDelay * Pow2(if attempt == 0 then 0 else attempt - 1), maxDelay)
  {
    var exp := if attempt == 0 then 0 else attempt - 1;
    var factor := match CheckedShl(exp) case Some(f) => f case None => U64_MAX;
    if exp < 64 then
      Min(SaturatingMul(minDelay, factor), maxDelay)
    else
      ShiftedOut(exp, minDelay, maxDelay);
      Min(SaturatingMul(minDelay, factor), maxDelay)
  }

  lemma ShiftedOut(exp: nat, minDelay: nat, maxDelay: nat)
    requires exp >= 64 && maxDelay <= U64_MAX
    ensures Min(SaturatingMul(minDelay, U64_MAX), maxDelay) == Min(minDelay * Pow2(exp), maxDelay)
  {
    Pow2Mono(64, exp);
    SixtyFour();
    hide Pow2;
    if minDelay > 0 {
      MulMono(1, U64_MAX, minDelay, U64_MAX);
      MulMono(1, U64_MAX, minDelay, Pow2(exp));
    }
  }

  lemma SixtyFour()
    ensures Pow2(64) == U64_MAX + 1
  {
    assert Pow2(8) == 256;
    hide Pow2;
    Pow2Add(8, 8);
    assert Pow2(16) == 65536;
    Pow2Add(16, 16);
    assert Pow2(32) == 4294967296;
    Pow2Add(32, 32);
  }

  // Later attempts never wait less, and no attempt waits longer than the longest delay.
  lemma BackoffGrows(attempt: nat, later: nat, minDelay: nat, maxDelay: nat)
    requires minDelay <= U64_MAX && maxDelay <= U64_MAX && attempt <= later
    ensures BackoffSecs(attempt, minDelay, maxDelay) <= BackoffSecs(later, minDelay, maxDelay) <= maxDelay
  {
    var a, b := if attempt == 0 then 0 else attempt - 1, if later == 0 then 0 else later - 1;
    Pow2Mono(a, b);
    MulMono(minDelay, Pow2(a), minDelay, Pow2(b));
  }

  // ----- State

  datatype Command =
    | Login(username: string, password: string)
    | FileSearch(token: nat, query: string)
    | PierceFirewall(pierceToken: nat)
    | GetPeerAddress(peer: string)

  datatype Message =
    | LoginMessage(username: string, password: string)
    | FileSearchMessage(token: nat, query: string)
    | PierceFirewallMessage(pierceToken: nat)
    | GetPeerAddressMessage(peer: string)
    | SharedFoldersMessage
    | NoParentMessage
    | SetStatusMessage
    | SetWaitPortMessage

  function Build(cmd: Command): Message {
    match cmd
    case Login(u, p) => LoginMessage(u, p)
    case FileSearch(t, q) => FileSearchMessage(t, q)
    case PierceFirewall(t) => PierceFirewallMessage(t)
    case GetPeerAddress(u) => GetPeerAddressMessage(u)
  }

  // A message on the signal queue, with the command that it was built for, if any.
  datatype Outgoing = Outgoing(message: Message, command: Option<Command>)

  datatype Connection =
    | Disconnected(reconnectAttempt: nat, lastDisconnect: Option<nat>)
    | Connecting(since: nat, attempt: nat)
    | Connected

  datatype LoginState =
    | NotAttempted
    | Pending(username: string, password: string, deadline: nat)
    | LoggedIn(username: string, password: string)

  datatype ReconnectSettings =
    | Disabled
    | ExponentialBackoff(minDelay: nat, maxDelay: nat, maxAttempts: Option<nat>)
  {
    predicate Valid() {
      ExponentialBackoff? ==> minDelay / SECOND <= U64_MAX && maxDelay / SECOND <= U64_MAX
    }
  }

  datatype State = State(connection: Connection, login: LoginState, queued: seq<Command>, signals: seq<Outgoing>)

  const INITIAL := State(Disconnected(0, None), NotAttempted, [], [])

  // ----- Steps

  function Put(s: State, message: Message, command: Option<Command>): State {
    s.(signals := s.signals + [Outgoing(message, command)])
  }

  function HandleCommand(s: State, cmd: Command, now: nat): State {
    var s' := Put(s, Build(cmd), Some(cmd));
    if cmd.Login? then s'.(login := Pending(cmd.username, cmd.password, now + 5 * SECOND)) else s'
  }

  function HandleAll(s: State, cmds: seq<Command>, now: nat): State
    decreases |cmds|
  {
    if cmds == [] then s else HandleAll(HandleCommand(s, cmds[0], now), cmds[1..], now)
  }

  function Handle(s: State, cmd: Command, now: nat): State {
    if !s.connection.Connected? then s.(queued := s.queued + [cmd]) else HandleCommand(s, cmd, now)
  }

  function Relogin(s: State): State {
    match s.login
    case LoggedIn(u, p) => Put(s, LoginMessage(u, p), None)
    case _ => s
  }

  function Establish(s: State, now: nat): State {
    if !s.connection.Connecting? then s
    else HandleAll(Relogin(s.(connection := Connected)).(queued := []), s.queued, now)
  }

  function Dropped(s: State, attempt: nat, now: nat): State {
    s.(connection := Disconnected(attempt, Some(now)),
       login := if s.login.Pending? then LoggedIn(s.login.username, s.login.password) else NotAttempted)
  }

  function Disconnect(s: State, now: nat): State {
    match s.connection
    case Connected => Dropped(s, 1, now)
    case Connecting(_, attempt) => Dropped(s, attempt + 1, now)
    case Disconnected(_, _) => s
  }

  function CurrentAttempt(s: State): nat {
    match s.connection
    case Disconnected(attempt, _) => attempt
    case Connecting(_, attempt) => attempt
    case Connected => 0
  }

  function Dial(s: State, reached: bool, now: nat): State {
    if reached then s.(connection := Connecting(now, CurrentAttempt(s))) else Disconnect(s, now)
  }

  // Whether a reconnect is due.
  predicate Due(s: State, settings: ReconnectSettings, now: nat)
    requires settings.Valid()
  {
    && s.login.LoggedIn?
    && s.connection.Disconnected? && s.connection.lastDisconnect.Some?
    && settings.ExponentialBackoff?
    && (settings.maxAttempts.Some? ==> s.connection.reconnectAttempt <= settings.maxAttempts.value)
    && now >= s.connection.lastDisconnect.value
              + SECOND * BackoffSecs(s.connection.reconnectAttempt, settings.minDelay / SECOND,
                                     settings.maxDelay / SECOND)
  }

  function MaybeReconnect(s: State, settings: ReconnectSettings, reached: bool, now: nat): State
    requires settings.Valid()
  {
    if Due(s, settings, now) then Dial(s, reached, now) else s
  }

  // What the probe of a connecting stream finds.
  datatype Probe = Ready | Broken

  function Check(s: State, probe: Probe, now: nat): State {
    if !s.connection.Connecting? then s
    else if now > s.connection.since + 20 * SECOND then Disconnect(s, now)
    else if probe.Ready? then Establish(s, now)
    else Disconnect(s, now)
  }

  function OnLoginStatus(s: State, loggedIn: bool, enableListen: bool): State {
    var s1 :=
      if !s.login.Pending? then s
      else s.(login := if loggedIn then LoggedIn(s.login.username, s.login.password) else NotAttempted);
    if !loggedIn then s1
    else
      var s2 := Put(Put(Put(s1, SharedFoldersMessage, None), NoParentMessage, None), SetStatusMessage, None);
      if enableListen then Put(s2, SetWaitPortMessage, None) else s2
  }

  function ExpireLogin(s: State, now: nat): State {
    if s.login.Pending? && now >= s.login.deadline then s.(login := NotAttempted) else s
  }

  function OnStart(s: State, reached: bool, now: nat): State {
    if s.connection.Disconnected? then Dial(s, reached, now) else Establish(s, now)
  }

  function OnStop(s: State): State {
    s.(connection := Disconnected(0, None))
  }

  // ----- Events

  datatype Event =
    | Arrive(cmd: Command, at: nat)
    | Started(reached: bool, at: nat)
    | Stopped
    | Probed(probe: Probe, at: nat)
    | Broke(at: nat)
    | ReconnectTick(reached: bool, at: nat)
    | LoginAnswered(loggedIn: bool)
    | LoginTick(at: nat)

  datatype Config = Config(settings: ReconnectSettings, enableListen: bool)

  function Next(s: State, c: Config, e: Event): State
    requires c.settings.Valid()
  {
    match e
    case Arrive(cmd, now) => Handle(s, cmd, now)
    case Started(reached, now) => OnStart(s, reached, now)
    case Stopped => OnStop(s)
    case Probed(probe, now) => Check(s, probe, now)
    case Broke(now) => Disconnect(s, now)
    case ReconnectTick(reached, now) => MaybeReconnect(s, c.settings, reached, now)
    case LoginAnswered(loggedIn) => OnLoginStatus(s, loggedIn, c.enableListen)
    case LoginTick(now) => ExpireLogin(s, now)
  }

  function After(s: State, c: Config, events: seq<Event>): State
    requires c.settings.Valid()
    decreases |events|
  {
    if events == [] then s else After(Next(s, c, events[0]), c, events[1..])
  }

  function Arrivals(events: seq<Event>): seq<Command> {
    if events == [] then []
    else (if events[0].Arrive? then [events[0].cmd] else []) + Arrivals(events[1..])
  }

  // The commands that have been turned into messages, in the order of those messages.
  function Handled(signals: seq<Outgoing>): seq<Command> {
    if signals == [] then []
    else
      var last := signals[|signals| - 1];
      Handled(signals[..|signals| - 1]) + if last.command.Some? then [last.command.value] else []
  }

  // ----- Commands are neither lost nor reordered

  ghost predicate Orderly(s: State) {
    && (s.connection.Connected? ==> s.queued == [])
    && forall i | 0 <= i < |s.signals| ::
         s.signals[i].command.Some? ==> s.signals[i].message == Build(s.signals[i].command.value)
  }

  function Known(s: State): seq<Command> {
    Handled(s.signals) + s.queued
  }

  lemma PutHandles(s: State, message: Message, command: Option<Command>)
    ensures Handled(Put(s, message, command).signals)
         == Handled(s.signals) + if command.Some? then [command.value] else []
  {
    assert (s.signals + [Outgoing(message, command)])[..|s.signals|] == s.signals;
  }

  lemma {:induction false} HandleAllHandles(s: State, cmds: seq<Command>, now: nat)
    requires Orderly(s)
    ensures var s' := HandleAll(s, cmds, now);
            && Orderly(s') && Handled(s'.signals) == Handled(s.signals) + cmds
            && s'.queued == s.queued && s'.connection == s.connection
    decreases |cmds|
  {
    if cmds == [] {
      assert Handled(s.signals) + [] == Handled(s.signals);
    } else {
      PutHandles(s, Build(cmds[0]), Some(cmds[0]));
      HandleAllHandles(HandleCommand(s, cmds[0], now), cmds[1..], now);
      assert Handled(s.signals) + [cmds[0]] + cmds[1..] == Handled(s.signals) + cmds;
    }
  }

  lemma EstablishKeeps(s: State, now: nat)
    requires Orderly(s)
    ensures Orderly(Establish(s, now)) && Known(Establish(s, now)) == Known(s)
  {
    if s.connection.Connecting? {
      var s1 := Relogin(s.(connection := Connected)).(queued := []);
      if s.login.LoggedIn? {
        PutHandles(s.(connection := Connected), LoginMessage(s.login.username, s.login.password), None);
      }
      assert Handled(s1.signals) == Handled(s.signals);
      HandleAllHandles(s1, s.queued, now);
      assert Handled(s.signals) + s.queued + [] == Handled(s.signals) + s.queued;
    }
  }

  lemma HandleKeeps(s: State, cmd: Command, now: nat)
    requires Orderly(s)
    ensures Orderly(Handle(s, cmd, now)) && Known(Handle(s, cmd, now)) == Known(s) + [cmd]
  {
    PutHandles(s, Build(cmd), Some(cmd));
    assert Handled(s.signals) + [cmd] + [] == Handled(s.signals) + [] + [cmd];
    assert Handled(s.signals) + (s.queued + [cmd]) == Handled(s.signals) + s.queued + [cmd];
  }

  lemma LoginStatusKeeps(s: State, loggedIn: bool, enableListen: bool)
    requires Orderly(s)
    ensures var s' := OnLoginStatus(s, loggedIn, enableListen); Orderly(s') && Known(s') == Known(s)
  {
    var s1 := s.(login := OnLoginStatus(s, loggedIn, enableListen).login);
    PutHandles(s1, SharedFoldersMessage, None);
    var s2 := Put(s1, SharedFoldersMessage, None);
    PutHandles(s2, NoParentMessage, None);
    var s3 := Put(s2, NoParentMessage, None);
    PutHandles(s3, SetStatusMessage, None);
    PutHandles(Put(s3, SetStatusMessage, None), SetWaitPortMessage, None);
    hide Handled;
  }

  lemma EventKeeps(s: State, c: Config, e: Event)
    requires c.settings.Valid() && Orderly(s)
    ensures Orderly(Next(s, c, e))
    ensures Known(Next(s, c, e)) == Known(s) + if e.Arrive? then [e.cmd] else []
  {
    hide Orderly, HandleAll, Handled, Due;
    match e {
      case Arrive(cmd, now) => HandleKeeps(s, cmd, now);
      case Probed(_, now) => EstablishKeeps(s, now);
        ConnectionOnly(s, Disconnect(s, now));
      case Started(reached, now) => EstablishKeeps(s, now);
        ConnectionOnly(s, Dial(s, reached, now));
      case LoginAnswered(loggedIn) => LoginStatusKeeps(s, loggedIn, c.enableListen);
      case Stopped => ConnectionOnly(s, OnStop(s));
      case Broke(now) => ConnectionOnly(s, Disconnect(s, now));
      case ReconnectTick(reached, now) => ConnectionOnly(s, MaybeReconnect(s, c.settings, reached, now));
      case LoginTick(now) => ConnectionOnly(s, ExpireLogin(s, now));
    }
  }

  lemma ConnectionOnly(s: State, s': State)
    requires Orderly(s) && s'.queued == s.queued && s'.signals == s.signals
    requires s'.connection.Connected? ==> s.connection.Connected?
    ensures Orderly(s') && Known(s') == Known(s)
  {
  }

  lemma {:induction false} RunKeeps(s: State, c: Config, events: seq<Event>)
    requires c.settings.Valid() && Orderly(s)
    ensures Orderly(After(s, c, events)) && Known(After(s, c, events)) == Known(s) + Arrivals(events)
    decreases |events|
  {
    if events == [] {
      assert Known(s) + [] == Known(s);
    } else {
      hide Orderly, Known, Next;
      EventKeeps(s, c, events[0]);
      RunKeeps(Next(s, c, events[0]), c, events[1..]);
      var first := if events[0].Arrive? then [events[0].cmd] else [];
      assert Known(s) + first + Arrivals(events[1..]) == Known(s) + (first + Arrivals(events[1..]));
    }
  }

  // In every reachable state the commands turned into messages, followed by those held back, are the commands that
  // arrived, in order; each message says what its command says; and nothing is held back while connected.
  lemma CommandsInOrder(c: Config, events: seq<Event>)
    requires c.settings.Valid()
    ensures var s := After(INITIAL, c, events);
            && Handled(s.signals) + s.queued == Arrivals(events)
            && Orderly(s)
  {
    RunKeeps(INITIAL, c, events);
    assert Known(INITIAL) == [];
    assert [] + Arrivals(events) == Arrivals(events);
  }

  // ----- Who reconnects

  // Nothing but a new start dials again.
  ghost predicate Stranded(s: State, c: Config) {
    && s.connection.Disconnected?
    && (!s.login.NotAttempted? && c.settings.ExponentialBackoff? && s.connection.lastDisconnect.Some? ==>
          c.settings.maxAttempts.Some? && c.settings.maxAttempts.value < s.connection.reconnectAttempt)
  }

  ghost predicate NoStart(events: seq<Event>) {
    forall e | e in events :: !e.Started?
  }

  // A stranded actor stays so, and commands only pile up.
  lemma {:induction false} StrandedStays(s: State, c: Config, events: seq<Event>)
    requires c.settings.Valid() && Stranded(s, c) && NoStart(events)
    ensures Stranded(After(s, c, events), c)
    ensures After(s, c, events).queued == s.queued + Arrivals(events)
    decreases |events|
  {
    if events == [] {
      assert s.queued + [] == s.queued;
    } else {
      assert events[0] in events && forall e | e in events[1..] :: e in events;
      var s1 := Next(s, c, events[0]);
      var first := if events[0].Arrive? then [events[0].cmd] else [];
      assert Stranded(s1, c) && s1.queued == s.queued + first;
      hide Next, Stranded;
      StrandedStays(s1, c, events[1..]);
      assert s.queued + first + Arrivals(events[1..]) == s.queued + (first + Arrivals(events[1..]));
    }
  }

  ghost predicate DialsAgain(s: State, c: Config)
    requires c.settings.Valid()
  {
    exists events :: NoStart(events) && After(s, c, events).connection.Connecting?
  }

  // An actor that loses its connection can ever dial again exactly if a login was still unanswered, reconnecting
  // is enabled and the attempts are not used up: losing an established login forgets the credentials.
  lemma ReconnectsIff(s: State, c: Config, now: nat)
    requires c.settings.Valid() && !s.connection.Disconnected?
    ensures var lost := Disconnect(s, now);
            DialsAgain(lost, c) <==>
            && s.login.Pending? && c.settings.ExponentialBackoff?
            && (c.settings.maxAttempts.Some? ==> lost.connection.reconnectAttempt <= c.settings.maxAttempts.value)
  {
    var lost := Disconnect(s, now);
    if Stranded(lost, c) {
      forall events | NoStart(events) ensures !After(lost, c, events).connection.Connecting? {
        StrandedStays(lost, c, events);
      }
    } else {
      var secs := BackoffSecs(lost.connection.reconnectAttempt, c.settings.minDelay / SECOND,
                              c.settings.maxDelay / SECOND);
      var tick := ReconnectTick(true, now + SECOND * secs);
      var s1 := Next(lost, c, tick);
      assert Due(lost, c.settings, now + SECOND * secs);
      assert After(s1, c, []) == s1;
      assert [tick][1..] == [];
      assert NoStart([tick]) && After(lost, c, [tick]).connection.Connecting?;
    }
  }

  lemma FirstEvent(s: State, c: Config, e: Event, events: seq<Event>)
    requires c.settings.Valid()
    ensures After(s, c, [e] + events) == After(Next(s, c, e), c, events)
  {
    assert ([e] + events)[1..] == events;
  }

  // The actor dials, the connection is ready, and a login is sent.
  function LoginSent(): seq<Event> {
    [Started(true, 0)] + ([Probed(Ready, 0)] + ([Arrive(Login("user", "word"), 0)] + []))
  }

  lemma LoginSentState(c: Config)
    requires c.settings.Valid()
    ensures var s := After(INITIAL, c, LoginSent()); s.connection.Connected? && s.login.Pending? && s.queued == []
  {
    var s1 := Next(INITIAL, c, Started(true, 0));
    var s2 := Next(s1, c, Probed(Ready, 0));
    assert s2.connection.Connected? && s2.queued == [];
    var s3 := Next(s2, c, Arrive(Login("user", "word"), 0));
    hide Next;
    FirstEvent(INITIAL, c, Started(true, 0), [Probed(Ready, 0)] + ([Arrive(Login("user", "word"), 0)] + []));
    FirstEvent(s1, c, Probed(Ready, 0), [Arrive(Login("user", "word"), 0)] + []);
    FirstEvent(s2, c, Arrive(Login("user", "word"), 0), []);
  }

  // Once the login has been answered, losing the connection is for good; just before the answer it is not.
  lemma LostLoginExample(c: Config)
    requires c.settings.Valid()
    ensures var s := After(INITIAL, c, LoginSent());
            && !DialsAgain(Disconnect(OnLoginStatus(s, true, c.enableListen), 1), c)
            && (c.settings.ExponentialBackoff? && c.settings.maxAttempts.None? ==> DialsAgain(Disconnect(s, 1), c))
  {
    LoginSentState(c);
    hide LoginSent, DialsAgain, After;
    var s := After(INITIAL, c, LoginSent());
    ReconnectsIff(s, c, 1);
    ReconnectsIff(OnLoginStatus(s, true, c.enableListen), c, 1);
  }

  // A dial that fails while disconnected changes nothing: neither the attempt counter nor the time it counts from.
  lemma FailedDialUncounted(s: State, c: Config, now: nat)
    requires c.settings.Valid() && s.connection.Disconnected?
    ensures MaybeReconnect(s, c.settings, false, now) == s
  {
  }
}
