/** What the server actor's messages carry, and when it dials: laws over whole runs. */
module ServerLaws {
  import opened Arith
  import opened Collections
  import opened ServerSpec

  // ----- Messages

  // The command that a message answers, read off the message.
  function AskedBy(m: Message): Option<Command> {
    match m
    case LoginMessage(username, password) => Some(Login(username, password))
    case FileSearchMessage(token, query) => Some(FileSearch(token, query))
    case PierceFirewallMessage(pierceToken) => Some(PierceFirewall(pierceToken))
    case GetPeerAddressMessage(peer) => Some(GetPeerAddress(peer))
    case _ => None
  }

  // The credentials of the last login message, by whomever it was queued.
  function LastLogin(signals: seq<Outgoing>): Option<(string, string)> {
    if signals == [] then None
    else
      var m := signals[|signals| - 1].message;
      if m.LoginMessage? then Some((m.username, m.password)) else LastLogin(signals[..|signals| - 1])
  }

  // A login message that no command asked for repeats the one before it.
  ghost predicate Repeats(signals: seq<Outgoing>) {
    forall i | 0 <= i < |signals| && signals[i].message.LoginMessage? && signals[i].command.None? ::
      LastLogin(signals[..i]) == Some((signals[i].message.username, signals[i].message.password))
  }

  // The credentials that are kept are those of the last login message.
  ghost predicate Credentials(s: State) {
    && Repeats(s.signals)
    && (!s.login.NotAttempted? ==> LastLogin(s.signals) == Some((s.login.username, s.login.password)))
  }

  lemma PutRepeats(s: State, message: Message, command: Option<Command>)
    requires Repeats(s.signals)
    requires message.LoginMessage? && command.None? ==>
               LastLogin(s.signals) == Some((message.username, message.password))
    ensures Repeats(Put(s, message, command).signals)
    ensures LastLogin(Put(s, message, command).signals)
         == if message.LoginMessage? then Some((message.username, message.password)) else LastLogin(s.signals)
  {
    var signals, longer := s.signals, Put(s, message, command).signals;
    assert longer[..|signals|] == signals;
    hide LastLogin;
    forall i | 0 <= i < |signals| ensures longer[..i] == signals[..i] && longer[i] == signals[i] {
    }
  }

  lemma CommandCredentials(s: State, cmd: Command, now: nat)
    requires Credentials(s)
    ensures Credentials(HandleCommand(s, cmd, now))
  {
    hide Repeats, LastLogin;
    PutRepeats(s, Build(cmd), Some(cmd));
  }

  lemma {:induction false} AllCredentials(s: State, cmds: seq<Command>, now: nat)
    requires Credentials(s)
    ensures Credentials(HandleAll(s, cmds, now))
    decreases |cmds|
  {
    if cmds != [] {
      hide Credentials, HandleCommand;
      CommandCredentials(s, cmds[0], now);
      AllCredentials(HandleCommand(s, cmds[0], now), cmds[1..], now);
    }
  }

  lemma EstablishCredentials(s: State, now: nat)
    requires Credentials(s)
    ensures Credentials(Establish(s, now))
  {
    if s.connection.Connecting? {
      var s1 := s.(connection := Connected);
      if s.login.LoggedIn? {
        PutRepeats(s1, LoginMessage(s.login.username, s.login.password), None);
      }
      hide Repeats, LastLogin, HandleAll;
      AllCredentials(Relogin(s1).(queued := []), s.queued, now);
    }
  }

  lemma AnswerCredentials(s: State, loggedIn: bool, enableListen: bool)
    requires Credentials(s)
    ensures Credentials(OnLoginStatus(s, loggedIn, enableListen))
  {
    hide Repeats, LastLogin;
    var s1 := s.(login := OnLoginStatus(s, loggedIn, enableListen).login);
    PutRepeats(s1, SharedFoldersMessage, None);
    var s2 := Put(s1, SharedFoldersMessage, None);
    PutRepeats(s2, NoParentMessage, None);
    var s3 := Put(s2, NoParentMessage, None);
    PutRepeats(s3, SetStatusMessage, None);
    PutRepeats(Put(s3, SetStatusMessage, None), SetWaitPortMessage, None);
  }

  lemma EventCredentials(s: State, c: Config, e: Event)
    requires c.settings.Valid() && Credentials(s)
    ensures Credentials(Next(s, c, e))
  {
    hide Repeats, LastLogin, HandleAll, Due;
    match e {
      case Arrive(cmd, now) => CommandCredentials(s, cmd, now);
      case Probed(_, now) => hide Establish; EstablishCredentials(s, now);
      case Started(_, now) => hide Establish; EstablishCredentials(s, now);
      case LoginAnswered(loggedIn) => hide OnLoginStatus; AnswerCredentials(s, loggedIn, c.enableListen);
      case _ =>
    }
  }

  lemma {:induction false} RunCredentials(s: State, c: Config, events: seq<Event>)
    requires c.settings.Valid() && Credentials(s)
    ensures Credentials(After(s, c, events))
    decreases |events|
  {
    if events != [] {
      hide Credentials, Next;
      EventCredentials(s, c, events[0]);
      RunCredentials(Next(s, c, events[0]), c, events[1..]);
    }
  }

  lemma BuiltAsks(cmd: Command)
    ensures AskedBy(Build(cmd)) == Some(cmd)
  {
  }

  // In every reachable state a message that a command asked for names that command with all it carries; a login that
  // nobody asked for repeats the last one; and the credentials that are kept are those of the last login message.
  lemma MessagesCarry(c: Config, events: seq<Event>)
    requires c.settings.Valid()
    ensures var s := After(INITIAL, c, events);
            && (forall i | 0 <= i < |s.signals| && s.signals[i].command.Some? ::
                  AskedBy(s.signals[i].message) == s.signals[i].command)
            && Credentials(s)
  {
    CommandsInOrder(c, events);
    RunCredentials(INITIAL, c, events);
    var s := After(INITIAL, c, events);
    hide After, AskedBy, Build, Credentials;
    forall i | 0 <= i < |s.signals| && s.signals[i].command.Some?
      ensures AskedBy(s.signals[i].message) == s.signals[i].command
    {
      BuiltAsks(s.signals[i].command.value);
    }
  }

  // The messages that commands ask for, in their order.
  ghost predicate Answers(sent: seq<Outgoing>, cmds: seq<Command>) {
    && |sent| == |cmds|
    && forall i | 0 <= i < |cmds| :: sent[i].command == AskedBy(sent[i].message) == Some(cmds[i])
  }

  lemma {:induction false} AllAnswer(s: State, cmds: seq<Command>, now: nat) returns (sent: seq<Outgoing>)
    ensures HandleAll(s, cmds, now).signals == s.signals + sent && Answers(sent, cmds)
    decreases |cmds|
  {
    if cmds == [] {
      sent := [];
    } else {
      var rest := AllAnswer(HandleCommand(s, cmds[0], now), cmds[1..], now);
      BuiltAsks(cmds[0]);
      sent := [Outgoing(Build(cmds[0]), Some(cmds[0]))] + rest;
      hide AskedBy, Build;
      assert s.signals + [sent[0]] + rest == s.signals + sent;
    }
  }

  // When a connection comes up, kept credentials are sent first, and then one message for every command held back.
  lemma ConnectionSends(s: State, c: Config, now: nat) returns (sent: seq<Outgoing>)
    requires c.settings.Valid() && s.connection.Connecting? && now <= s.connection.since + 20000000000
    ensures Answers(sent, s.queued)
    ensures var s' := Next(s, c, Probed(Ready, now));
            && s'.connection.Connected? && s'.queued == []
            && s'.signals == s.signals + (if s.login.LoggedIn?
                                          then [Outgoing(LoginMessage(s.login.username, s.login.password), None)]
                                          else []) + sent
  {
    var s1 := Relogin(s.(connection := Connected)).(queued := []);
    sent := AllAnswer(s1, s.queued, now);
    AllStayConnected(s1, s.queued, now);
    HandlesKeepQueue(s1, s.queued, now);
    hide HandleAll, Answers;
    assert s.signals + [] == s.signals;
  }

  lemma {:induction false} HandlesKeepQueue(s: State, cmds: seq<Command>, now: nat)
    ensures HandleAll(s, cmds, now).queued == s.queued
    decreases |cmds|
  {
    if cmds != [] {
      HandlesKeepQueue(HandleCommand(s, cmds[0], now), cmds[1..], now);
    }
  }

  // An answer settles a pending login, with its credentials, and nothing else.
  lemma LoginAnswer(s: State, c: Config, accepted: bool)
    requires c.settings.Valid()
    ensures var login := Next(s, c, LoginAnswered(accepted)).login;
            && (!s.login.Pending? ==> login == s.login)
            && (s.login.Pending? && accepted ==> login == LoggedIn(s.login.username, s.login.password))
            && (s.login.Pending? && !accepted ==> login == NotAttempted)
  {
  }

  // A login that is accepted is greeted with these messages, in this order.
  lemma Greets(s: State, c: Config)
    requires c.settings.Valid()
    ensures Next(s, c, LoginAnswered(false)).signals == s.signals
    ensures Next(s, c, LoginAnswered(true)).signals
         == s.signals + [Outgoing(SharedFoldersMessage, None), Outgoing(NoParentMessage, None),
                         Outgoing(SetStatusMessage, None)]
            + if c.enableListen then [Outgoing(SetWaitPortMessage, None)] else []
  {
  }

  // ----- Deadlines, in nanoseconds

  // A login sent at `now` is given up exactly by a tick five seconds later or after that; so is every pending login, be
  // it connected or stopped, at its deadline, and no other login ever is.
  lemma LoginDeadline(s: State, c: Config, username: string, password: string, now: nat, later: nat)
    requires c.settings.Valid()
    ensures var sent := Next(s, c, Arrive(Login(username, password), now));
            s.connection.Connected? ==>
              && sent.login.Pending?
              && (Next(sent, c, LoginTick(later)).login.NotAttempted? <==> later >= now + 5000000000)
    ensures var login := Next(s, c, LoginTick(later)).login;
            if s.login.Pending? && later >= s.login.deadline then login == NotAttempted else login == s.login
  {
  }

  // A dial that went through at `now` is taken up by a good probe exactly within 20 seconds; else it has failed, which
  // counts like a connection that breaks.
  lemma DialDeadline(s: State, c: Config, now: nat, later: nat)
    requires c.settings.Valid() && s.connection.Disconnected?
    ensures var dialled := Next(s, c, Started(true, now));
            && dialled.connection.Connecting?
            && (Next(dialled, c, Probed(Ready, later)).connection.Connected? <==> later <= now + 20000000000)
            && (later > now + 20000000000 ==>
                  Next(dialled, c, Probed(Ready, later)).connection
                  == Disconnected(s.connection.reconnectAttempt + 1, Some(later)))
            && Next(dialled, c, Probed(Broken, later)) == Next(dialled, c, Broke(later))
  {
    var dialled := Next(s, c, Started(true, now));
    hide HandleAll;
    EstablishConnects(dialled, later);
  }

  lemma EstablishConnects(s: State, now: nat)
    requires s.connection.Connecting?
    ensures Establish(s, now).connection.Connected?
  {
    var s1 := Relogin(s.(connection := Connected)).(queued := []);
    AllStayConnected(s1, s.queued, now);
  }

  lemma {:induction false} AllStayConnected(s: State, cmds: seq<Command>, now: nat)
    requires s.connection.Connected?
    ensures HandleAll(s, cmds, now).connection.Connected?
    decreases |cmds|
  {
    if cmds != [] {
      AllStayConnected(HandleCommand(s, cmds[0], now), cmds[1..], now);
    }
  }

  // ----- The reconnect delay never grows

  // Credentials that are kept for a reconnect do not outlive the first failure after it.
  ghost predicate FirstTry(s: State) {
    match s.connection
    case Disconnected(attempt, last) =>
      && (attempt == 0 ==> last.None?)
      && (attempt >= 1 ==> !s.login.Pending?)
      && (attempt >= 2 ==> s.login.NotAttempted?)
    case Connecting(_, attempt) => attempt >= 1 ==> !s.login.Pending?
    case Connected => true
  }

  lemma EventFirstTry(s: State, c: Config, e: Event)
    requires c.settings.Valid() && FirstTry(s)
    ensures FirstTry(Next(s, c, e))
  {
    hide Due, HandleAll;
    if s.connection.Connecting? && (e.Probed? || e.Started?) {
      EstablishConnects(s, e.at);
    }
  }

  lemma {:induction false} RunFirstTry(s: State, c: Config, events: seq<Event>)
    requires c.settings.Valid() && FirstTry(s)
    ensures FirstTry(After(s, c, events))
    decreases |events|
  {
    if events != [] {
      hide FirstTry, Next;
      EventFirstTry(s, c, events[0]);
      RunFirstTry(Next(s, c, events[0]), c, events[1..]);
    }
  }

  // In every reachable state a tick dials again exactly if a first reconnect is possible and its delay, the shorter of
  // the two configured ones in whole seconds, has passed: the exponential delay never goes beyond its first step.
  lemma ReconnectDelay(c: Config, events: seq<Event>, now: nat)
    requires c.settings.Valid()
    ensures var s := After(INITIAL, c, events);
            s.connection.Disconnected? ==>
              (Next(s, c, ReconnectTick(true, now)).connection.Connecting? <==>
                && s.login.LoggedIn? && s.connection.reconnectAttempt == 1 && s.connection.lastDisconnect.Some?
                && c.settings.ExponentialBackoff?
                && (c.settings.maxAttempts.None? || c.settings.maxAttempts.value >= 1)
                && now >= s.connection.lastDisconnect.value
                          + 1000000000 * Min(c.settings.minDelay / 1000000000, c.settings.maxDelay / 1000000000))
  {
    RunFirstTry(INITIAL, c, events);
    assert Pow2(0) == 1;
    hide After, Pow2;
    var s := After(INITIAL, c, events);
    if c.settings.ExponentialBackoff? {
      OneTime(c.settings.minDelay / SECOND);
    }
  }

  lemma OneTime(n: nat)
    ensures n * Pow2(0) == n
  {
  }

  // A reconnect that fails counts as the second attempt, loses the credentials, and is the last without a new start.
  lemma OneReconnect(s: State, c: Config, dialled: nat, failed: nat, events: seq<Event>)
    requires c.settings.Valid() && FirstTry(s) && s.connection.Disconnected? && s.connection.reconnectAttempt == 1
    requires NoStart(events)
    ensures var again := Next(s, c, ReconnectTick(true, dialled));
            again.connection.Connecting? ==>
              var lost := Next(again, c, Probed(Broken, failed));
              && lost.connection == Disconnected(2, Some(failed)) && lost.login == NotAttempted
              && !After(lost, c, events).connection.Connecting?
  {
    var again := Next(s, c, ReconnectTick(true, dialled));
    if again.connection.Connecting? {
      StrandedStays(Next(again, c, Probed(Broken, failed)), c, events);
    }
    hide After;
  }

  // A connection that is lost counts as the first, and one that was dialled in vain as one more than before.
  lemma LossesCount(s: State, c: Config, now: nat)
    requires c.settings.Valid()
    ensures s.connection.Connected? ==> Next(s, c, Broke(now)).connection == Disconnected(1, Some(now))
    ensures s.connection.Connecting? ==>
              Next(s, c, Broke(now)).connection == Disconnected(s.connection.attempt + 1, Some(now))
    ensures s.connection.Disconnected? ==>
              Next(s, c, Started(true, now)).connection == Connecting(now, s.connection.reconnectAttempt)
  {
    hide HandleAll;
  }

  // A start does nothing to a connection, and takes up a dial as a good probe does.
  lemma StartAgain(s: State, c: Config, reached: bool, now: nat)
    requires c.settings.Valid()
    ensures s.connection.Connected? ==> Next(s, c, Started(reached, now)) == s
    ensures s.connection.Connecting? && now <= s.connection.since + 20000000000 ==>
              Next(s, c, Started(reached, now)) == Next(s, c, Probed(Ready, now))
  {
    hide HandleAll;
  }

  // An actor that is stopped while logged in, and started again, logs in again.
  lemma RestartLogsIn(s: State, c: Config, username: string, password: string, now: nat, later: nat)
    requires c.settings.Valid() && s.connection.Connected? && s.queued == []
    requires s.login == LoggedIn(username, password) && later <= now + 20000000000
    ensures var dialled := Next(Next(s, c, Stopped), c, Started(true, now));
            Next(dialled, c, Probed(Ready, later))
            == s.(signals := s.signals + [Outgoing(LoginMessage(username, password), None)])
  {
    assert SECOND == 1000000000;
  }

  // An actor that was stopped dials only after a new start.
  lemma StoppedForGood(s: State, c: Config, events: seq<Event>)
    requires c.settings.Valid() && NoStart(events)
    ensures !After(Next(s, c, Stopped), c, events).connection.Connecting?
  {
    StrandedStays(Next(s, c, Stopped), c, events);
    hide After;
  }
}
