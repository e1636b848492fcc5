/** The server actor's methods, each proved to take the step that the transition system names. */
module ServerActor {
  import opened Collections
  import opened ServerSpec

  class ServerActor {
    var connection: Connection
    var loginState: LoginState
    var queuedMessages: seq<Command>
    var signals: seq<Outgoing>
    const reconnectSettings: ReconnectSettings
    const enableListen: bool
    // The commands that have arrived.
    ghost var arrived: seq<Command>

    // None of them is lost, repeated or out of order, and none is held back while connected.
    ghost predicate Valid()
      reads this
    {
      reconnectSettings.Valid() && Orderly(State()) && Known(State()) == arrived
    }

    function State(): State
      reads this
    {
      ServerSpec.State(connection, loginState, queuedMessages, signals)
    }

    constructor (reconnectSettings: ReconnectSettings, enableListen: bool)
      requires reconnectSettings.Valid()
      ensures Valid() && State() == INITIAL && arrived == []
      ensures this.reconnectSettings == reconnectSettings && this.enableListen == enableListen
    {
      connection, loginState := Disconnected(0, None), NotAttempted;
      queuedMessages, signals, arrived := [], [], [];
      this.reconnectSettings := reconnectSettings;
      this.enableListen := enableListen;
    }

    // The command that a message is built for comes along for the proofs.
    method QueueMessage(message: Message, command: Option<Command>)
      modifies this`signals
      ensures State() == Put(old(State()), message, command)
    {
      signals := signals + [Outgoing(message, command)];
    }

    method Handle(msg: Command, now: nat)
      requires Valid()
      modifies this
      ensures Valid() && arrived == old(arrived) + [msg]
      ensures State() == ServerSpec.Handle(old(State()), msg, now)
    {
      HandleKeeps(State(), msg, now);
      hide Orderly, Known;
      arrived := arrived + [msg];
      if !connection.Connected? {
        queuedMessages := queuedMessages + [msg];
        return;
      }
      HandleCommand(msg, now);
    }

    method HandleCommand(cmd: Command, now: nat)
      modifies this`signals, this`loginState
      ensures State() == ServerSpec.HandleCommand(old(State()), cmd, now)
    {
      match cmd {
        case Login(username, password) =>
          QueueMessage(LoginMessage(username, password), Some(cmd));
          loginState := Pending(username, password, now + 5 * SECOND);
        case FileSearch(token, query) =>
          QueueMessage(FileSearchMessage(token, query), Some(cmd));
        case PierceFirewall(token) =>
          QueueMessage(PierceFirewallMessage(token), Some(cmd));
        case GetPeerAddress(username) =>
          QueueMessage(GetPeerAddressMessage(username), Some(cmd));
      }
    }

    method OnConnectionEstablished(now: nat)
      requires Valid()
      modifies this
      ensures Valid() && arrived == old(arrived)
      ensures State() == Establish(old(State()), now)
    {
      if !connection.Connecting? {
        return;
      }
      EstablishKeeps(State(), now);
      hide Orderly, Known;
      connection := Connected;
      if loginState.LoggedIn? {
        QueueMessage(LoginMessage(loginState.username, loginState.password), None);
      }
      var queued := queuedMessages;
      queuedMessages := [];
      ghost var start := State();
      for i := 0 to |queued|
        invariant HandleAll(State(), queued[i..], now) == HandleAll(start, queued, now) && arrived == old(arrived)
      {
        assert queued[i..][1..] == queued[i + 1..];
        HandleCommand(queued[i], now);
      }
    }

    method DisconnectWithError(now: nat)
      requires Valid()
      modifies this
      ensures Valid() && arrived == old(arrived)
      ensures State() == Disconnect(old(State()), now)
    {
      var attempt: nat;
      match connection {
        case Connected => attempt := 1;
        case Connecting(_, a) => attempt := a + 1;
        case Disconnected(_, _) => return;
      }
      connection := Disconnected(attempt, Some(now));
      var was := loginState;
      loginState := NotAttempted;
      if was.Pending? {
        loginState := LoggedIn(was.username, was.password);
      }
    }

    // `reached` says whether the address resolves and the dial succeeds.
    method InitiateConnection(reached: bool, now: nat)
      requires Valid()
      modifies this
      ensures Valid() && arrived == old(arrived)
      ensures State() == Dial(old(State()), reached, now)
    {
      if reached {
        var attempt := CurrentReconnectAttempt();
        connection := Connecting(now, attempt);
      } else {
        DisconnectWithError(now);
      }
    }

    method CurrentReconnectAttempt() returns (attempt: nat)
      ensures attempt == CurrentAttempt(State())
    {
      match connection {
        case Disconnected(a, _) => attempt := a;
        case Connecting(_, a) => attempt := a;
        case Connected => attempt := 0;
      }
    }

    method CheckConnectionStatus(probe: Probe, now: nat)
      requires Valid()
      modifies this
      ensures Valid() && arrived == old(arrived)
      ensures State() == Check(old(State()), probe, now)
    {
      if !connection.Connecting? {
        return;
      }
      if now > connection.since + 20 * SECOND {
        DisconnectWithError(now);
        return;
      }
      match probe {
        case Ready => OnConnectionEstablished(now);
        case Broken => DisconnectWithError(now);
      }
    }

    method MaybeReconnect(reached: bool, now: nat)
      requires Valid()
      modifies this
      ensures Valid() && arrived == old(arrived)
      ensures State() == ServerSpec.MaybeReconnect(old(State()), reconnectSettings, reached, now)
    {
      if !loginState.LoggedIn? {
        return;
      }
      if !connection.Disconnected? {
        return;
      }
      var attempt := connection.reconnectAttempt;
      if connection.lastDisconnect.None? {
        return;
      }
      var lastDisconnect := connection.lastDisconnect.value;
      if reconnectSettings.Disabled? {
        return;
      }
      if reconnectSettings.maxAttempts.Some? && attempt > reconnectSettings.maxAttempts.value {
        return;
      }
      hide BackoffSecs;
      var backoff := SECOND * BackoffSecs(attempt, reconnectSettings.minDelay / SECOND,
                                          reconnectSettings.maxDelay / SECOND);
      if now < lastDisconnect + backoff {
        return;
      }
      InitiateConnection(reached, now);
    }

    method OnLoginStatus(loggedIn: bool)
      requires Valid()
      modifies this
      ensures Valid() && arrived == old(arrived)
      ensures State() == ServerSpec.OnLoginStatus(old(State()), loggedIn, enableListen)
    {
      LoginStatusKeeps(State(), loggedIn, enableListen);
      hide Orderly, Known;
      var was := loginState;
      loginState := NotAttempted;
      match was {
        case Pending(username, password, _) =>
          if loggedIn {
            loginState := LoggedIn(username, password);
          }
        case other =>
          loginState := other;
      }
      if loggedIn {
        QueueMessage(SharedFoldersMessage, None);
        QueueMessage(NoParentMessage, None);
        QueueMessage(SetStatusMessage, None);
        if enableListen {
          QueueMessage(SetWaitPortMessage, None);
        }
      }
    }

    // The part of a tick that gives up an unanswered login.
    method ExpireLogin(now: nat)
      requires Valid()
      modifies this
      ensures Valid() && arrived == old(arrived)
      ensures State() == ServerSpec.ExpireLogin(old(State()), now)
    {
      if loginState.Pending? && now >= loginState.deadline {
        loginState := NotAttempted;
      }
    }

    method OnStart(reached: bool, now: nat)
      requires Valid()
      modifies this
      ensures Valid() && arrived == old(arrived)
      ensures State() == ServerSpec.OnStart(old(State()), reached, now)
    {
      if connection.Disconnected? {
        InitiateConnection(reached, now);
      } else {
        OnConnectionEstablished(now);
      }
    }

    method OnStop()
      requires Valid()
      modifies this`connection
      ensures Valid() && arrived == old(arrived)
      ensures State() == ServerSpec.OnStop(old(State()))
    {
      connection := Disconnected(0, None);
    }
  }
}
