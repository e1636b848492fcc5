/** The download manager's methods, each proved to take the step that the transition system names. */
module DownloadManager {
  import opened Collections
  import opened DownloadSpec

  // How a transfer ended: with a path, or with one of the errors the manager tells apart.
  datatype Result = Ok(path: string) | DownloadCancelled | DownloadTimedOut | OtherError

  function StatusOf(result: Result): (status: Status)
    ensures status.Terminal()
    ensures (status == Completed <==> result.Ok?) && (status == Cancelled <==> result.DownloadCancelled?)
    ensures (status == TimedOut <==> result.DownloadTimedOut?) && (status == Failed <==> result.OtherError?)
  {
    match result
    case Ok(_) => Completed
    case DownloadCancelled => Cancelled
    case DownloadTimedOut => TimedOut
    case OtherError => Failed
  }

  class DownloadManager {
    var loggedIn: bool
    var pending: seq<Token>
    const maxConcurrent: Option<nat>
    var activeSlots: set<Token>
    var downloads: map<Token, Download>

    // Outside the manager: its timers, the messages they sent it, and the channels of the downloads.
    var timers: map<nat, Token>
    var nextTimer: nat
    var inbox: multiset<Token>
    var sent: map<Token, seq<Status>>

    ghost predicate Valid()
      reads this
    {
      forall t | t in downloads :: downloads[t].token == t
    }

    function State(): State
      reads this
    {
      DownloadSpec.State(loggedIn, pending, maxConcurrent, activeSlots, downloads, timers, nextTimer, inbox, sent)
    }

    constructor (maxConcurrent: Option<nat>, loggedIn: bool, pending: seq<Token>, downloads: map<Token, Download>)
      requires forall t | t in downloads :: downloads[t].token == t
      ensures Valid()
      ensures State() == DownloadSpec.State(loggedIn, pending, maxConcurrent, {}, downloads, map[], 0, multiset{},
                                            map t | t in pending :: [])
    {
      this.loggedIn := loggedIn;
      this.maxConcurrent := maxConcurrent;
      this.pending := pending;
      this.downloads := downloads;
      activeSlots := {};
      timers, nextTimer, inbox := map[], 0, multiset{};
      sent := map t | t in pending :: [];
    }

    method Send(token: Token, status: Status)
      modifies this`sent
      ensures sent == Sent(old(sent), token, status)
    {
      sent := sent[token := (if token in sent then sent[token] else []) + [status]];
    }

    // Starts a response timer and returns its handle.
    method Spawn(token: Token) returns (handle: nat)
      modifies this`timers, this`nextTimer
      ensures handle == old(nextTimer) && nextTimer == handle + 1 && timers == old(timers)[handle := token]
    {
      handle := nextTimer;
      timers := timers[handle := token];
      nextTimer := nextTimer + 1;
    }

    method Abort(handle: Option<nat>)
      modifies this`timers
      ensures timers == Aborted(old(timers), handle)
    {
      if handle.Some? {
        timers := timers - {handle.value};
      }
    }

    predicate HasRoom()
      reads this
    {
      maxConcurrent.None? || |activeSlots| < maxConcurrent.value
    }

    method Enqueue(download: Download)
      requires Valid()
      modifies this
      ensures Valid() && State() == DownloadSpec.Enqueue(old(State()), download)
    {
      Send(download.token, QueuedLocally);
      downloads := downloads[download.token := download];
      if loggedIn && HasRoom() {
        TryInitiate(download.token);
      } else {
        pending := pending + [download.token];
      }
    }

    method TryInitiate(token: Token)
      requires Valid()
      modifies this`activeSlots, this`downloads, this`timers, this`nextTimer
      ensures Valid() && State() == Initiate(old(State()), token)
    {
      if token !in downloads {
        return;
      }
      activeSlots := activeSlots + {token};
      downloads := downloads[token := downloads[token].(status := QueuedLocally)];
      var handle := Spawn(token);
      downloads := downloads[token := downloads[token].(timer := Some(handle))];
    }

    method DrainPendingQueue()
      requires Valid()
      modifies this`pending, this`activeSlots, this`downloads, this`timers, this`nextTimer
      ensures Valid() && State() == Drain(old(State()))
    {
      while true
        invariant Valid() && Drain(State()) == Drain(old(State()))
        decreases |pending|
      {
        if !HasRoom() {
          break;
        }
        if pending == [] {
          break;
        }
        var token := pending[0];
        pending := pending[1..];
        TryInitiate(token);
      }
    }

    method TryDequeueNext()
      requires Valid()
      modifies this`pending, this`activeSlots, this`downloads, this`timers, this`nextTimer
      ensures Valid() && State() == DequeueNext(old(State()))
    {
      if !loggedIn {
        return;
      }
      if !HasRoom() {
        return;
      }
      if pending != [] {
        var token := pending[0];
        pending := pending[1..];
        TryInitiate(token);
      }
    }

    method OnCompleted(token: Token, result: Result)
      requires Valid()
      modifies this
      ensures Valid() && State() == DownloadSpec.OnCompleted(old(State()), token, StatusOf(result))
    {
      hide Sent, DequeueNext;
      if token in downloads {
        Send(token, StatusOf(result));
      }
      downloads := downloads - {token};
      activeSlots := activeSlots - {token};
      TryDequeueNext();
    }

    method OnPeerDisconnected(username: string)
      requires Valid()
      modifies this
      ensures Valid() && State() == DownloadSpec.FailMatching(old(State()), username, None)
    {
      FailMatching(username, None);
    }

    method OnUploadFailed(username: string, filename: string)
      requires Valid()
      modifies this
      ensures Valid() && State() == DownloadSpec.FailMatching(old(State()), username, Some(filename))
    {
      FailMatching(username, Some(filename));
    }

    // Tells the owners of the matching downloads, in whatever order the map yields them.
    method TellFailed(username: string, filename: Option<string>) returns (failedTokens: seq<Token>)
      requires Valid()
      modifies this`sent
      ensures Members(failedTokens) == Matching(downloads, username, filename)
      ensures Distinct(failedTokens)
      ensures sent == SentAll(old(sent), Matching(downloads, username, filename), Failed)
    {
      failedTokens := [];
      var rest := downloads.Keys;
      while rest != {}
        invariant rest <= downloads.Keys
        invariant Distinct(failedTokens)
        invariant Members(failedTokens) == Matching(downloads, username, filename) - rest
        invariant sent == SentAll(old(sent), Members(failedTokens), Failed)
        decreases rest
      {
        var key :| key in rest;
        rest := rest - {key};
        var d := downloads[key];
        if d.username == username && (filename.None? || d.filename == filename.value) {
          MembersAppend(failedTokens, key);
          SentAllNext(old(sent), Members(failedTokens), key, Failed);
          DistinctAppend(failedTokens, key);
          hide SentAll, Sent, Distinct, Members;
          Send(d.token, Failed);
          failedTokens := failedTokens + [d.token];
        }
      }
    }

    // Takes the failed downloads out of the queue, the table and the slots, one by one.
    method DropFailed(failedTokens: seq<Token>)
      requires Distinct(failedTokens)
      modifies this`pending, this`downloads, this`activeSlots, this`timers
      ensures var failed := Members(failedTokens);
              && pending == Without(old(pending), failed)
              && downloads == old(downloads) - failed
              && activeSlots == old(activeSlots) - failed
              && timers == old(timers) - Handles(old(downloads), failed)
    {
      WithoutNobody(pending, {});
      assert Members(failedTokens[..0]) == {} && Handles(downloads, {}) == {};
      hide Members, Without, Handles, Distinct;
      for i := 0 to |failedTokens|
        invariant pending == Without(old(pending), Members(failedTokens[..i]))
        invariant downloads == old(downloads) - Members(failedTokens[..i])
        invariant activeSlots == old(activeSlots) - Members(failedTokens[..i])
        invariant timers == old(timers) - Handles(old(downloads), Members(failedTokens[..i]))
      {
        var token := failedTokens[i];
        ghost var dropped := Members(failedTokens[..i]);
        MembersNext(failedTokens, i);
        WithoutTwice(old(pending), dropped, {token});
        MinusTwice(old(downloads), old(activeSlots), dropped, token);
        TimersNext(old(downloads), old(timers), dropped, token);
        assert token in downloads <==> token in old(downloads);
        pending := Without(pending, {token});
        if token in downloads {
          var handle := downloads[token].timer;
          downloads := downloads - {token};
          Abort(handle);
        }
        activeSlots := activeSlots - {token};
      }
      assert failedTokens[..|failedTokens|] == failedTokens;
    }

    method FailMatching(username: string, filename: Option<string>)
      requires Valid()
      modifies this
      ensures Valid() && State() == DownloadSpec.FailMatching(old(State()), username, filename)
    {
      var failedTokens := TellFailed(username, filename);
      hide Without, SentAll, Handles, Distinct, Matching;
      DropFailed(failedTokens);
      if failedTokens != [] {
        assert failedTokens[0] in Members(failedTokens);
        TryDequeueNext();
      }
    }

    method OnCancel(token: Token)
      requires Valid()
      modifies this
      ensures Valid() && State() == DownloadSpec.OnCancel(old(State()), token)
    {
      hide Without, Sent, Aborted, DequeueNext;
      pending := Without(pending, {token});
      if token in downloads {
        var handle := downloads[token].timer;
        downloads := downloads - {token};
        Abort(handle);
        Send(token, Cancelled);
        if token in activeSlots {
          activeSlots := activeSlots - {token};
          TryDequeueNext();
        }
      }
    }

    method OnTimeout(token: Token)
      requires Valid()
      modifies this
      ensures Valid() && State() == DownloadSpec.OnTimeout(old(State()), token)
    {
      if token in downloads && downloads[token].status.QueuedLocally? {
        downloads := downloads - {token};
        Send(token, TimedOut);
        if token in activeSlots {
          activeSlots := activeSlots - {token};
          TryDequeueNext();
        }
      }
    }

    // Takes the timer's handle from the download and aborts it, and reports the download as queued remotely.
    method QueueRemotely(token: Token, place: Option<nat>)
      requires Valid() && token in downloads
      modifies this`timers, this`downloads, this`sent
      ensures Valid() && State() == QueuedAt(old(State()), token, place)
    {
      Abort(downloads[token].timer);
      downloads := downloads[token := downloads[token].(timer := None, status := QueuedRemotely(place))];
      Send(token, QueuedRemotely(place));
    }

    method Rearm(token: Token)
      requires Valid() && token in downloads
      modifies this`timers, this`nextTimer, this`downloads
      ensures Valid() && State() == Armed(old(State()), token)
    {
      var handle := Spawn(token);
      downloads := downloads[token := downloads[token].(timer := Some(handle))];
    }

    // The search comes upon some download of that peer and file, if there is one.
    method FindFile(username: string, filename: string) returns (found: Option<Token>)
      ensures found.Some? <==> Matching(downloads, username, Some(filename)) != {}
      ensures found.Some? ==> found.value in Matching(downloads, username, Some(filename))
    {
      var matching := Matching(downloads, username, Some(filename));
      if matching == {} {
        return None;
      }
      var t :| t in matching;
      return Some(t);
    }

    method OnTransferRequest(peerToken: nat, filename: string, size: nat, username: string)
      returns (found: Option<Token>)
      requires Valid()
      modifies this
      ensures found.Some? <==> Matching(old(downloads), username, Some(filename)) != {}
      ensures found.None? ==> State() == old(State())
      ensures found.Some? ==> found.value in Matching(old(downloads), username, Some(filename))
      ensures found.Some? ==> State() == DownloadSpec.OnTransferRequest(old(State()), found.value, peerToken, size)
      ensures Valid()
    {
      found := FindFile(username, filename);
      if found.Some? {
        var token := found.value;
        downloads := downloads[token := downloads[token].(peerToken := Some(peerToken), size := size)];
        QueueRemotely(token, None);
      }
    }

    method OnQueuePosition(username: string, filename: string, place: nat) returns (found: Option<Token>)
      requires Valid()
      modifies this
      ensures found.Some? <==> Matching(old(downloads), username, Some(filename)) != {}
      ensures found.None? ==> State() == old(State())
      ensures found.Some? ==> found.value in Matching(old(downloads), username, Some(filename))
      ensures found.Some? ==> State() == DownloadSpec.OnQueuePosition(old(State()), found.value, place)
      ensures Valid()
    {
      found := FindFile(username, filename);
      if found.Some? {
        QueueRemotely(found.value, Some(place));
        Rearm(found.value);
      }
    }

    method OnTransferRejected(peerToken: nat) returns (found: Option<Token>)
      requires Valid()
      modifies this
      ensures found.Some? <==> exists t :: t in old(downloads) && old(downloads)[t].peerToken == Some(peerToken)
      ensures found.None? ==> State() == old(State())
      ensures found.Some? ==> found.value in old(downloads) && old(downloads)[found.value].peerToken == Some(peerToken)
      ensures found.Some? ==> State() == DownloadSpec.OnTransferRejected(old(State()), found.value)
      ensures Valid()
    {
      var asked := set t | t in downloads && downloads[t].peerToken == Some(peerToken);
      if asked == {} {
        assert forall t | t in downloads :: t !in asked;
        return None;
      }
      var token :| token in asked;
      QueueRemotely(token, None);
      Rearm(token);
      return Some(token);
    }

    method OnServerDisconnected()
      modifies this`loggedIn
      ensures State() == old(State()).(loggedIn := false)
    {
      loggedIn := false;
    }

    method OnLoginSucceeded()
      requires Valid()
      modifies this
      ensures Valid() && State() == Drain(old(State()).(loggedIn := true))
    {
      loggedIn := true;
      DrainPendingQueue();
    }
  }

  function Members(tokens: seq<Token>): set<Token> {
    set t | t in tokens
  }

  lemma SentAllNext(sent: map<Token, seq<Status>>, ts: set<Token>, t: Token, status: Status)
    requires t !in ts
    ensures Sent(SentAll(sent, ts, status), t, status) == SentAll(sent, ts + {t}, status)
  {
  }

  lemma MembersAppend(tokens: seq<Token>, t: Token)
    ensures Members(tokens + [t]) == Members(tokens) + {t}
    ensures t in tokens <==> t in Members(tokens)
  {
  }

  lemma MembersNext(tokens: seq<Token>, i: nat)
    requires i < |tokens| && Distinct(tokens)
    ensures Members(tokens[..i + 1]) == Members(tokens[..i]) + {tokens[i]}
    ensures tokens[i] !in Members(tokens[..i])
  {
    assert tokens[..i + 1] == tokens[..i] + [tokens[i]];
  }

  lemma MinusTwice(downloads: map<Token, Download>, active: set<Token>, ts: set<Token>, t: Token)
    ensures downloads - ts - {t} == downloads - (ts + {t})
    ensures active - ts - {t} == active - (ts + {t})
    ensures t !in downloads ==> downloads - ts == downloads - (ts + {t})
  {
  }

  lemma TimersNext(downloads: map<Token, Download>, timers: map<nat, Token>, ts: set<Token>, t: Token)
    ensures timers - Handles(downloads, ts + {t})
         == Aborted(timers - Handles(downloads, ts), if t in downloads then downloads[t].timer else None)
  {
    HandlesNext(downloads, ts, t);
    hide Handles;
  }

  lemma HandlesNext(downloads: map<Token, Download>, ts: set<Token>, t: Token)
    ensures Handles(downloads, ts + {t}) ==
            Handles(downloads, ts)
            + if t in downloads && downloads[t].timer.Some? then {downloads[t].timer.value} else {}
  {
  }
}
