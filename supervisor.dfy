/**
 * The parent side of `Server`: the list of worker pids and the `running`
 * flag. `os.fork` is modelled as handing out a pid that no live child has
 * (a counter above every pid handed out so far), and `os.wait` as a sequence
 * of events the parent observes.
 */
module Supervisor {
  import opened Base
  import opened Listener

  predicate NoDuplicates(s: seq<int>) {
    forall i, j :: 0 <= i < j < |s| ==> s[i] != s[j]
  }

  /** `list.remove(x)`: drop the first occurrence of `x`. */
  function Remove(s: seq<int>, x: int): seq<int>
    requires x in s
  {
    if s[0] == x then s[1..] else [s[0]] + Remove(s[1..], x)
  }

  /** Removing a present pid shortens the list by one, keeps every other
      pid, and (without duplicates) leaves no copy of it behind. */
  lemma {:induction false} RemoveProperties(s: seq<int>, x: int)
    requires x in s && NoDuplicates(s)
    ensures |Remove(s, x)| == |s| - 1
    ensures x !in Remove(s, x)
    ensures NoDuplicates(Remove(s, x))
    ensures forall y :: y in Remove(s, x) <==> y in s && y != x
  {
    if s[0] != x {
      assert NoDuplicates(s[1..]) by {
        forall i, j | 0 <= i < j < |s[1..]| ensures s[1..][i] != s[1..][j] {
          assert s[1..][i] == s[i + 1] && s[1..][j] == s[j + 1];
        }
      }
      RemoveProperties(s[1..], x);
      var r := Remove(s[1..], x);
      assert s[0] !in r by {
        forall k | 0 <= k < |s[1..]| ensures s[1..][k] != s[0] {
          assert s[1..][k] == s[k + 1];
        }
      }
    } else {
      forall k | 0 <= k < |s[1..]| ensures s[1..][k] != x {
        assert s[1..][k] == s[k + 1];
      }
    }
  }

  /** What the parent learns from one `os.wait()` call. */
  datatype WaitEvent =
    | ChildExited(pid: int)       // WIFEXITED or WIFSIGNALED
    | ChildChanged(pid: int)      // any other status (stopped, continued)
    | WaitFailed(errno: Errno)    // os.wait raised OSError
    | Hangup                      // SIGHUP arrived: `hup` ran, os.wait was interrupted
    | Terminate                   // SIGTERM arrived: `kill_children` ran, os.wait was interrupted
    | KeyboardInterrupt

  datatype Errno = EINTR | ECHILD | OtherErrno(code: int)

  /** How `wait_on_children` ended. */
  datatype WaitEnd =
    | Stopped                // `running` was false at the loop head
    | Interrupted            // KeyboardInterrupt: break
    | Raised(error: WaitError)
    | NoMoreEvents           // the modelled event sequence ran out

  datatype WaitError = UnknownChild(pid: int) | OsError(errno: Errno)

  /** An event after which the reap loop goes on to its next `os.wait()`,
      whatever the state. */
  predicate Continues(e: WaitEvent) {
    e.ChildExited? || e.ChildChanged? || e == WaitFailed(EINTR) || e == WaitFailed(ECHILD)
  }

  /** What `eventlet.listen` did within `get_socket`'s 30-second retry window. */
  datatype ListenOutcome =
    | Bound
    | AddressInUseThroughout        // every attempt met EADDRINUSE
    | SocketError(errno: int)       // any other socket error, raised at once

  /** Why `get_socket` raised. */
  datatype StartError =
    | SslMisconfigured(reason: ConfigError)  // RuntimeError from the TLS check
    | CouldNotBind                  // RuntimeError: could not bind after 30 seconds
    | ListenFailed(errno: int)      // the socket error itself

  /** The listening socket `get_socket` returns: wrapped in TLS or not. */
  datatype Socket = Socket(tls: bool)

  class Server {
    var threads: int
    var children: seq<int>
    var running: bool
    /** Whether `start` installed the SIGTERM/SIGHUP handlers. */
    var handlersInstalled: bool
    /** Whether `start` chose the single in-process server (workers == 0). */
    var singleProcess: bool
    /** The largest pid handed out so far: the model of the OS pid allocator. */
    var lastPid: int
    /** `self.sock`, once `start` has bound it. */
    var sock: Option<Socket>

    ghost predicate Valid()
      reads this
    {
      && NoDuplicates(children)
      && lastPid >= 0
      && (forall i :: 0 <= i < |children| ==> 0 < children[i] <= lastPid)
    }

    constructor (threads: int)
      ensures Valid()
      ensures this.threads == threads && children == [] && running
      ensures !handlersInstalled && !singleProcess && sock.None?
    {
      this.threads := threads;
      children := [];
      running := true;
      handlersInstalled := false;
      singleProcess := false;
      lastPid := 0;
      sock := None;
    }

    /** `run_child` in the parent: fork, then record the new pid. */
    method RunChild() returns (pid: int)
      requires Valid()
      modifies this`children, this`lastPid
      ensures Valid()
      ensures pid > 0 && pid !in old(children)
      ensures pid == lastPid && pid > old(lastPid)
      ensures children == old(children) + [pid]
    {
      lastPid := lastPid + 1;
      pid := lastPid;
      children := children + [pid];
    }

    /** `start`: bind the socket (`get_socket`, which raises on a half TLS
        configuration and on a failed bind), then either run the single
        in-process server (no workers) or install the signal handlers and
        fork until there are `workers` children. The bind's outcome and the
        TLS options are parameters; a raise leaves the server as it was. */
    method Start(workers: int, certFile: Option<string>, keyFile: Option<string>, listen: ListenOutcome)
      returns (error: Option<StartError>)
      requires Valid()
      modifies this
      ensures Valid()
      ensures error.Some? <==> UseSsl(certFile, keyFile).Failure? || !listen.Bound?
      ensures UseSsl(certFile, keyFile).Failure? ==> error == Some(SslMisconfigured(UseSsl(certFile, keyFile).error))
      ensures UseSsl(certFile, keyFile).Success? && listen.AddressInUseThroughout? ==> error == Some(CouldNotBind)
      ensures UseSsl(certFile, keyFile).Success? && listen.SocketError? ==> error == Some(ListenFailed(listen.errno))
      ensures error.Some? ==>
        && children == old(children) && sock == old(sock) && handlersInstalled == old(handlersInstalled)
        && singleProcess == old(singleProcess)
      ensures error.None? ==> sock == Some(Socket(UseSsl(certFile, keyFile).value))
      ensures running == old(running) && threads == old(threads)
      ensures error.None? && workers == 0 ==>
        children == old(children) && singleProcess && handlersInstalled == old(handlersInstalled)
      ensures error.None? && workers != 0 ==> handlersInstalled && singleProcess == old(singleProcess)
      ensures error.None? && workers != 0 ==>
        |children| == if |old(children)| < workers then workers else |old(children)|
      ensures children[..|old(children)|] == old(children)
      ensures forall i :: |old(children)| <= i < |children| ==> children[i] !in old(children)
    {
      var ssl := UseSsl(certFile, keyFile);
      if ssl.Failure? {
        return Some(SslMisconfigured(ssl.error));
      }
      match listen {
        case AddressInUseThroughout => return Some(CouldNotBind);
        case SocketError(e) => return Some(ListenFailed(e));
        case Bound =>
      }
      sock := Some(Socket(ssl.value));
      error := None;
      if workers == 0 {
        singleProcess := true;
        return;
      }
      handlersInstalled := true;
      while |children| < workers
        invariant Valid()
        invariant |old(children)| <= |children|
        invariant |old(children)| < workers ==> |children| <= workers
        invariant |old(children)| >= workers ==> children == old(children)
        invariant handlersInstalled && sock == Some(Socket(ssl.value))
        invariant children[..|old(children)|] == old(children)
        invariant forall i :: |old(children)| <= i < |children| ==> children[i] !in old(children)
        invariant running == old(running) && threads == old(threads) && singleProcess == old(singleProcess)
        decreases workers - |children|
      {
        var pid := RunChild();
      }
    }

    /** `hup`: stop respawning; running requests are left to finish. */
    method Hup()
      modifies this`running
      ensures !running
    {
      running := false;
    }

    /** `kill_children` in the parent: stop respawning (the group kill itself
        is a signal to the processes, not a change of this state). */
    method KillChildren()
      modifies this`running
      ensures !running
    {
      running := false;
    }

    /** The body of the reap loop for a child that exited or was killed:
        remove its pid and fork a replacement, whatever `running` now says.
        A pid that is not in the list makes `list.remove` raise. */
    method ReapChild(pid: int) returns (ok: bool, replacement: int)
      requires Valid()
      modifies this`children, this`lastPid
      ensures Valid()
      ensures ok <==> pid in old(children)
      ensures !ok ==> children == old(children)
      ensures ok ==> children == Remove(old(children), pid) + [replacement]
      ensures ok ==> replacement !in old(children) && pid !in children
      ensures ok ==> replacement == lastPid && replacement > old(lastPid)
      ensures !ok ==> lastPid == old(lastPid)
      ensures ok ==> forall q :: q in children <==> (q in old(children) && q != pid) || q == replacement
      ensures |children| == |old(children)|
    {
      if pid !in children {
        return false, 0;
      }
      RemoveProperties(children, pid);
      ghost var was := children;
      children := Remove(children, pid);
      forall i | 0 <= i < |children| ensures 0 < children[i] <= lastPid {
        assert children[i] in children;
      }
      replacement := RunChild();
      ok := true;
    }

    /** One pass of the reap loop's body on the event `os.wait()` gave:
        `None` goes back to the loop head, `Some` leaves the loop. */
    method HandleEvent(event: WaitEvent) returns (end: Option<WaitEnd>)
      requires Valid()
      modifies this
      ensures Valid()
      ensures |children| == |old(children)|
      ensures lastPid >= old(lastPid)
      ensures forall q :: q in children && q !in old(children) ==> q > old(lastPid)
      ensures forall q :: q in old(children) && q !in children ==> event == ChildExited(q)
      ensures event.ChildExited? ==> event.pid !in children
      ensures end.None? && Continues(event) ==> running == old(running)
      ensures end.None? && !Continues(event) ==> !running && (event == Hangup || event == Terminate)
      ensures end.Some? ==> running == old(running)
      ensures end == Some(Interrupted) <==> event == KeyboardInterrupt
      ensures end.Some? ==> end.value.Interrupted? || end.value.Raised?
      ensures end.Some? && end.value.Raised? && end.value.error.OsError? ==>
        event == WaitFailed(end.value.error.errno) &&
        end.value.error.errno != EINTR && end.value.error.errno != ECHILD
      ensures end.Some? && end.value.Raised? && end.value.error.UnknownChild? ==>
        event == ChildExited(end.value.error.pid)
      ensures event.ChildExited? && event.pid in old(children) ==> end.None?
      ensures event.ChildExited? && event.pid !in old(children) ==>
        end == Some(Raised(UnknownChild(event.pid))) && children == old(children)
      ensures threads == old(threads) && handlersInstalled == old(handlersInstalled)
      ensures singleProcess == old(singleProcess) && sock == old(sock)
    {
      end := None;
      match event {
        case ChildExited(pid) =>
          var ok, _ := ReapChild(pid);
          if !ok {
            end := Some(Raised(UnknownChild(pid)));
          }
        case ChildChanged(_) =>
        case WaitFailed(errno) =>
          if errno != EINTR && errno != ECHILD {
            end := Some(Raised(OsError(errno)));
          }
        case Hangup => Hup();
        case Terminate => KillChildren();
        case KeyboardInterrupt => end := Some(Interrupted);
      }
    }

    /** `wait_on_children`: while `running` holds at the loop head, take the
        next event. Exited children are replaced one for one; EINTR and
        ECHILD are ignored; other OS errors and unknown pids end the loop with
        an error; a keyboard interrupt ends it quietly. */
    method WaitOnChildren(events: seq<WaitEvent>) returns (end: WaitEnd, consumed: nat)
      requires Valid()
      modifies this
      ensures Valid()
      ensures consumed <= |events|
      ensures |children| == |old(children)|
      ensures end.Stopped? ==> !running
      ensures end.NoMoreEvents? ==> running && consumed == |events|
      ensures old(!running) ==> end == Stopped && consumed == 0 && children == old(children)
      ensures forall p :: p in old(children) && p !in children ==>
        exists k :: 0 <= k < consumed && events[k] == ChildExited(p)
      // every listed child whose exit was read is gone, and every new child
      // is a freshly forked pid
      ensures forall k :: 0 <= k < consumed && events[k].ChildExited? && events[k].pid in old(children) ==>
        events[k].pid !in children
      ensures forall q :: q in children && q !in old(children) ==> q > old(lastPid)
      // a running server reads at least one event, and only the last event it
      // read can have ended the loop
      ensures old(running) && |events| > 0 ==> consumed > 0
      ensures forall k :: 0 <= k < consumed - 1 ==> Continues(events[k])
      ensures end.NoMoreEvents? ==> forall k :: 0 <= k < consumed ==> Continues(events[k])
      ensures end.Stopped? && old(running) ==>
        consumed > 0 && (events[consumed - 1] == Hangup || events[consumed - 1] == Terminate)
      ensures end.Interrupted? ==> consumed > 0 && events[consumed - 1] == KeyboardInterrupt
      ensures end.Raised? && end.error.OsError? ==>
        consumed > 0 && events[consumed - 1] == WaitFailed(end.error.errno) &&
        end.error.errno != EINTR && end.error.errno != ECHILD
      ensures end.Raised? && end.error.UnknownChild? ==>
        consumed > 0 && events[consumed - 1] == ChildExited(end.error.pid) && end.error.pid !in children
      // an exit event for a pid at or below the loop's starting `lastPid` that was
    // not listed at the start (reaped already, or never forked) makes
    // `list.remove` raise at once
      ensures forall k ::
        (0 <= k < consumed && events[k].ChildExited? && events[k].pid !in old(children) &&
         events[k].pid <= old(lastPid)) ==>
          k == consumed - 1 && end == Raised(UnknownChild(events[k].pid))
      ensures threads == old(threads) && handlersInstalled == old(handlersInstalled)
      ensures singleProcess == old(singleProcess) && sock == old(sock)
    {
      consumed := 0;
      while running
        invariant Valid()
        invariant consumed <= |events|
        invariant |children| == |old(children)|
        invariant running ==> old(running)
        invariant old(!running) ==> consumed == 0 && children == old(children)
        invariant forall p :: p in old(children) ==> p <= old(lastPid)
        invariant lastPid >= old(lastPid)
        invariant forall q :: q in children && q !in old(children) ==> q > old(lastPid)
        invariant forall p :: p in old(children) && p !in children ==>
          exists k :: 0 <= k < consumed && events[k] == ChildExited(p)
        invariant forall k :: 0 <= k < consumed && events[k].ChildExited? && events[k].pid in old(children) ==>
          events[k].pid !in children
        invariant forall k :: 0 <= k < consumed && events[k].ChildExited? ==>
          !(events[k].pid !in old(children) && events[k].pid <= old(lastPid))
        invariant old(running) && |events| > 0 ==> consumed > 0 || running
        invariant running ==> forall k :: 0 <= k < consumed ==> Continues(events[k])
        invariant !running && old(running) ==>
          && consumed > 0 && (events[consumed - 1] == Hangup || events[consumed - 1] == Terminate)
          && forall k :: 0 <= k < consumed - 1 ==> Continues(events[k])
        invariant threads == old(threads) && handlersInstalled == old(handlersInstalled)
        invariant singleProcess == old(singleProcess) && sock == old(sock)
        decreases |events| - consumed
      {
        if consumed == |events| {
          return NoMoreEvents, consumed;
        }
        var event := events[consumed];
        consumed := consumed + 1;
        var stop := HandleEvent(event);
        if stop.Some? {
          return stop.value, consumed;
        }
      }
      end := Stopped;
    }
  }

  /** Scenario: with two workers, one exit is followed by exactly one
      replacement and the count is back at two. */
  method RespawnScenario() returns (count: nat, deadReaped: bool)
    ensures count == 2 && deadReaped
  {
    var server := new Server(1000);
    var error := server.Start(2, None, None, Bound);
    var dead := server.children[0];
    var events := [ChildExited(dead), Hangup];
    var end, consumed := server.WaitOnChildren(events);
    assert events[0] == ChildExited(dead);
    count := |server.children|;
    deadReaped := dead !in server.children;
  }
  /** Scenario: SIGHUP lands after `os.wait` returned a dead child. `running`
      is only read at the loop head, so the reap step still forks a
      replacement; a second SIGHUP changes nothing more. */
  method HangupDuringReap() returns (respawned: bool, count: nat, stillRunning: bool)
    ensures respawned && count == 2 && !stillRunning
  {
    var server := new Server(1000);
    var error := server.Start(2, None, None, Bound);
    var dead := server.children[0];
    server.Hup();
    var replacement;
    respawned, replacement := server.ReapChild(dead);
    server.Hup();
    count := |server.children|;
    stillRunning := server.running;
  }
}
