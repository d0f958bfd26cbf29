/** That the client keeps trying: a client nobody has closed has exactly one URL fetch, socket or timer going,
    until a failure finds its retries used up. */
module Reconnecting {
  import opened Wrappers
  import opened Connection

  /** The calls made while the failure of a fetch or a socket is notified. */
  function Notified(e: Event): seq<Call> {
    match e
    case FetchFails(onError, _) => onError
    case SocketCloses(_, onClose, _) => onClose
    case SocketFails(_, onError, _, onClose, _) => onError + onClose
    case _ => []
  }

  /** The fetch under way fails, or the socket closes. */
  predicate Fails(s: State, e: Event) {
    (e.FetchFails? && s.fetches > 0) || ((e.SocketCloses? || e.SocketFails?) && Live(s, e.i))
  }

  /** Reconnecting is off, or as many attempts as allowed have been made since the last open. */
  predicate Spent(cfg: Config, attempts: int) {
    !cfg.enabled || (cfg.maxRetries.Finite? && attempts >= cfg.maxRetries.n)
  }

  /** A failure finds the retries used up, and nobody closes the client on hearing of it. */
  predicate GivesUp(cfg: Config, s: State, e: Event) {
    Fails(s, e) && !s.closedByUser && Spent(cfg, s.attempts) && Close !in Notified(e)
  }

  ghost predicate NeverGivesUp(cfg: Config, run: seq<Event>) {
    run != [] ==> NeverGivesUp(cfg, run[..|run| - 1]) && !GivesUp(cfg, Exec(cfg, run[..|run| - 1]), run[|run| - 1])
  }

  ghost predicate Trying(s: State) {
    s.closedByUser || Tokens(s) == 1
  }

  ghost predicate TryingThroughout(cfg: Config, run: seq<Event>) {
    Trying(Exec(cfg, run)) && (run != [] ==> TryingThroughout(cfg, run[..|run| - 1]))
  }

  // ---------- Steps ----------

  /** A failure after which no token is left: a timer is armed unless the retries are used up. */
  lemma ErrorSchedules(cfg: Config, s: State, calls: seq<Call>, onReconnecting: seq<Call>)
    requires Owned(s) && s.fetches == 0 && LiveSockets(s.sockets) == 0 && !s.timer
    ensures var t := OnError(cfg, s, calls, onReconnecting);
            && Owned(t) && t.fetches == 0 && LiveSockets(t.sockets) == 0
            && (s.closedByUser || Close in calls ==> t.closedByUser)
            && (!t.closedByUser ==> !s.closedByUser && Close !in calls && t.timer == !Spent(cfg, s.attempts))
            && (!s.closedByUser && Close !in calls && Spent(cfg, s.attempts) ==> !t.closedByUser && !t.timer && t.attempts == s.attempts)
  {
    PerformFrame(s, calls);
    ScheduleFrame(cfg, Perform(s, calls), onReconnecting);
  }

  /** A second failure of the same kind finds the timer armed, or the retries still used up. */
  lemma CloseSchedulesNoMore(cfg: Config, s: State, calls: seq<Call>, onReconnecting: seq<Call>)
    requires Owned(s) && s.fetches == 0 && LiveSockets(s.sockets) == 0
    requires s.closedByUser || s.timer || Spent(cfg, s.attempts)
    ensures var t := OnClose(cfg, s, calls, onReconnecting);
            && t.fetches == 0 && LiveSockets(t.sockets) == 0
            && t.closedByUser == (s.closedByUser || Close in calls)
            && (!t.closedByUser ==> t.timer == s.timer)
  {
    var s1 := s.(isOpen := false);
    PerformFrame(s1, calls);
    ScheduleFrame(cfg, Perform(s1, calls), onReconnecting);
  }

  lemma FetchFailureTries(cfg: Config, s: State, e: Event)
    requires OneToken(s) && e.FetchFails? && s.fetches > 0
    ensures var t := Step(cfg, s, e); Trying(t) <==> !GivesUp(cfg, s, e)
  {
    FetchFailureLeaves(s);
    ErrorSchedules(cfg, s.(fetches := s.fetches - 1), e.onError, e.onReconnecting);
  }

  lemma FetchFailureLeaves(s: State)
    requires OneToken(s) && s.fetches > 0
    ensures s.fetches == 1 && LiveSockets(s.sockets) == 0 && !s.timer
  {
  }

  lemma CloseTries(cfg: Config, s: State, e: Event)
    requires OneToken(s) && e.SocketCloses? && Live(s, e.i)
    ensures var t := Step(cfg, s, e); Trying(t) <==> !GivesUp(cfg, s, e)
  {
    OnlyLiveSocket(s, e.i);
    ErrorSchedules(cfg, s.(sockets := s.sockets[e.i := Closed], isOpen := false), e.onClose, e.onReconnecting);
  }

  lemma FailureTries(cfg: Config, s: State, e: Event)
    requires OneToken(s) && e.SocketFails? && Live(s, e.i)
    ensures var t := Step(cfg, s, e); Trying(t) <==> !GivesUp(cfg, s, e)
  {
    OnlyLiveSocket(s, e.i);
    var s1 := s.(sockets := s.sockets[e.i := Closed]);
    ErrorSchedules(cfg, s1, e.onError, e.onReconnecting);
    var s2 := OnError(cfg, s1, e.onError, e.onReconnecting);
    CloseSchedulesNoMore(cfg, s2, e.onClose, e.onReconnecting2);
  }

  /** What is no failure leaves a client trying that nobody closes. */
  lemma OthersKeepTrying(cfg: Config, s: State, e: Event)
    requires cfg.hasWebSocket && OneToken(s) && Trying(s) && !Fails(s, e)
    ensures Trying(Step(cfg, s, e))
  {
    match e
    case FetchDone =>
      assert (s.sockets + [Connecting])[..|s.sockets|] == s.sockets;
    case SocketOpens(i, onOpen) =>
      if i < |s.sockets| && s.sockets[i].Connecting? {
        OnlyLiveSocket(s, i);
        PerformFrame(s.(sockets := s.sockets[i := Open], isOpen := true, attempts := 0, notes := s.notes + [Opened]), onOpen);
      }
    case PeerCloses(i) =>
      if i < |s.sockets| {
        LiveUpdate(s.sockets, i, Closing);
      }
    case User(call) =>
      PerformFrame(s, [call]);
    case _ =>
  }

  lemma StepTries(cfg: Config, s: State, e: Event)
    requires cfg.hasWebSocket && OneToken(s) && Trying(s)
    ensures Trying(Step(cfg, s, e)) <==> !GivesUp(cfg, s, e)
  {
    if e.FetchFails? && s.fetches > 0 {
      FetchFailureTries(cfg, s, e);
    } else if e.SocketCloses? && Live(s, e.i) {
      CloseTries(cfg, s, e);
    } else if e.SocketFails? && Live(s, e.i) {
      FailureTries(cfg, s, e);
    } else {
      OthersKeepTrying(cfg, s, e);
    }
  }

  // ---------- Runs ----------

  /** In every run of a client that finds a WebSocket implementation: at every moment at which nobody has
      closed it, exactly one URL fetch, unclosed socket or armed timer is going, if and only if no failure has
      found the retries used up. */
  lemma {:induction false} KeepsTryingExactlyWhen(cfg: Config, run: seq<Event>)
    requires cfg.hasWebSocket
    ensures TryingThroughout(cfg, run) <==> NeverGivesUp(cfg, run)
  {
    if run != [] {
      var front := run[..|run| - 1];
      KeepsTryingExactlyWhen(cfg, front);
      RunKeepsOneToken(cfg, front);
      if TryingThroughout(cfg, front) {
        StepTries(cfg, Exec(cfg, front), run[|run| - 1]);
      }
    }
  }

  /** With retries without limit the client never stops trying until it is closed. */
  lemma UnlimitedRetriesNeverEnd(cfg: Config, run: seq<Event>)
    requires cfg.hasWebSocket && cfg.enabled && cfg.maxRetries.Infinite?
    ensures var s := Exec(cfg, run);
            !s.closedByUser ==> Tokens(s) == 1 && (s.fetches == 1 || s.timer || exists i :: 0 <= i < |s.sockets| && !s.sockets[i].Closed?)
  {
    UnlimitedNeverGivesUp(cfg, run);
    KeepsTryingExactlyWhen(cfg, run);
    if LiveSockets(Exec(cfg, run).sockets) > 0 {
      SomeSocketLives(Exec(cfg, run).sockets);
    }
  }

  lemma {:induction false} SomeSocketLives(sockets: seq<Socket>)
    requires LiveSockets(sockets) > 0
    ensures exists i :: 0 <= i < |sockets| && !sockets[i].Closed?
  {
    var n := |sockets| - 1;
    if sockets[n].Closed? {
      SomeSocketLives(sockets[..n]);
      var i :| 0 <= i < n && !sockets[..n][i].Closed?;
      assert !sockets[i].Closed?;
    }
  }

  lemma {:induction false} UnlimitedNeverGivesUp(cfg: Config, run: seq<Event>)
    requires cfg.enabled && cfg.maxRetries.Infinite?
    ensures NeverGivesUp(cfg, run)
  {
    if run != [] {
      UnlimitedNeverGivesUp(cfg, run[..|run| - 1]);
    }
  }

  /** With a limit, a client that nobody closed has nothing going only when it has used up its attempts. */
  lemma {:induction false} StopsOnlyWhenSpent(cfg: Config, run: seq<Event>)
    requires cfg.hasWebSocket && cfg.enabled
    ensures var s := Exec(cfg, run);
            !s.closedByUser && s.fetches == 0 && LiveSockets(s.sockets) == 0 && !s.timer
            ==> cfg.maxRetries.Finite? && s.attempts >= cfg.maxRetries.n
  {
    if run != [] {
      var front, e := run[..|run| - 1], run[|run| - 1];
      StopsOnlyWhenSpent(cfg, front);
      RunKeepsOneToken(cfg, front);
      StopStep(cfg, Exec(cfg, front), e);
    }
  }

  lemma StopStep(cfg: Config, s: State, e: Event)
    requires cfg.hasWebSocket && cfg.enabled && OneToken(s)
    requires Trying(s) || Spent(cfg, s.attempts)
    ensures Trying(Step(cfg, s, e)) || Spent(cfg, Step(cfg, s, e).attempts)
  {
    if Trying(s) {
      StepTries(cfg, s, e);
      if GivesUp(cfg, s, e) {
        GivingUpKeepsCount(cfg, s, e);
      }
    } else {
      NothingHappens(cfg, s, e);
    }
  }

  lemma GivingUpKeepsCount(cfg: Config, s: State, e: Event)
    requires OneToken(s) && GivesUp(cfg, s, e)
    ensures Step(cfg, s, e).attempts == s.attempts
  {
    if e.FetchFails? {
      PerformFrame(s.(fetches := s.fetches - 1), e.onError);
    } else if e.SocketCloses? {
      OnlyLiveSocket(s, e.i);
      PerformFrame(s.(sockets := s.sockets[e.i := Closed], isOpen := false), e.onClose);
    } else {
      OnlyLiveSocket(s, e.i);
      var s1 := s.(sockets := s.sockets[e.i := Closed]);
      ErrorSchedules(cfg, s1, e.onError, e.onReconnecting);
      PerformFrame(OnError(cfg, s1, e.onError, e.onReconnecting).(isOpen := false), e.onClose);
    }
  }

  /** Without fetch, socket and timer only calls of send() and close() have an effect. */
  lemma NothingHappens(cfg: Config, s: State, e: Event)
    requires OneToken(s) && !Trying(s)
    ensures var t := Step(cfg, s, e); t.attempts == s.attempts && (t.closedByUser || (Tokens(t) == 0 && t.notes == s.notes))
  {
    forall i | 0 <= i < |s.sockets|
      ensures s.sockets[i].Closed?
    {
      if !s.sockets[i].Closed? {
        LiveIsCounted(s.sockets, i);
      }
    }
    if e.User? {
      PerformFrame(s, [e.call]);
    }
  }

  /** A timer that fires in a client nobody closed puts exactly one URL fetch in flight, and the socket that
      comes of it is the one the client talks to. */
  lemma TimerReconnects(cfg: Config, run: seq<Event>)
    requires cfg.hasWebSocket && Exec(cfg, run).timer && !Exec(cfg, run).closedByUser
    ensures var s := Exec(cfg, run + [TimerFires]);
            s.fetches == 1 && !s.timer && LiveSockets(s.sockets) == 0
    ensures var s := Exec(cfg, run + [TimerFires] + [FetchDone]);
            s.fetches == 0 && s.sockets == Exec(cfg, run).sockets + [Connecting] && s.ws == Some(|s.sockets| - 1)
  {
    RunKeepsOneToken(cfg, run);
    assert (run + [TimerFires])[..|run|] == run;
    assert (run + [TimerFires] + [FetchDone])[..|run| + 1] == run + [TimerFires];
  }

  /** Where there is no WebSocket implementation nothing is ever fetched or opened. */
  lemma {:induction false} NoWebSocketNoSocket(cfg: Config, run: seq<Event>)
    requires !cfg.hasWebSocket
    ensures var s := Exec(cfg, run); s.fetches == 0 && s.sockets == [] && s.handed == [] && !s.isOpen && !s.timer
  {
    if run != [] {
      NoWebSocketNoSocket(cfg, run[..|run| - 1]);
      RunKeepsOneToken(cfg, run[..|run| - 1]);
      var s, e := Exec(cfg, run[..|run| - 1]), run[|run| - 1];
      if e.User? {
        var none := [e.call][1..];
        assert none == [] && Perform(Called(s, e.call), none) == Called(s, e.call);
      }
    }
  }

  /** close() takes effect at once: the queue is discarded, the timer cancelled, the socket shut and let go. */
  lemma CloseLetsGo(cfg: Config, run: seq<Event>)
    ensures var s, t := Exec(cfg, run), Exec(cfg, run + [User(Close)]);
            && t.closedByUser && !t.isOpen && !t.timer && t.ws.None? && t.pending == [] && t.discarded == s.discarded + s.pending
            && t.fetches == s.fetches && t.sent == s.sent && t.handed == s.handed && |t.sockets| == |s.sockets|
            && forall i :: 0 <= i < |s.sockets| ==>
                 t.sockets[i] == if s.ws == Some(i) && !s.sockets[i].Closed? then Closing else s.sockets[i]
  {
    assert (run + [User(Close)])[..|run|] == run;
    var none := [Close][1..];
    assert none == [] && Perform(DoClose(Exec(cfg, run)), none) == DoClose(Exec(cfg, run));
  }
}
