/** What happens to the messages passed to the connection's send(): conservation, the bounded queue,
    and the order in which a newly opened socket receives them. */
module Delivery {
  import opened Wrappers
  import opened Connection
  import opened Sequences

  /** Every message sent is in exactly one place; the queue holds the newest messages queued since the
      last flush. */
  ghost predicate Balanced(sent: seq<Msg>, handed: seq<Msg>, pending: seq<Msg>, dropped: seq<Msg>, discarded: seq<Msg>, queued: seq<Msg>) {
    && multiset(sent) == multiset(handed) + multiset(pending) + multiset(dropped) + multiset(discarded)
    && pending == Newest(queued, MAX_PENDING)
  }

  ghost predicate Accounted(s: State) {
    Balanced(s.sent, s.handed, s.pending, s.dropped, s.discarded, s.queued)
  }

  lemma Carry(h: multiset<Msg>, p: multiset<Msg>, d: multiset<Msg>, x: multiset<Msg>, m: Msg, rest: multiset<Msg>, oldest: Msg)
    requires p + multiset{m} == multiset{oldest} + rest
    ensures h + p + d + x + multiset{m} == h + rest + (d + multiset{oldest}) + x
    ensures h + p + d + x + multiset{m} == h + (p + multiset{m}) + d + x
    ensures h + p + d + x + multiset{m} == (h + multiset{m}) + p + d + x
  {
    assert h + (multiset{oldest} + rest) + d + x == h + rest + (d + multiset{oldest}) + x;
  }

  lemma SendAccounts(s: State, m: Msg)
    requires Accounted(s)
    ensures Accounted(DoSend(s, m))
  {
    var h, p, d, x := multiset(s.handed), multiset(s.pending), multiset(s.dropped), multiset(s.discarded);
    QueueSplits(s.pending, m);
    var q := s.pending + [m];
    Carry(h, p, d, x, m, multiset(q[1..]), q[0]);
    NewestExtends(s.queued, m);
  }

  lemma QueueSplits(pending: seq<Msg>, m: Msg)
    ensures var q := pending + [m];
            multiset(q) == multiset(pending) + multiset{m} && multiset(q) == multiset{q[0]} + multiset(q[1..])
  {
    var q := pending + [m];
    assert q == [q[0]] + q[1..];
  }

  lemma NewestExtends(queued: seq<Msg>, m: Msg)
    ensures var q := Newest(queued, MAX_PENDING) + [m]; Newest(queued + [m], MAX_PENDING) == if |q| > MAX_PENDING then q[1..] else q
  {
  }

  lemma CloseAccounts(s: State)
    requires Accounted(s)
    ensures Accounted(DoClose(s))
  {
  }

  lemma {:induction false} PerformAccounts(s: State, calls: seq<Call>)
    requires Accounted(s)
    ensures Accounted(Perform(s, calls))
    decreases |calls|
  {
    if calls != [] {
      if calls[0].Send? {
        SendAccounts(s, calls[0].msg);
      } else {
        CloseAccounts(s);
      }
      PerformAccounts(Called(s, calls[0]), calls[1..]);
    }
  }

  lemma HandlerAccounts(cfg: Config, s: State, calls: seq<Call>, onReconnecting: seq<Call>)
    requires Accounted(s)
    ensures Accounted(OnError(cfg, s, calls, onReconnecting))
  {
    PerformAccounts(s, calls);
    ScheduleAccounts(cfg, Perform(s, calls), onReconnecting);
  }

  lemma ScheduleAccounts(cfg: Config, s: State, onReconnecting: seq<Call>)
    requires Accounted(s)
    ensures Accounted(Schedule(cfg, s, onReconnecting))
  {
    PerformAccounts(s.(notes := s.notes + [Reconnecting(s.attempts + 1)]), onReconnecting);
  }

  lemma CloseHandlerAccounts(cfg: Config, s: State, calls: seq<Call>, onReconnecting: seq<Call>)
    requires Accounted(s)
    ensures Accounted(OnClose(cfg, s, calls, onReconnecting))
  {
    HandlerAccounts(cfg, s.(isOpen := false), calls, onReconnecting);
  }

  lemma OpenAccounts(s: State, onOpen: seq<Call>)
    requires Accounted(s)
    ensures Accounted(OnOpen(s, onOpen))
  {
    PerformAccounts(s.(isOpen := true, attempts := 0, notes := s.notes + [Opened]), onOpen);
  }

  lemma FailAccounts(cfg: Config, s: State, e: Event)
    requires Accounted(s) && e.SocketFails? && Live(s, e.i)
    ensures Accounted(Step(cfg, s, e))
  {
    var s1 := s.(sockets := s.sockets[e.i := Closed]);
    HandlerAccounts(cfg, s1, e.onError, e.onReconnecting);
    CloseHandlerAccounts(cfg, OnError(cfg, s1, e.onError, e.onReconnecting), e.onClose, e.onReconnecting2);
  }

  lemma FetchAccounts(cfg: Config, s: State, e: Event)
    requires Accounted(s) && (e.FetchDone? || e.FetchFails?) && s.fetches > 0
    ensures Accounted(Step(cfg, s, e))
  {
    if e.FetchFails? {
      HandlerAccounts(cfg, s.(fetches := s.fetches - 1), e.onError, e.onReconnecting);
    }
  }

  lemma SocketAccounts(cfg: Config, s: State, e: Event)
    requires Accounted(s) && (e.SocketOpens? || e.SocketCloses?) && Live(s, e.i)
    ensures Accounted(Step(cfg, s, e))
  {
    if e.SocketOpens? {
      OpenAccounts(s.(sockets := s.sockets[e.i := Open]), e.onOpen);
    } else {
      CloseHandlerAccounts(cfg, s.(sockets := s.sockets[e.i := Closed]), e.onClose, e.onReconnecting);
    }
  }

  lemma StepAccounts(cfg: Config, s: State, e: Event)
    requires Accounted(s)
    ensures Accounted(Step(cfg, s, e))
  {
    if (e.FetchDone? || e.FetchFails?) && s.fetches > 0 {
      FetchAccounts(cfg, s, e);
    } else if (e.SocketOpens? || e.SocketCloses?) && Live(s, e.i) {
      SocketAccounts(cfg, s, e);
    } else if e.SocketFails? && Live(s, e.i) {
      FailAccounts(cfg, s, e);
    } else if e.User? {
      PerformAccounts(s, [e.call]);
    }
  }

  lemma {:induction false} RunAccounts(cfg: Config, run: seq<Event>)
    ensures Accounted(Exec(cfg, run))
  {
    if run != [] {
      RunAccounts(cfg, run[..|run| - 1]);
      StepAccounts(cfg, Exec(cfg, run[..|run| - 1]), run[|run| - 1]);
    }
  }

  /** In every run each sent message is exactly one of handed to a socket, queued, dropped by overflow
      or discarded by close(); the queue is the newest at most 1000 messages queued since the last flush. */
  lemma MessagesAreConserved(cfg: Config, run: seq<Event>)
    ensures var s := Exec(cfg, run);
            && multiset(s.sent) == multiset(s.handed) + multiset(s.pending) + multiset(s.dropped) + multiset(s.discarded)
            && |s.pending| <= 1000
            && s.pending == Newest(s.queued, 1000)
  {
    RunAccounts(cfg, run);
  }

  lemma {:induction false} DiscardsNothing(s: State, calls: seq<Call>)
    requires Owned(s)
    ensures Perform(s, calls).discarded == s.discarded || Close in calls
    decreases |calls|
  {
    if calls != [] && calls[0].Send? {
      DiscardsNothing(DoSend(s, calls[0].msg), calls[1..]);
    }
  }

  /** Until close() is called nothing is discarded. */
  lemma {:induction false} OnlyCloseDiscards(cfg: Config, run: seq<Event>)
    ensures Exec(cfg, run).closedByUser || Exec(cfg, run).discarded == []
  {
    if run != [] {
      var s, e := Exec(cfg, run[..|run| - 1]), run[|run| - 1];
      OnlyCloseDiscards(cfg, run[..|run| - 1]);
      RunKeepsOneToken(cfg, run[..|run| - 1]);
      StepKeepsOneToken(cfg, s, e);
      StepDiscards(cfg, s, e);
    }
  }

  lemma StepDiscards(cfg: Config, s: State, e: Event)
    requires OneToken(s)
    requires s.closedByUser || s.discarded == []
    ensures Step(cfg, s, e).closedByUser || Step(cfg, s, e).discarded == []
  {
    match e
    case FetchDone =>
    case FetchFails(onError, onReconnecting) =>
      if s.fetches > 0 {
        HandlerDiscards(cfg, s.(fetches := s.fetches - 1), onError, onReconnecting);
      }
    case SocketOpens(i, onOpen) =>
      if i < |s.sockets| && s.sockets[i].Connecting? {
        OnlyLiveSocket(s, i);
        var s1 := s.(sockets := s.sockets[i := Open], isOpen := true, attempts := 0, notes := s.notes + [Opened]);
        DiscardsNothing(s1, onOpen);
        PerformFrame(s1, onOpen);
      }
    case SocketCloses(i, onClose, onReconnecting) =>
      if Live(s, i) {
        HandlerDiscards(cfg, s.(sockets := s.sockets[i := Closed], isOpen := false), onClose, onReconnecting);
      }
    case SocketFails(i, onError, onReconnecting, onClose, onReconnecting2) =>
      if Live(s, i) {
        var s1 := s.(sockets := s.sockets[i := Closed]);
        HandlerDiscards(cfg, s1, onError, onReconnecting);
        HandlerDiscards(cfg, OnError(cfg, s1, onError, onReconnecting).(isOpen := false), onClose, onReconnecting2);
      }
    case PeerCloses(i) =>
    case TimerFires =>
    case User(call) =>
      DiscardsNothing(s, [call]);
      PerformFrame(s, [call]);
  }

  lemma HandlerDiscards(cfg: Config, s: State, calls: seq<Call>, onReconnecting: seq<Call>)
    requires Owned(s) && (s.closedByUser || s.discarded == [])
    ensures var t := OnError(cfg, s, calls, onReconnecting); Owned(t) && (t.closedByUser || t.discarded == [])
  {
    var s1 := Perform(s, calls);
    PerformFrame(s, calls);
    DiscardsNothing(s, calls);
    ScheduleFrame(cfg, s1, onReconnecting);
    DiscardsNothing(s1.(notes := s1.notes + [Reconnecting(s1.attempts + 1)]), onReconnecting);
  }

  // ---------- Order on one socket ----------

  function Messages(calls: seq<Call>): seq<Msg> {
    if calls == [] then []
    else if calls[0].Send? then [calls[0].msg] + Messages(calls[1..])
    else Messages(calls[1..])
  }

  /** Calls made while the socket is open hand their messages over at once, in order. */
  lemma {:induction false} OpenCallsGoOut(s: State, calls: seq<Call>)
    requires s.isOpen && s.ws.Some? && Close !in calls
    ensures var t := Perform(s, calls);
            && t.wire == s.wire + Messages(calls) && t.handed == s.handed + Messages(calls)
            && t.pending == s.pending && t.isOpen && t.ws == s.ws
    decreases |calls|
  {
    if calls != [] {
      assert calls[0].Send?;
      OpenCallsGoOut(DoSend(s, calls[0].msg), calls[1..]);
      Associate(s.wire, [calls[0].msg], Messages(calls[1..]));
      Associate(s.handed, [calls[0].msg], Messages(calls[1..]));
    }
  }

  ghost predicate Silent(s: State) {
    forall i :: 0 <= i < |s.sockets| && s.sockets[i].Connecting? ==> s.wire == []
  }

  /** Without an open socket, calls put nothing on the wire; with one they only extend it. */
  lemma {:induction false} PerformWire(s: State, calls: seq<Call>)
    ensures s.wire <= Perform(s, calls).wire
    ensures !s.isOpen ==> Perform(s, calls).wire == s.wire
    decreases |calls|
  {
    if calls != [] {
      PerformWire(Called(s, calls[0]), calls[1..]);
    }
  }

  lemma HandlerWire(cfg: Config, s: State, calls: seq<Call>, onReconnecting: seq<Call>)
    requires Owned(s)
    ensures var t := OnError(cfg, s, calls, onReconnecting); Owned(t) && s.wire <= t.wire && (!s.isOpen ==> t.wire == s.wire)
  {
    PerformFrame(s, calls);
    PerformWire(s, calls);
    var s1 := Perform(s, calls);
    ScheduleFrame(cfg, s1, onReconnecting);
    PerformWire(s1.(notes := s1.notes + [Reconnecting(s1.attempts + 1)]), onReconnecting);
  }

  lemma CloseWire(cfg: Config, s: State, calls: seq<Call>, onReconnecting: seq<Call>)
    requires Owned(s)
    ensures OnClose(cfg, s, calls, onReconnecting).wire == s.wire
  {
    HandlerWire(cfg, s.(isOpen := false), calls, onReconnecting);
  }

  /** Each step either starts a new empty wire or extends the old one, and extends it only while open
      or on the opening step itself. */
  lemma StepWire(cfg: Config, s: State, e: Event)
    requires OneToken(s) && Silent(s)
    ensures Silent(Step(cfg, s, e))
    ensures var t := Step(cfg, s, e); (e.FetchDone? && s.fetches > 0 && t.wire == []) || s.wire <= t.wire
    ensures var t := Step(cfg, s, e); !s.isOpen && !e.SocketOpens? && !e.FetchDone? ==> t.wire == s.wire
  {
    StepKeepsOneToken(cfg, s, e);
    match e
    case FetchDone =>
    case FetchFails(onError, onReconnecting) =>
      if s.fetches > 0 {
        HandlerWire(cfg, s.(fetches := s.fetches - 1), onError, onReconnecting);
        NoNewConnecting(cfg, s, e);
      }
    case SocketOpens(i, onOpen) =>
      if i < |s.sockets| && s.sockets[i].Connecting? {
        OnlyLiveSocket(s, i);
        var s1 := s.(sockets := s.sockets[i := Open], isOpen := true, attempts := 0, notes := s.notes + [Opened]);
        PerformWire(s1, onOpen);
        NoNewConnecting(cfg, s, e);
        LiveAfterOpen(s, i, onOpen);
      }
    case SocketCloses(i, onClose, onReconnecting) =>
      if Live(s, i) {
        OnlyLiveSocket(s, i);
        CloseWire(cfg, s.(sockets := s.sockets[i := Closed]), onClose, onReconnecting);
        NoNewConnecting(cfg, s, e);
      }
    case SocketFails(i, onError, onReconnecting, onClose, onReconnecting2) =>
      if Live(s, i) {
        FailWire(cfg, s, e);
        NoNewConnecting(cfg, s, e);
      }
    case PeerCloses(i) =>
    case TimerFires =>
    case User(call) =>
      PerformFrame(s, [call]);
      PerformWire(s, [call]);
      NoNewConnecting(cfg, s, e);
  }

  lemma FailWire(cfg: Config, s: State, e: Event)
    requires OneToken(s) && e.SocketFails? && Live(s, e.i)
    ensures var t := Step(cfg, s, e); s.wire <= t.wire && (!s.isOpen ==> t.wire == s.wire)
  {
    var s1 := s.(sockets := s.sockets[e.i := Closed]);
    HandlerWire(cfg, s1, e.onError, e.onReconnecting);
    CloseWire(cfg, OnError(cfg, s1, e.onError, e.onReconnecting), e.onClose, e.onReconnecting2);
  }

  ghost predicate NoneConnects(before: seq<Socket>, after: seq<Socket>) {
    |after| == |before| && forall i :: 0 <= i < |before| && after[i].Connecting? ==> before[i].Connecting?
  }

  /** Calls turn no socket into a connecting one. */
  lemma {:induction false} PerformConnects(s: State, calls: seq<Call>)
    ensures NoneConnects(s.sockets, Perform(s, calls).sockets)
    decreases |calls|
  {
    if calls != [] {
      PerformConnects(Called(s, calls[0]), calls[1..]);
    }
  }

  lemma HandlerConnects(cfg: Config, s: State, calls: seq<Call>, onReconnecting: seq<Call>)
    ensures NoneConnects(s.sockets, OnError(cfg, s, calls, onReconnecting).sockets)
  {
    PerformConnects(s, calls);
    var s1 := Perform(s, calls);
    PerformConnects(s1.(notes := s1.notes + [Reconnecting(s1.attempts + 1)]), onReconnecting);
  }

  lemma FailConnects(cfg: Config, s: State, onError: seq<Call>, onReconnecting: seq<Call>, onClose: seq<Call>, onReconnecting2: seq<Call>)
    ensures NoneConnects(s.sockets, OnClose(cfg, OnError(cfg, s, onError, onReconnecting), onClose, onReconnecting2).sockets)
  {
    HandlerConnects(cfg, s, onError, onReconnecting);
    HandlerConnects(cfg, OnError(cfg, s, onError, onReconnecting).(isOpen := false), onClose, onReconnecting2);
  }

  lemma NoNewConnecting(cfg: Config, s: State, e: Event)
    requires !e.FetchDone?
    ensures NoneConnects(s.sockets, Step(cfg, s, e).sockets)
  {
    match e
    case FetchFails(onError, onReconnecting) =>
      if s.fetches > 0 {
        HandlerConnects(cfg, s.(fetches := s.fetches - 1), onError, onReconnecting);
      }
    case SocketOpens(i, onOpen) =>
      if i < |s.sockets| && s.sockets[i].Connecting? {
        PerformConnects(s.(sockets := s.sockets[i := Open], isOpen := true, attempts := 0, notes := s.notes + [Opened]), onOpen);
      }
    case SocketCloses(i, onClose, onReconnecting) =>
      if Live(s, i) {
        HandlerConnects(cfg, s.(sockets := s.sockets[i := Closed], isOpen := false), onClose, onReconnecting);
      }
    case SocketFails(i, onError, onReconnecting, onClose, onReconnecting2) =>
      if Live(s, i) {
        FailConnects(cfg, s.(sockets := s.sockets[i := Closed]), onError, onReconnecting, onClose, onReconnecting2);
      }
    case User(call) =>
      PerformConnects(s, [call]);
    case _ =>
  }

  lemma LiveAfterOpen(s: State, i: nat, onOpen: seq<Call>)
    requires OneToken(s) && i < |s.sockets| && s.sockets[i].Connecting?
    ensures var t := OnOpen(s.(sockets := s.sockets[i := Open]), onOpen);
            forall j :: 0 <= j < |t.sockets| ==> !t.sockets[j].Connecting?
  {
    OnlyLiveSocket(s, i);
    PerformConnects(s.(sockets := s.sockets[i := Open], isOpen := true, attempts := 0, notes := s.notes + [Opened]), onOpen);
  }

  lemma {:induction false} RunIsSilent(cfg: Config, run: seq<Event>)
    ensures Silent(Exec(cfg, run))
  {
    if run != [] {
      RunIsSilent(cfg, run[..|run| - 1]);
      RunKeepsOneToken(cfg, run[..|run| - 1]);
      StepWire(cfg, Exec(cfg, run[..|run| - 1]), run[|run| - 1]);
    }
  }

  /** When a socket opens it receives, in this order, exactly the messages its open listeners send and
      then the whole queue, which is left empty. */
  lemma OpenDrainsQueueInOrder(cfg: Config, run: seq<Event>, i: nat, onOpen: seq<Call>)
    requires i < |Exec(cfg, run).sockets| && Exec(cfg, run).sockets[i].Connecting? && Close !in onOpen
    ensures var s, t := Exec(cfg, run), Step(cfg, Exec(cfg, run), SocketOpens(i, onOpen));
            && t.isOpen && t.ws == Some(i)
            && t.wire == Messages(onOpen) + s.pending
            && t.handed == s.handed + Messages(onOpen) + s.pending
            && t.pending == []
  {
    RunKeepsOneToken(cfg, run);
    RunIsSilent(cfg, run);
    OpenDrains(Exec(cfg, run), i, onOpen);
  }

  lemma OpenDrains(s: State, i: nat, onOpen: seq<Call>)
    requires i < |s.sockets| && s.ws == Some(i) && s.wire == [] && Close !in onOpen
    ensures var t := OnOpen(s.(sockets := s.sockets[i := Open]), onOpen);
            && t.isOpen && t.ws == Some(i)
            && t.wire == Messages(onOpen) + s.pending
            && t.handed == s.handed + Messages(onOpen) + s.pending
            && t.pending == []
  {
    OpenCallsGoOut(s.(sockets := s.sockets[i := Open], isOpen := true, attempts := 0, notes := s.notes + [Opened]), onOpen);
  }

  ghost predicate OpensWith(run: seq<Event>, first: Msg) {
    forall k :: 0 <= k < |run| && run[k].SocketOpens? ==> run[k].onOpen != [] && run[k].onOpen[0] == Send(first)
  }

  /** If the open listeners always send `first` before anything else, then every socket in every run
      that receives anything receives `first` first, whatever is queued or sent around it. */
  lemma {:induction false} FirstOnEveryWire(cfg: Config, run: seq<Event>, first: Msg)
    requires OpensWith(run, first)
    ensures Exec(cfg, run).wire != [] ==> Exec(cfg, run).wire[0] == first
    ensures Exec(cfg, run).isOpen ==> Exec(cfg, run).wire != []
  {
    if run != [] {
      var front, e := run[..|run| - 1], run[|run| - 1];
      var s := Exec(cfg, front);
      FirstOnEveryWire(cfg, front, first);
      RunKeepsOneToken(cfg, front);
      RunIsSilent(cfg, front);
      StepWire(cfg, s, e);
      StepKeepsOneToken(cfg, s, e);
      OpenStaysOpen(cfg, s, e);
      if e.SocketOpens? && e.i < |s.sockets| && s.sockets[e.i].Connecting? {
        OnlyLiveSocket(s, e.i);
        var s1 := s.(sockets := s.sockets[e.i := Open], isOpen := true, attempts := 0, notes := s.notes + [Opened]);
        assert DoSend(s1, first).wire == [first];
        PerformWire(DoSend(s1, first), e.onOpen[1..]);
      }
    }
  }

  lemma FailCloses(cfg: Config, s: State, e: Event)
    requires OneToken(s) && e.SocketFails? && Live(s, e.i)
    ensures !Step(cfg, s, e).isOpen
  {
    OnlyLiveSocket(s, e.i);
    var s1 := s.(sockets := s.sockets[e.i := Closed]);
    PerformFrame(s1, e.onError);
    ScheduleFrame(cfg, Perform(s1, e.onError), e.onReconnecting);
    CloseKeepsOneToken(cfg, OnError(cfg, s1, e.onError, e.onReconnecting), e.onClose, e.onReconnecting2);
  }

  lemma OpenStaysOpen(cfg: Config, s: State, e: Event)
    requires OneToken(s)
    ensures Step(cfg, s, e).isOpen && !e.SocketOpens? ==> s.isOpen && !(e.FetchDone? && s.fetches > 0)
  {
    StepKeepsOneToken(cfg, s, e);
    match e
    case FetchDone =>
      if s.fetches > 0 {
        FetchKeepsOneToken(cfg, s, [], []);
      }
    case FetchFails(onError, onReconnecting) =>
      if s.fetches > 0 {
        PerformFrame(s.(fetches := s.fetches - 1), onError);
        ScheduleFrame(cfg, Perform(s.(fetches := s.fetches - 1), onError), onReconnecting);
      }
    case SocketCloses(i, onClose, onReconnecting) =>
      if Live(s, i) {
        OnlyLiveSocket(s, i);
        CloseKeepsOneToken(cfg, s.(sockets := s.sockets[i := Closed]), onClose, onReconnecting);
      }
    case SocketFails(i, onError, onReconnecting, onClose, onReconnecting2) =>
      if Live(s, i) {
        FailCloses(cfg, s, e);
      }
    case User(call) =>
      PerformFrame(s, [call]);
    case _ =>
  }
}
