/** The order in which messages are handed over, across all sockets of a run, for any kind of messages. */
module SendingOrder {
  import opened Wrappers
  import opened Connection
  import opened Sequences
  import opened Delivery
  import opened Sorting

  /** The messages of the kind `p` among `out` are some of those sent, in the order of sending. */
  ghost predicate Kept(out: seq<Msg>, sent: seq<Msg>, p: Msg -> bool) {
    IsSubsequence(Filter(out, p), Filter(sent, p))
  }

  lemma KeptGrows(out: seq<Msg>, sent: seq<Msg>, more: seq<Msg>, p: Msg -> bool)
    requires Kept(out, sent, p)
    ensures Kept(out + more, sent + more, p)
  {
    FilterAppends(out, more, p);
    FilterAppends(sent, more, p);
    SubsequenceAppends(Filter(out, p), Filter(sent, p), Filter(more, p));
  }

  lemma KeptShrinks(a: seq<Msg>, x: seq<Msg>, b: seq<Msg>, sent: seq<Msg>, p: Msg -> bool)
    requires Kept(a + x + b, sent, p)
    ensures Kept(a + b, sent, p)
  {
    FilterAppends(a + x, b, p);
    FilterAppends(a, x, p);
    FilterAppends(a, b, p);
    SubsequenceDrops(Filter(a, p), Filter(x, p), Filter(b, p), Filter(sent, p));
  }

  // ---------- Calls ----------

  /** What was handed over and then the queue is in order, and nothing is queued while the client is open. */
  ghost predicate Ordered(s: State, p: Msg -> bool) {
    Kept(s.handed + s.pending, s.sent, p) && (s.isOpen && s.ws.Some? ==> s.pending == [])
  }

  lemma SendKeepsOrder(s: State, m: Msg, p: Msg -> bool)
    requires Ordered(s, p)
    ensures Ordered(DoSend(s, m), p)
  {
    KeptGrows(s.handed + s.pending, s.sent, [m], p);
    var q := s.pending + [m];
    if s.isOpen && s.ws.Some? {
      assert s.handed + s.pending + [m] == s.handed + [m] + [];
    } else {
      Associate(s.handed, s.pending, [m]);
      assert s.handed + q == s.handed + q[..1] + q[1..];
      KeptShrinks(s.handed, q[..1], q[1..], s.sent + [m], p);
    }
  }

  lemma CloseKeepsOrder(s: State, p: Msg -> bool)
    requires Ordered(s, p)
    ensures Ordered(DoClose(s), p)
  {
    assert s.handed + s.pending == s.handed + s.pending + [];
    KeptShrinks(s.handed, s.pending, [], s.sent, p);
  }

  lemma {:induction false} PerformKeepsOrder(s: State, calls: seq<Call>, p: Msg -> bool)
    requires Ordered(s, p)
    ensures Ordered(Perform(s, calls), p)
    decreases |calls|
  {
    if calls != [] {
      if calls[0].Send? {
        SendKeepsOrder(s, calls[0].msg, p);
      } else {
        CloseKeepsOrder(s, p);
      }
      PerformKeepsOrder(Called(s, calls[0]), calls[1..], p);
    }
  }

  /** Every call of send() counts as sent. */
  lemma {:induction false} PerformSends(s: State, calls: seq<Call>)
    ensures Perform(s, calls).sent == s.sent + Messages(calls)
    decreases |calls|
  {
    if calls == [] {
      assert s.sent + [] == s.sent;
    } else {
      PerformSends(Called(s, calls[0]), calls[1..]);
      if calls[0].Send? {
        Associate(s.sent, [calls[0].msg], Messages(calls[1..]));
      }
    }
  }

  lemma HandlerKeepsOrder(cfg: Config, s: State, calls: seq<Call>, onReconnecting: seq<Call>, p: Msg -> bool)
    requires Ordered(s, p)
    ensures Ordered(OnError(cfg, s, calls, onReconnecting), p)
  {
    PerformKeepsOrder(s, calls, p);
    var s1 := Perform(s, calls);
    PerformKeepsOrder(s1.(notes := s1.notes + [Reconnecting(s1.attempts + 1)]), onReconnecting, p);
  }

  // ---------- Opens ----------

  /** A socket opens, and open listeners send messages of the kind while others are queued that stay so. */
  predicate Overtakes(s: State, e: Event, p: Msg -> bool) {
    && e.SocketOpens? && e.i < |s.sockets| && s.sockets[e.i].Connecting? && Close !in e.onOpen
    && Filter(s.pending, p) != [] && Filter(Messages(e.onOpen), p) != []
  }

  lemma {:induction false} ShutStaysShut(s: State, calls: seq<Call>)
    requires !s.isOpen
    ensures !Perform(s, calls).isOpen
    decreases |calls|
  {
    if calls != [] {
      ShutStaysShut(Called(s, calls[0]), calls[1..]);
    }
  }

  /** Open listeners of whom one closes the connection lose the queue, but no order. */
  lemma {:induction false} ClosingCallsKeepOrder(s: State, calls: seq<Call>, p: Msg -> bool)
    requires s.isOpen && s.ws.Some? && Close in calls && Kept(s.handed, s.sent, p)
    ensures Ordered(Perform(s, calls), p) && !Perform(s, calls).isOpen
    decreases |calls|
  {
    if calls[0].Send? {
      KeptGrows(s.handed, s.sent, [calls[0].msg], p);
      ClosingCallsKeepOrder(DoSend(s, calls[0].msg), calls[1..], p);
    } else {
      assert s.handed + [] == s.handed;
      PerformKeepsOrder(DoClose(s), calls[1..], p);
      ShutStaysShut(DoClose(s), calls[1..]);
    }
  }

  lemma FilterParts(a: seq<Msg>, b: seq<Msg>, c: seq<Msg>, p: Msg -> bool)
    ensures Filter(a + b + c, p) == Filter(a, p) + Filter(b, p) + Filter(c, p)
  {
    FilterAppends(a + b, c, p);
    FilterAppends(a, b, p);
  }

  lemma SwapWithNothing<T>(a: seq<T>, b: seq<T>, c: seq<T>)
    requires b == [] || c == []
    ensures a + b + c == a + c + b
  {
  }

  /** Of two parts that change places one holds nothing of the kind. */
  lemma {:induction false} FlushKeepsOrder(handed: seq<Msg>, pending: seq<Msg>, calls: seq<Msg>, sent: seq<Msg>, p: Msg -> bool)
    requires Kept(handed + pending, sent, p) && (Filter(pending, p) == [] || Filter(calls, p) == [])
    ensures Kept(handed + calls + pending, sent + calls, p)
  {
    KeptGrows(handed + pending, sent, calls, p);
    FilterParts(handed, pending, calls, p);
    FilterParts(handed, calls, pending, p);
    SwapWithNothing(Filter(handed, p), Filter(pending, p), Filter(calls, p));
  }

  lemma OpenKeepsOrder(s: State, i: nat, onOpen: seq<Call>, p: Msg -> bool)
    requires Ordered(s, p) && s.ws.Some? && (Close in onOpen || Filter(s.pending, p) == [] || Filter(Messages(onOpen), p) == [])
    ensures i < |s.sockets| ==> Ordered(OnOpen(s.(sockets := s.sockets[i := Open]), onOpen), p)
  {
    if i < |s.sockets| {
      var s1 := s.(sockets := s.sockets[i := Open], isOpen := true, attempts := 0, notes := s.notes + [Opened]);
      if Close in onOpen {
        assert s.handed + s.pending == s.handed + s.pending + [] && s.handed + [] == s.handed;
        KeptShrinks(s.handed, s.pending, [], s.sent, p);
        ClosingCallsKeepOrder(s1, onOpen, p);
      } else {
        OpenCallsGoOut(s1, onOpen);
        PerformSends(s1, onOpen);
        FlushKeepsOrder(s.handed, s.pending, Messages(onOpen), s.sent, p);
        var all := s.handed + Messages(onOpen) + s.pending;
        assert all + [] == all;
      }
    }
  }

  lemma OpenSends(s: State, i: nat, onOpen: seq<Call>)
    ensures i < |s.sockets| ==> OnOpen(s.(sockets := s.sockets[i := Open]), onOpen).sent == s.sent + Messages(onOpen)
  {
    if i < |s.sockets| {
      PerformSends(s.(sockets := s.sockets[i := Open], isOpen := true, attempts := 0, notes := s.notes + [Opened]), onOpen);
    }
  }

  // ---------- Runs ----------

  lemma FailKeepsOrder(cfg: Config, s: State, e: Event, p: Msg -> bool)
    requires Ordered(s, p) && e.SocketFails? && Live(s, e.i)
    ensures Ordered(Step(cfg, s, e), p)
  {
    var s1 := s.(sockets := s.sockets[e.i := Closed]);
    HandlerKeepsOrder(cfg, s1, e.onError, e.onReconnecting, p);
    HandlerKeepsOrder(cfg, OnError(cfg, s1, e.onError, e.onReconnecting).(isOpen := false), e.onClose, e.onReconnecting2, p);
  }

  lemma StepKeepsOrder(cfg: Config, s: State, e: Event, p: Msg -> bool)
    requires OneToken(s) && Ordered(s, p) && !Overtakes(s, e, p)
    ensures Ordered(Step(cfg, s, e), p)
  {
    match e
    case FetchDone =>
      if s.fetches > 0 {
        FetchKeepsOneToken(cfg, s, [], []);
      }
    case FetchFails(onError, onReconnecting) =>
      if s.fetches > 0 {
        HandlerKeepsOrder(cfg, s.(fetches := s.fetches - 1), onError, onReconnecting, p);
      }
    case SocketOpens(i, onOpen) =>
      if i < |s.sockets| && s.sockets[i].Connecting? {
        OpenKeepsOrder(s, i, onOpen, p);
      }
    case SocketCloses(i, onClose, onReconnecting) =>
      if Live(s, i) {
        HandlerKeepsOrder(cfg, s.(sockets := s.sockets[i := Closed], isOpen := false), onClose, onReconnecting, p);
      }
    case SocketFails(_, _, _, _, _) =>
      if Live(s, e.i) {
        FailKeepsOrder(cfg, s, e, p);
      }
    case User(call) =>
      PerformKeepsOrder(s, [call], p);
    case _ =>
  }

  lemma HandlerSends(cfg: Config, s: State, calls: seq<Call>, onReconnecting: seq<Call>)
    ensures s.sent <= OnError(cfg, s, calls, onReconnecting).sent
  {
    PerformSends(s, calls);
    var s1 := Perform(s, calls);
    PerformSends(s1.(notes := s1.notes + [Reconnecting(s1.attempts + 1)]), onReconnecting);
  }

  lemma StepSends(cfg: Config, s: State, e: Event)
    ensures s.sent <= Step(cfg, s, e).sent
  {
    match e
    case FetchFails(onError, onReconnecting) =>
      if s.fetches > 0 {
        HandlerSends(cfg, s.(fetches := s.fetches - 1), onError, onReconnecting);
      }
    case SocketOpens(i, onOpen) =>
      OpenSends(s, i, onOpen);
    case SocketCloses(i, onClose, onReconnecting) =>
      if Live(s, i) {
        HandlerSends(cfg, s.(sockets := s.sockets[i := Closed], isOpen := false), onClose, onReconnecting);
      }
    case SocketFails(i, onError, onReconnecting, onClose, onReconnecting2) =>
      if Live(s, i) {
        var s1 := s.(sockets := s.sockets[i := Closed]);
        HandlerSends(cfg, s1, onError, onReconnecting);
        HandlerSends(cfg, OnError(cfg, s1, onError, onReconnecting).(isOpen := false), onClose, onReconnecting2);
      }
    case User(call) =>
      PerformSends(s, [call]);
    case _ =>
  }

  ghost predicate NeverOvertakes(cfg: Config, run: seq<Event>, p: Msg -> bool) {
    run != [] ==> NeverOvertakes(cfg, run[..|run| - 1], p) && !Overtakes(Exec(cfg, run[..|run| - 1]), run[|run| - 1], p)
  }

  lemma {:induction false} RunKeepsOrder(cfg: Config, run: seq<Event>, p: Msg -> bool)
    requires NeverOvertakes(cfg, run, p)
    ensures Ordered(Exec(cfg, run), p)
  {
    if run != [] {
      RunKeepsOrder(cfg, run[..|run| - 1], p);
      RunKeepsOneToken(cfg, run[..|run| - 1]);
      StepKeepsOrder(cfg, Exec(cfg, run[..|run| - 1]), run[|run| - 1], p);
    }
  }

  ghost predicate SendsNone(calls: seq<Call>, p: Msg -> bool) {
    forall m :: Send(m) in calls ==> !p(m)
  }

  ghost predicate OpensSendNone(run: seq<Event>, p: Msg -> bool) {
    forall e :: e in run && e.SocketOpens? ==> SendsNone(e.onOpen, p)
  }

  /** In every run, over all its sockets: messages of a kind that open listeners do not send are handed
      over and queued in the order of sending, whatever other messages overtake them. */
  lemma UnsentOnOpenKeepsOrder(cfg: Config, run: seq<Event>, p: Msg -> bool)
    requires OpensSendNone(run, p)
    ensures var s := Exec(cfg, run);
            && IsSubsequence(Filter(s.handed, p) + Filter(s.pending, p), Filter(s.sent, p))
            && (s.isOpen ==> s.pending == [])
  {
    SilentNeverOvertakes(cfg, run, p);
    RunKeepsOrder(cfg, run, p);
    RunKeepsOneToken(cfg, run);
    FilterAppends(Exec(cfg, run).handed, Exec(cfg, run).pending, p);
  }

  lemma {:induction false} SilentNeverOvertakes(cfg: Config, run: seq<Event>, p: Msg -> bool)
    requires OpensSendNone(run, p)
    ensures NeverOvertakes(cfg, run, p)
  {
    if run != [] {
      var e := run[|run| - 1];
      assert e in run;
      SilentNeverOvertakes(cfg, run[..|run| - 1], p);
      if e.SocketOpens? {
        SilentMessages(e.onOpen, p);
      }
    }
  }

  lemma {:induction false} SilentMessages(calls: seq<Call>, p: Msg -> bool)
    requires SendsNone(calls, p)
    ensures Filter(Messages(calls), p) == []
  {
    if calls != [] {
      SilentMessages(calls[1..], p);
      if calls[0].Send? {
        assert calls[0] == Send(calls[0].msg);
        assert ([calls[0].msg] + Messages(calls[1..]))[1..] == Messages(calls[1..]);
      }
    }
  }

  // ---------- The exact condition ----------

  ghost predicate OrderThroughout(cfg: Config, run: seq<Event>, p: Msg -> bool) {
    && Kept(Exec(cfg, run).handed + Exec(cfg, run).pending, Exec(cfg, run).sent, p)
    && (run != [] ==> OrderThroughout(cfg, run[..|run| - 1], p))
  }

  /** What comes before `q` in a sequence of distinct elements cannot come after it in a part of that. */
  lemma SwapBreaks<T>(h: seq<T>, q: seq<T>, c: seq<T>, sent: seq<T>)
    requires q != [] && c != [] && Distinct(sent + c) && IsSubsequence(h + q, sent)
    ensures !IsSubsequence(h + c + q, sent + c)
  {
    if IsSubsequence(h + c + q, sent + c) {
      assert (h + q)[|h|] == q[0] && (h + c + q)[|h|] == c[0] && (h + c + q)[|h| + |c|] == q[0];
      var _, k := SubsequencePositions(h + q, sent, |h|, |h|);
      assert (sent + c)[k] == q[0] && (sent + c)[|sent|] == c[0];
      var i, j := SubsequencePositions(h + c + q, sent + c, |h|, |h| + |c|);
      assert false;
    }
  }

  lemma {:induction false} OvertakingBreaks(cfg: Config, s: State, e: Event, p: Msg -> bool)
    requires OneToken(s) && Ordered(s, p) && Overtakes(s, e, p)
    requires Distinct(Filter(Step(cfg, s, e).sent, p))
    ensures var t := Step(cfg, s, e); !Kept(t.handed + t.pending, t.sent, p)
  {
    var s1 := s.(sockets := s.sockets[e.i := Open], isOpen := true, attempts := 0, notes := s.notes + [Opened]);
    var t := Step(cfg, s, e);
    OpenCallsGoOut(s1, e.onOpen);
    PerformSends(s1, e.onOpen);
    assert t.handed + t.pending == s.handed + Messages(e.onOpen) + s.pending;
    FilterAppends(s.handed, s.pending, p);
    FilterParts(s.handed, Messages(e.onOpen), s.pending, p);
    FilterAppends(s.sent, Messages(e.onOpen), p);
    SwapBreaks(Filter(s.handed, p), Filter(s.pending, p), Filter(Messages(e.onOpen), p), Filter(s.sent, p));
  }

  lemma DistinctBefore(sent: seq<Msg>, later: seq<Msg>, p: Msg -> bool)
    requires sent <= later && Distinct(Filter(later, p))
    ensures Distinct(Filter(sent, p))
  {
    assert later == sent + later[|sent|..];
    FilterAppends(sent, later[|sent|..], p);
    forall i, j | 0 <= i < j < |Filter(sent, p)|
      ensures Filter(sent, p)[i] != Filter(sent, p)[j]
    {
      assert Filter(later, p)[i] == Filter(sent, p)[i] && Filter(later, p)[j] == Filter(sent, p)[j];
    }
  }

  /** In every run that sends distinct messages of the kind, they are handed over and queued in the order
      of sending all along if and only if open listeners never send any while others are queued. */
  lemma {:induction false} OrderIsKeptExactlyWhen(cfg: Config, run: seq<Event>, p: Msg -> bool)
    requires Distinct(Filter(Exec(cfg, run).sent, p))
    ensures OrderThroughout(cfg, run, p) <==> NeverOvertakes(cfg, run, p)
  {
    if NeverOvertakes(cfg, run, p) {
      RunKeepsOrder(cfg, run, p);
    }
    if run != [] {
      var front, e := run[..|run| - 1], run[|run| - 1];
      var s := Exec(cfg, front);
      StepSends(cfg, s, e);
      DistinctBefore(s.sent, Exec(cfg, run).sent, p);
      OrderIsKeptExactlyWhen(cfg, front, p);
      if NeverOvertakes(cfg, front, p) && Overtakes(s, e, p) {
        RunKeepsOrder(cfg, front, p);
        RunKeepsOneToken(cfg, front);
        OvertakingBreaks(cfg, s, e, p);
      }
    }
  }

  /** A message queued before the first open is overtaken by the one an open listener sends. */
  lemma OpenListenerOvertakes(cfg: Config, a: Msg, b: Msg)
    requires cfg.hasWebSocket
    ensures var s := Exec(cfg, [User(Send(a)), FetchDone, SocketOpens(0, [Send(b)])]);
            s.sent == [a, b] && s.handed == [b, a]
  {
    var r1, r2, r3 := [User(Send(a))], [User(Send(a)), FetchDone], [User(Send(a)), FetchDone, SocketOpens(0, [Send(b)])];
    assert r1[..0] == [] && r2[..1] == r1 && r3[..2] == r2;
    var first: seq<Call>, second: seq<Call> := [Send(a)], [Send(b)];
    assert first[1..] == [] && second[1..] == [] && Exec(cfg, []) == Init(cfg);
    assert Perform(Init(cfg), first) == DoSend(Init(cfg), a);
    assert Exec(cfg, r1) == DoSend(Init(cfg), a);
    var s := Attach(DoSend(Init(cfg), a));
    assert Exec(cfg, r2) == s;
    var s1 := s.(sockets := s.sockets[0 := Open], isOpen := true, attempts := 0, notes := s.notes + [Opened]);
    assert Perform(s1, second) == DoSend(s1, b);
  }
}
