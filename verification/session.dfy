/** The build session on top of the connection: the listeners connect() registers, and what they make
    of every socket that opens, also after the session has let go of the connection. */
module Session {
  import opened Wrappers
  import opened Connection
  import opened Emitter
  import opened Sequences
  import Delivery
  import SendingOrder
  import Sorting

  datatype WsEvent = WsMessage | WsOpen | WsClose | OtherEvent(name: string)

  /** `credentials` is the serialized session_init message, when there are credentials to send. */
  datatype Options = Options(credentials: Option<Msg>, requestState: bool, stateRequest: Msg)

  // The session's own callbacks; user callbacks have other identities.
  const APPLY_MESSAGE: Listener := 0
  const MARK_CONNECTED: Listener := 1
  const MARK_DISCONNECTED: Listener := 2
  const SEND_INIT: Listener := 3

  class BuildSession {
    var connection: TypedEmitter?<WsEvent>

    constructor ()
      ensures connection == null
    {
      connection := null;
    }

    /** connect(): a second call returns the existing connection untouched. */
    method Connect() returns (emitter: TypedEmitter<WsEvent>)
      modifies `connection
      ensures connection == emitter
      ensures old(connection) != null ==> emitter == old(connection)
      ensures old(connection) == null ==> fresh(emitter) && emitter.Valid() && emitter.anyListeners == []
      ensures old(connection) == null ==> emitter.For(WsOpen) == [MARK_CONNECTED, SEND_INIT]
      ensures old(connection) == null ==> emitter.For(WsMessage) == [APPLY_MESSAGE] && emitter.For(WsClose) == [MARK_DISCONNECTED]
    {
      if connection != null {
        emitter := connection;
        return;
      }
      emitter := new TypedEmitter();
      connection := emitter;
      emitter.On(WsMessage, APPLY_MESSAGE);
      emitter.On(WsOpen, MARK_CONNECTED);
      emitter.On(WsClose, MARK_DISCONNECTED);
      emitter.On(WsOpen, SEND_INIT);
    }

    /** close(): the connection is closed and forgotten; `closed` is the one that close() was called on. */
    method Close() returns (closed: TypedEmitter?<WsEvent>)
      modifies `connection
      ensures connection == null && closed == old(connection)
    {
      closed := connection;
      connection := null;
    }

    /** The init listener registered with `emitter`: it sends through the connection the session holds
        by then, so `emitter` gets its messages only while it is that one. */
    method RunInitListener(emitter: TypedEmitter<WsEvent>, o: Options) returns (calls: seq<Call>)
      ensures calls == InitCalls(o, connection == emitter)
    {
      calls := [];
      if o.credentials.Some? && connection == emitter {
        calls := calls + [Send(o.credentials.value)];
      }
      if o.requestState && connection == emitter {
        calls := calls + [Send(o.stateRequest)];
      }
    }
  }

  function InitCalls(o: Options, attached: bool): seq<Call> {
    if !attached then []
    else (if o.credentials.Some? then [Send(o.credentials.value)] else []) + (if o.requestState then [Send(o.stateRequest)] else [])
  }

  /** What user code does from a listener: calls on this connection, or close() on the session. */
  datatype UserCall = Direct(call: Call) | CloseSession

  type UserCode = Listener -> seq<UserCall>

  /** The calls that reach this connection; the session's close() reaches it while attached. */
  function Reaching(user: seq<UserCall>, attached: bool): seq<Call> {
    if user == [] then []
    else match user[0]
      case Direct(call) => [call] + Reaching(user[1..], attached)
      case CloseSession => (if attached then [Connection.Close] else []) + Reaching(user[1..], false)
  }

  predicate StaysAttached(user: seq<UserCall>, attached: bool) {
    attached && CloseSession !in user
  }

  /** What one listener does when a socket opens: the session's own two, or user code. `onState` is what
      the session state's change listeners do when it turns to connected. */
  function CodeOf(l: Listener, onState: seq<UserCall>, user: UserCode): seq<UserCall> {
    if l == MARK_CONNECTED then onState else user(l)
  }

  /** All calls on this connection while `ws:open` is delivered to the given listeners in turn. */
  function OpenCalls(delivered: seq<Listener>, attached: bool, o: Options, onState: seq<UserCall>, user: UserCode): seq<Call> {
    if delivered == [] then []
    else if delivered[0] == SEND_INIT then InitCalls(o, attached) + OpenCalls(delivered[1..], attached, o, onState, user)
    else
      var code := CodeOf(delivered[0], onState, user);
      Reaching(code, attached) + OpenCalls(delivered[1..], StaysAttached(code, attached), o, onState, user)
  }

  predicate AttachedAfter(delivered: seq<Listener>, attached: bool, onState: seq<UserCall>, user: UserCode) {
    if delivered == [] then attached
    else if delivered[0] == SEND_INIT then AttachedAfter(delivered[1..], attached, onState, user)
    else AttachedAfter(delivered[1..], StaysAttached(CodeOf(delivered[0], onState, user), attached), onState, user)
  }

  lemma {:induction false} OpenCallsAppend(a: seq<Listener>, b: seq<Listener>, attached: bool, o: Options, onState: seq<UserCall>, user: UserCode)
    ensures OpenCalls(a + b, attached, o, onState, user)
         == OpenCalls(a, attached, o, onState, user) + OpenCalls(b, AttachedAfter(a, attached, onState, user), o, onState, user)
    decreases |a|
  {
    if a == [] {
      assert a + b == b;
    } else {
      assert (a + b)[1..] == a[1..] + b && (a + b)[0] == a[0];
      var first := if a[0] == SEND_INIT then InitCalls(o, attached) else Reaching(CodeOf(a[0], onState, user), attached);
      var rest := if a[0] == SEND_INIT then attached else StaysAttached(CodeOf(a[0], onState, user), attached);
      OpenCallsAppend(a[1..], b, rest, o, onState, user);
      Associate(first, OpenCalls(a[1..], rest, o, onState, user), OpenCalls(b, AttachedAfter(a[1..], rest, onState, user), o, onState, user));
    }
  }

  lemma {:induction false} ClosingReaches(user: seq<UserCall>)
    requires CloseSession in user
    ensures Connection.Close in Reaching(user, true)
  {
    if user[0] != CloseSession {
      assert CloseSession in user[1..];
      ClosingReaches(user[1..]);
    }
  }

  /** Listeners that close nothing leave the session attached, if it was. */
  lemma {:induction false} UnclosedStaysAttached(delivered: seq<Listener>, attached: bool, o: Options, onState: seq<UserCall>, user: UserCode)
    requires Connection.Close !in OpenCalls(delivered, attached, o, onState, user)
    ensures AttachedAfter(delivered, attached, onState, user) == attached
    decreases |delivered|
  {
    if delivered != [] {
      if delivered[0] == SEND_INIT {
        UnclosedStaysAttached(delivered[1..], attached, o, onState, user);
      } else {
        var code := CodeOf(delivered[0], onState, user);
        if attached && CloseSession in code {
          ClosingReaches(code);
        }
        UnclosedStaysAttached(delivered[1..], attached, o, onState, user);
      }
    }
  }

  /** What reaches the connection before the session's init listener runs, and after it. */
  function Before(any: seq<Listener>, attached: bool, o: Options, onState: seq<UserCall>, user: UserCode): seq<Call> {
    OpenCalls(any + [MARK_CONNECTED], attached, o, onState, user)
  }

  function After(own: seq<Listener>, attached: bool, o: Options, onState: seq<UserCall>, user: UserCode): seq<Call>
    requires |own| >= 2
  {
    OpenCalls(own[2..], attached, o, onState, user)
  }

  /** With the session's listeners first among those for `ws:open`, the calls made on open are those of
      the listeners for all events and of state listeners, then the session's, then the user's. */
  lemma OpenCallsInOrder(any: seq<Listener>, own: seq<Listener>, attached: bool, o: Options, onState: seq<UserCall>, user: UserCode)
    requires [MARK_CONNECTED, SEND_INIT] <= own
    ensures var still := AttachedAfter(any + [MARK_CONNECTED], attached, onState, user);
            OpenCalls(any + own, attached, o, onState, user) ==
            Before(any, attached, o, onState, user) + (InitCalls(o, still) + After(own, still, o, onState, user))
  {
    var first := any + [MARK_CONNECTED];
    assert any + own == first + own[1..];
    OpenCallsAppend(first, own[1..], attached, o, onState, user);
    assert own[1..][0] == SEND_INIT && own[1..][1..] == own[2..];
  }

  lemma {:induction false} MessagesAppend(a: seq<Call>, b: seq<Call>)
    ensures Delivery.Messages(a + b) == Delivery.Messages(a) + Delivery.Messages(b)
  {
    if a == [] {
      assert a + b == b;
    } else {
      MessagesAppend(a[1..], b);
      assert (a + b)[1..] == a[1..] + b && (a + b)[0] == a[0];
    }
  }

  lemma InitMessages(o: Options, attached: bool)
    requires o.credentials.Some?
    ensures Delivery.Messages(InitCalls(o, attached))
         == if attached then [o.credentials.value] + (if o.requestState then [o.stateRequest] else []) else []
  {
    if attached {
      var init, ask := [Send(o.credentials.value)], if o.requestState then [Send(o.stateRequest)] else [];
      MessagesAppend(init, ask);
      assert init[1..] == [] && (o.requestState ==> ask[1..] == []);
    }
  }

  /** The session holds the connection through an open unless a listener closes it. */
  lemma {:induction false} StaysAttachedExactlyWhen(delivered: seq<Listener>, attached: bool, onState: seq<UserCall>, user: UserCode)
    ensures AttachedAfter(delivered, attached, onState, user) <==>
              && attached
              && (MARK_CONNECTED in delivered ==> CloseSession !in onState)
              && forall l :: l in delivered && l != MARK_CONNECTED && l != SEND_INIT ==> CloseSession !in user(l)
  {
    if delivered != [] {
      var l := delivered[0];
      assert delivered == [l] + delivered[1..];
      if l == SEND_INIT {
        StaysAttachedExactlyWhen(delivered[1..], attached, onState, user);
      } else {
        StaysAttachedExactlyWhen(delivered[1..], StaysAttached(CodeOf(l, onState, user), attached), onState, user);
      }
    }
  }

  /** The messages some user code sends, whatever else it calls. */
  function Said(code: seq<UserCall>): seq<Msg> {
    if code == [] then []
    else if code[0].Direct? && code[0].call.Send? then [code[0].call.msg] + Said(code[1..])
    else Said(code[1..])
  }

  function SaidBy(listeners: seq<Listener>, user: UserCode): seq<Msg> {
    if listeners == [] then [] else Said(user(listeners[0])) + SaidBy(listeners[1..], user)
  }

  lemma {:induction false} ReachingSays(code: seq<UserCall>, attached: bool)
    ensures Delivery.Messages(Reaching(code, attached)) == Said(code)
  {
    if code != [] {
      match code[0]
      case Direct(call) =>
        ReachingSays(code[1..], attached);
        assert ([call] + Reaching(code[1..], attached))[1..] == Reaching(code[1..], attached);
      case CloseSession =>
        ReachingSays(code[1..], false);
        var first: seq<Call> := if attached then [Connection.Close] else [];
        MessagesAppend(first, Reaching(code[1..], false));
        assert first != [] ==> first[1..] == [];
    }
  }

  lemma {:induction false} OpenCallsSay(delivered: seq<Listener>, attached: bool, o: Options, onState: seq<UserCall>, user: UserCode)
    requires MARK_CONNECTED !in delivered && SEND_INIT !in delivered
    ensures Delivery.Messages(OpenCalls(delivered, attached, o, onState, user)) == SaidBy(delivered, user)
  {
    if delivered != [] {
      var code := user(delivered[0]);
      var next := StaysAttached(code, attached);
      ReachingSays(code, attached);
      OpenCallsSay(delivered[1..], next, o, onState, user);
      MessagesAppend(Reaching(code, attached), OpenCalls(delivered[1..], next, o, onState, user));
    }
  }

  /** What goes out before the session's own messages is all that listeners for all events send, and then all
      that listeners of the state do; what goes out after them is all that later listeners send. */
  lemma UserMessagesGoOut(any: seq<Listener>, own: seq<Listener>, attached: bool, o: Options, onState: seq<UserCall>, user: UserCode)
    requires MARK_CONNECTED !in any && SEND_INIT !in any
    requires |own| >= 2 && MARK_CONNECTED !in own[2..] && SEND_INIT !in own[2..]
    ensures Delivery.Messages(Before(any, attached, o, onState, user)) == SaidBy(any, user) + Said(onState)
    ensures Delivery.Messages(After(own, attached, o, onState, user)) == SaidBy(own[2..], user)
  {
    var held := AttachedAfter(any, attached, onState, user);
    OpenCallsAppend(any, [MARK_CONNECTED], attached, o, onState, user);
    OpenCallsSay(any, attached, o, onState, user);
    MessagesAppend(OpenCalls(any, attached, o, onState, user), OpenCalls([MARK_CONNECTED], held, o, onState, user));
    ReachingSays(onState, held);
    assert [MARK_CONNECTED][1..] == [] && OpenCalls([MARK_CONNECTED], held, o, onState, user) == Reaching(onState, held) + [];
    assert Reaching(onState, held) + [] == Reaching(onState, held);
    OpenCallsSay(own[2..], attached, o, onState, user);
  }

  // ---------- Sessions over runs ----------

  /** The connection's events so far, and whether the session still holds the connection. */
  datatype SessionState = SessionState(attached: bool, run: seq<Event>)

  /** `Happens` is any event but an open, with `closes` telling whether a listener closed the session. */
  datatype SessionEvent =
    | Opens(i: nat, any: seq<Listener>, own: seq<Listener>, onState: seq<UserCall>)
    | Happens(event: Event, closes: bool)
    | Leaves

  function SessionStep(s: SessionState, e: SessionEvent, o: Options, user: UserCode): SessionState {
    match e
    case Opens(i, any, own, onState) =>
      SessionState(AttachedAfter(any + own, s.attached, onState, user),
                   s.run + [SocketOpens(i, OpenCalls(any + own, s.attached, o, onState, user))])
    case Happens(event, closes) =>
      if event.SocketOpens? then s else SessionState(s.attached && !closes, s.run + [event])
    case Leaves =>
      SessionState(false, if s.attached then s.run + [User(Connection.Close)] else s.run)
  }

  function SessionExec(run: seq<SessionEvent>, o: Options, user: UserCode): SessionState {
    if run == [] then SessionState(true, [])
    else SessionStep(SessionExec(run[..|run| - 1], o, user), run[|run| - 1], o, user)
  }

  /** A session lets go of its connection when it is closed, at top level or by a listener of another event than
      an open, and what it closes first is the connection. */
  lemma ClosingLetsGo(run: seq<SessionEvent>, event: Event, o: Options, user: UserCode)
    requires !event.SocketOpens?
    ensures SessionExec(run + [Happens(event, true)], o, user) == SessionState(false, SessionExec(run, o, user).run + [event])
    ensures SessionExec(run + [Happens(event, false)], o, user) == SessionState(SessionExec(run, o, user).attached, SessionExec(run, o, user).run + [event])
    ensures var s := SessionExec(run, o, user);
            SessionExec(run + [Leaves], o, user) == SessionState(false, if s.attached then s.run + [User(Connection.Close)] else s.run)
  {
    assert (run + [Happens(event, true)])[..|run|] == run && (run + [Happens(event, false)])[..|run|] == run;
    assert (run + [Leaves])[..|run|] == run;
  }

  function ConnectionOf(cfg: Config, run: seq<SessionEvent>, o: Options, user: UserCode): State {
    Exec(cfg, SessionExec(run, o, user).run)
  }

  lemma OpenReceives(cfg: Config, run: seq<Event>, i: nat, calls: seq<Call>)
    requires i < |Exec(cfg, run).sockets| && Exec(cfg, run).sockets[i].Connecting? && Connection.Close !in calls
    ensures Exec(cfg, run + [SocketOpens(i, calls)]).wire == Delivery.Messages(calls) + Exec(cfg, run).pending
  {
    assert (run + [SocketOpens(i, calls)])[..|run|] == run;
    Delivery.OpenDrainsQueueInOrder(cfg, run, i, calls);
  }

  lemma OpenMessages(e: SessionEvent, attached: bool, o: Options, user: UserCode)
    requires e.Opens? && [MARK_CONNECTED, SEND_INIT] <= e.own && o.credentials.Some?
    requires Connection.Close !in OpenCalls(e.any + e.own, attached, o, e.onState, user)
    ensures Delivery.Messages(OpenCalls(e.any + e.own, attached, o, e.onState, user))
         == Delivery.Messages(Before(e.any, attached, o, e.onState, user))
            + (Delivery.Messages(InitCalls(o, attached)) + Delivery.Messages(After(e.own, attached, o, e.onState, user)))
  {
    OpenCallsInOrder(e.any, e.own, attached, o, e.onState, user);
    var before := Before(e.any, attached, o, e.onState, user);
    UnclosedStaysAttached(e.any + [MARK_CONNECTED], attached, o, e.onState, user);
    MessagesAppend(before, InitCalls(o, attached) + After(e.own, attached, o, e.onState, user));
    MessagesAppend(InitCalls(o, attached), After(e.own, attached, o, e.onState, user));
  }

  /** On every open of every session run in which no listener closes the connection meanwhile, the socket
      receives: what listeners for all events and state listeners send; then session_init and the state
      request, if the session still holds the connection, and nothing of the kind otherwise; then what
      later listeners send; then the queue. So session_init precedes every queued command exactly when
      the session has not been closed, and then comes first of all exactly when the earlier listeners
      send nothing or the very same message first. */
  lemma {:induction false} SessionInitPrecedesQueue(cfg: Config, run: seq<SessionEvent>, e: SessionEvent, o: Options, user: UserCode)
    requires e.Opens? && [MARK_CONNECTED, SEND_INIT] <= e.own && o.credentials.Some?
    requires var s := ConnectionOf(cfg, run, o, user); e.i < |s.sockets| && s.sockets[e.i].Connecting?
    requires Connection.Close !in OpenCalls(e.any + e.own, SessionExec(run, o, user).attached, o, e.onState, user)
    ensures var attached := SessionExec(run, o, user).attached;
            var wire := ConnectionOf(cfg, run + [e], o, user).wire;
            var queue := ConnectionOf(cfg, run, o, user).pending;
            var early := Delivery.Messages(Before(e.any, attached, o, e.onState, user));
            var late := Delivery.Messages(After(e.own, attached, o, e.onState, user));
            && wire == early + ((if attached then [o.credentials.value] + (if o.requestState then [o.stateRequest] else []) else []) + late) + queue
            && |queue| <= |wire|
            && (o.credentials.value !in early + late ==> (attached <==> o.credentials.value in wire[..|wire| - |queue|]))
            && (attached ==> (wire[0] == o.credentials.value <==> early == [] || early[0] == o.credentials.value))
            && (!attached ==> wire == early + late + queue)
  {
    var attached := SessionExec(run, o, user).attached;
    OpenWire(cfg, run, e, o, user);
    InitMessages(o, attached);
    var early := Delivery.Messages(Before(e.any, attached, o, e.onState, user));
    var late := Delivery.Messages(After(e.own, attached, o, e.onState, user));
    StartsWith(early, Delivery.Messages(InitCalls(o, attached)), late, ConnectionOf(cfg, run, o, user).pending);
  }

  lemma {:induction false} OpenWire(cfg: Config, run: seq<SessionEvent>, e: SessionEvent, o: Options, user: UserCode)
    requires e.Opens? && [MARK_CONNECTED, SEND_INIT] <= e.own && o.credentials.Some?
    requires var s := ConnectionOf(cfg, run, o, user); e.i < |s.sockets| && s.sockets[e.i].Connecting?
    requires Connection.Close !in OpenCalls(e.any + e.own, SessionExec(run, o, user).attached, o, e.onState, user)
    ensures var attached := SessionExec(run, o, user).attached;
            ConnectionOf(cfg, run + [e], o, user).wire ==
            Delivery.Messages(Before(e.any, attached, o, e.onState, user))
            + (Delivery.Messages(InitCalls(o, attached)) + Delivery.Messages(After(e.own, attached, o, e.onState, user)))
            + ConnectionOf(cfg, run, o, user).pending
  {
    var s := SessionExec(run, o, user);
    assert (run + [e])[..|run|] == run;
    OpenReceives(cfg, s.run, e.i, OpenCalls(e.any + e.own, s.attached, o, e.onState, user));
    OpenMessages(e, s.attached, o, user);
  }

  lemma StartsWith(early: seq<Msg>, init: seq<Msg>, late: seq<Msg>, pending: seq<Msg>)
    ensures var wire := early + (init + late) + pending;
            && (early != [] ==> wire[0] == early[0])
            && (early == [] && init != [] ==> wire[0] == init[0])
            && (init == [] ==> wire == early + late + pending)
  {
    assert init == [] ==> init + late == late;
  }

  /** Opens come with the session's listeners in place, and while the session holds the connection
      neither listeners for all events nor state listeners do anything to it. */
  ghost predicate QuietOpens(run: seq<SessionEvent>, o: Options, user: UserCode) {
    forall k :: 0 <= k < |run| && run[k].Opens? ==>
      [MARK_CONNECTED, SEND_INIT] <= run[k].own && Before(run[k].any, true, o, run[k].onState, user) == []
  }

  lemma QuietOpenStartsWithInit(e: SessionEvent, o: Options, user: UserCode)
    requires e.Opens? && [MARK_CONNECTED, SEND_INIT] <= e.own && o.credentials.Some?
    requires Before(e.any, true, o, e.onState, user) == []
    ensures var calls := OpenCalls(e.any + e.own, true, o, e.onState, user);
            calls != [] && calls[0] == Send(o.credentials.value)
  {
    OpenCallsInOrder(e.any, e.own, true, o, e.onState, user);
    UnclosedStaysAttached(e.any + [MARK_CONNECTED], true, o, e.onState, user);
  }

  lemma {:induction false} HeldOpensStartWithInit(run: seq<SessionEvent>, o: Options, user: UserCode)
    requires o.credentials.Some? && QuietOpens(run, o, user) && SessionExec(run, o, user).attached
    ensures Delivery.OpensWith(SessionExec(run, o, user).run, o.credentials.value)
  {
    if run != [] {
      var front, e := run[..|run| - 1], run[|run| - 1];
      AttachedOnlyOnce(front, e, o, user);
      HeldOpensStartWithInit(front, o, user);
      if e.Opens? {
        QuietOpenStartsWithInit(e, o, user);
      }
    }
  }

  /** A session never comes back to a connection it has let go. */
  lemma AttachedOnlyOnce(front: seq<SessionEvent>, e: SessionEvent, o: Options, user: UserCode)
    requires SessionStep(SessionExec(front, o, user), e, o, user).attached
    ensures SessionExec(front, o, user).attached
  {
    if e.Opens? {
      DetachedStaysSo(e.any + e.own, e.onState, user);
    }
  }

  lemma {:induction false} DetachedStaysSo(delivered: seq<Listener>, onState: seq<UserCall>, user: UserCode)
    ensures !AttachedAfter(delivered, false, onState, user)
  {
    if delivered != [] {
      DetachedStaysSo(delivered[1..], onState, user);
    }
  }

  /** Over a whole run of drops and reconnects, as long as the session holds the connection and earlier
      listeners are silent, session_init is the first message on every socket. */
  lemma SessionInitIsFirst(cfg: Config, run: seq<SessionEvent>, o: Options, user: UserCode)
    requires o.credentials.Some? && QuietOpens(run, o, user) && SessionExec(run, o, user).attached
    ensures var s := ConnectionOf(cfg, run, o, user);
            && (s.wire != [] ==> s.wire[0] == o.credentials.value)
            && (s.isOpen ==> s.wire != [])
  {
    HeldOpensStartWithInit(run, o, user);
    Delivery.FirstOnEveryWire(cfg, SessionExec(run, o, user).run, o.credentials.value);
  }

  // ---------- Commands across reconnects ----------

  ghost predicate CodeSendsNone(code: seq<UserCall>, p: Msg -> bool) {
    forall m :: Direct(Send(m)) in code ==> !p(m)
  }

  /** The listeners an open is delivered to, the session's init listener aside, send nothing of the kind. */
  ghost predicate ListenersSendNone(e: SessionEvent, user: UserCode, p: Msg -> bool) {
    e.Opens? ==> forall l :: l in e.any + e.own && l != SEND_INIT ==> CodeSendsNone(CodeOf(l, e.onState, user), p)
  }

  lemma {:induction false} ReachingSendsNone(code: seq<UserCall>, attached: bool, p: Msg -> bool)
    requires CodeSendsNone(code, p)
    ensures SendingOrder.SendsNone(Reaching(code, attached), p)
  {
    if code != [] {
      assert CodeSendsNone(code[1..], p);
      ReachingSendsNone(code[1..], code[0] != CloseSession && attached, p);
      assert code[0].Direct? && code[0].call.Send? ==> Direct(Send(code[0].call.msg)) in code;
    }
  }

  lemma {:induction false} OpenCallsSendNone(delivered: seq<Listener>, attached: bool, o: Options, onState: seq<UserCall>, user: UserCode, p: Msg -> bool)
    requires SendingOrder.SendsNone(InitCalls(o, true), p)
    requires forall l :: l in delivered && l != SEND_INIT ==> CodeSendsNone(CodeOf(l, onState, user), p)
    ensures SendingOrder.SendsNone(OpenCalls(delivered, attached, o, onState, user), p)
  {
    if delivered != [] {
      var l := delivered[0];
      if l == SEND_INIT {
        OpenCallsSendNone(delivered[1..], attached, o, onState, user, p);
      } else {
        ReachingSendsNone(CodeOf(l, onState, user), attached, p);
        OpenCallsSendNone(delivered[1..], StaysAttached(CodeOf(l, onState, user), attached), o, onState, user, p);
      }
    }
  }

  lemma {:induction false} SessionOpensSendNone(run: seq<SessionEvent>, o: Options, user: UserCode, p: Msg -> bool)
    requires SendingOrder.SendsNone(InitCalls(o, true), p)
    requires forall e :: e in run ==> ListenersSendNone(e, user, p)
    ensures SendingOrder.OpensSendNone(SessionExec(run, o, user).run, p)
  {
    if run != [] {
      var front, e := run[..|run| - 1], run[|run| - 1];
      assert e in run;
      SessionOpensSendNone(front, o, user, p);
      if e.Opens? {
        OpenCallsSendNone(e.any + e.own, SessionExec(front, o, user).attached, o, e.onState, user, p);
      }
    }
  }

  /** In every session run, over all drops and reconnects: session_init and the state request overtake
      queued commands, but commands that no listener of `ws:open` sends keep the order they were sent in. */
  lemma CommandsKeepOrder(cfg: Config, run: seq<SessionEvent>, o: Options, user: UserCode, p: Msg -> bool)
    requires SendingOrder.SendsNone(InitCalls(o, true), p)
    requires forall e :: e in run ==> ListenersSendNone(e, user, p)
    ensures var s := ConnectionOf(cfg, run, o, user);
            IsSubsequence(Sorting.Filter(s.handed, p) + Sorting.Filter(s.pending, p), Sorting.Filter(s.sent, p))
  {
    SessionOpensSendNone(run, o, user, p);
    SendingOrder.UnsentOnOpenKeepsOrder(cfg, SessionExec(run, o, user).run, p);
  }

  lemma BareOpenCallsNothing(o: Options, user: UserCode)
    ensures OpenCalls([MARK_CONNECTED, SEND_INIT], false, o, [], user) == []
  {
    assert [MARK_CONNECTED, SEND_INIT][1..] == [SEND_INIT] && [SEND_INIT][1..] == [];
    assert OpenCalls([SEND_INIT], false, o, [], user) == [];
  }

  lemma ClosedFetchOpens(cfg: Config)
    requires cfg.hasWebSocket
    ensures var s := Exec(cfg, [User(Connection.Close), FetchDone, SocketOpens(0, [])]);
            s.isOpen && s.closedByUser && s.wire == []
  {
    var r1, r2 := [User(Connection.Close)], [User(Connection.Close), FetchDone];
    var r3 := r2 + [SocketOpens(0, [])];
    assert r3 == [User(Connection.Close), FetchDone, SocketOpens(0, [])];
    assert r1[..0] == [] && r2[..1] == r1 && r3[..2] == r2;
    var calls: seq<Call> := [Connection.Close];
    assert calls[1..] == [] && Exec(cfg, []) == Init(cfg);
    assert Exec(cfg, r1) == DoClose(Init(cfg));
    assert Exec(cfg, r2) == Attach(DoClose(Init(cfg)));
  }

  lemma SessionExecOne(front: seq<SessionEvent>, e: SessionEvent, o: Options, user: UserCode)
    ensures SessionExec(front + [e], o, user) == SessionStep(SessionExec(front, o, user), e, o, user)
  {
    assert (front + [e])[..|front|] == front;
  }

  /** A session closed while the URL is being fetched: its socket opens all the same, and is left open
      without session_init. */
  lemma ClosedSessionOpensBare(cfg: Config, o: Options, user: UserCode)
    requires cfg.hasWebSocket
    ensures var s := ConnectionOf(cfg, [] + [Leaves] + [Happens(FetchDone, false)] + [Opens(0, [], [MARK_CONNECTED, SEND_INIT], [])], o, user);
            s.isOpen && s.closedByUser && s.wire == []
  {
    var open := Opens(0, [], [MARK_CONNECTED, SEND_INIT], []);
    var closed: seq<SessionEvent> := [] + [Leaves];
    SessionExecOne([], Leaves, o, user);
    SessionExecOne(closed, Happens(FetchDone, false), o, user);
    SessionExecOne(closed + [Happens(FetchDone, false)], open, o, user);
    BareOpenCallsNothing(o, user);
    assert open.any + open.own == [MARK_CONNECTED, SEND_INIT];
    ClosedFetchOpens(cfg);
    assert SessionExec(closed + [Happens(FetchDone, false)] + [open], o, user).run
        == [User(Connection.Close), FetchDone, SocketOpens(0, [])];
  }
}
