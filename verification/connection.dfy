/** The reconnecting WebSocket client as a step system. Its closure variables are fields of
    `State`, next to the environment (URL fetches in flight, the sockets created so far and their
    ready states) and a history of messages and notifications. Every notification may call back into
    the client; the calls made while it is delivered are part of the event. */
module Connection {
  import opened Wrappers

  type Msg = string

  const MAX_PENDING: nat := 1000

  datatype Limit = Finite(n: int) | Infinite
  datatype Config = Config(enabled: bool, maxRetries: Limit, hasWebSocket: bool)

  datatype Socket = Connecting | Open | Closing | Closed
  datatype Note = Opened | Reconnecting(attempt: int)

  /** What user code may call, at top level or from inside a notification. */
  datatype Call = Send(msg: Msg) | Close

  datatype State = State(
    ws: Option<nat>,            // index of the socket the client talks to
    isOpen: bool,
    closedByUser: bool,
    attempts: int,
    timer: bool,                // reconnect timer armed
    pending: seq<Msg>,
    fetches: nat,               // URL fetches in flight
    sockets: seq<Socket>,
    sent: seq<Msg>,             // every message passed to send
    handed: seq<Msg>,           // handed to some socket, in order; a closing one does not send them
    wire: seq<Msg>,             // handed to the newest socket, in order
    queued: seq<Msg>,           // queued since the last flush or close
    dropped: seq<Msg>,          // dropped as oldest by overflow
    discarded: seq<Msg>,        // thrown away by close()
    notes: seq<Note>)

  datatype Event =
    | FetchDone
    | FetchFails(onError: seq<Call>, onReconnecting: seq<Call>)
    | SocketOpens(i: nat, onOpen: seq<Call>)
    | SocketCloses(i: nat, onClose: seq<Call>, onReconnecting: seq<Call>)
    | SocketFails(i: nat, onError: seq<Call>, onReconnecting: seq<Call>, onClose: seq<Call>, onReconnecting2: seq<Call>)
    | PeerCloses(i: nat)
    | TimerFires
    | User(call: Call)

  const IDLE := State(None, false, false, 0, false, [], 0, [], [], [], [], [], [], [], [])

  // ---------- The client's own functions ----------

  function DoSend(s: State, m: Msg): State {
    var s1 := s.(sent := s.sent + [m]);
    if s.isOpen && s.ws.Some? then
      s1.(handed := s.handed + [m], wire := s.wire + [m])
    else
      var q := s.pending + [m];
      if |q| > MAX_PENDING then
        s1.(pending := q[1..], queued := s.queued + [m], dropped := s.dropped + [q[0]])
      else
        s1.(pending := q, queued := s.queued + [m])
  }

  function Shut(sockets: seq<Socket>, ws: Option<nat>): seq<Socket> {
    if ws.Some? && ws.value < |sockets| && !sockets[ws.value].Closed? then sockets[ws.value := Closing] else sockets
  }

  function DoClose(s: State): State {
    s.(closedByUser := true, isOpen := false, discarded := s.discarded + s.pending, pending := [], queued := [],
       timer := false, sockets := Shut(s.sockets, s.ws), ws := None)
  }

  function Called(s: State, call: Call): State {
    if call.Send? then DoSend(s, call.msg) else DoClose(s)
  }

  function Perform(s: State, calls: seq<Call>): State
    decreases |calls|
  {
    if calls == [] then s
    else Perform(Called(s, calls[0]), calls[1..])
  }

  predicate Exhausted(attempts: int, limit: Limit) {
    limit.Finite? && attempts >= limit.n
  }

  predicate WillSchedule(cfg: Config, s: State) {
    !s.closedByUser && cfg.enabled && !Exhausted(s.attempts, cfg.maxRetries) && !s.timer
  }

  function Schedule(cfg: Config, s: State, onReconnecting: seq<Call>): State {
    if WillSchedule(cfg, s) then
      var s1 := Perform(s.(notes := s.notes + [Reconnecting(s.attempts + 1)]), onReconnecting);
      s1.(attempts := s1.attempts + 1, timer := true)
    else s
  }

  function Flush(s: State): State {
    if s.ws.Some? && s.isOpen then
      s.(handed := s.handed + s.pending, wire := s.wire + s.pending, pending := [], queued := [])
    else s
  }

  function OnOpen(s: State, onOpen: seq<Call>): State {
    Flush(Perform(s.(isOpen := true, attempts := 0, notes := s.notes + [Opened]), onOpen))
  }

  function OnClose(cfg: Config, s: State, onClose: seq<Call>, onReconnecting: seq<Call>): State {
    Schedule(cfg, Perform(s.(isOpen := false), onClose), onReconnecting)
  }

  function OnError(cfg: Config, s: State, onError: seq<Call>, onReconnecting: seq<Call>): State {
    Schedule(cfg, Perform(s, onError), onReconnecting)
  }

  /** connectNow up to its await. */
  function ConnectNow(cfg: Config, s: State): State {
    if s.closedByUser then s
    else if !cfg.hasWebSocket then s.(timer := false)
    else s.(timer := false, fetches := s.fetches + 1)
  }

  /** connectNow after its await. */
  function Attach(s: State): State
    requires s.fetches > 0
  {
    s.(fetches := s.fetches - 1, sockets := s.sockets + [Connecting], ws := Some(|s.sockets|), wire := [])
  }

  // ---------- The step system ----------

  function Init(cfg: Config): State {
    ConnectNow(cfg, IDLE)
  }

  predicate Live(s: State, i: nat) {
    i < |s.sockets| && !s.sockets[i].Closed?
  }

  /** A socket's `error` and the `close` that follows it in the same task are one step. When the peer
      begins the closing handshake, the socket is closing and the client is not told yet. */
  function Step(cfg: Config, s: State, e: Event): State {
    match e
    case FetchDone => if s.fetches > 0 then Attach(s) else s
    case FetchFails(onError, onReconnecting) =>
      if s.fetches > 0 then OnError(cfg, s.(fetches := s.fetches - 1), onError, onReconnecting) else s
    case SocketOpens(i, onOpen) =>
      if i < |s.sockets| && s.sockets[i].Connecting? then OnOpen(s.(sockets := s.sockets[i := Open]), onOpen) else s
    case SocketCloses(i, onClose, onReconnecting) =>
      if Live(s, i) then OnClose(cfg, s.(sockets := s.sockets[i := Closed]), onClose, onReconnecting) else s
    case SocketFails(i, onError, onReconnecting, onClose, onReconnecting2) =>
      if Live(s, i) then
        OnClose(cfg, OnError(cfg, s.(sockets := s.sockets[i := Closed]), onError, onReconnecting), onClose, onReconnecting2)
      else s
    case PeerCloses(i) => if i < |s.sockets| && s.sockets[i].Open? then s.(sockets := s.sockets[i := Closing]) else s
    case TimerFires => if s.timer then ConnectNow(cfg, s.(timer := false)) else s
    case User(call) => Perform(s, [call])
  }

  function Exec(cfg: Config, run: seq<Event>): State {
    if run == [] then Init(cfg) else Step(cfg, Exec(cfg, run[..|run| - 1]), run[|run| - 1])
  }

  // ---------- One token ----------

  function LiveSockets(sockets: seq<Socket>): nat {
    if sockets == [] then 0
    else LiveSockets(sockets[..|sockets| - 1]) + (if sockets[|sockets| - 1].Closed? then 0 else 1)
  }

  function Tokens(s: State): nat {
    s.fetches + LiveSockets(s.sockets) + (if s.timer then 1 else 0)
  }

  /** The client points at every socket that may still deliver `open` or take data. */
  ghost predicate Owned(s: State) {
    && (s.ws.Some? ==> s.ws.value < |s.sockets|)
    && (forall i :: 0 <= i < |s.sockets| && (s.sockets[i].Connecting? || s.sockets[i].Open?) ==> s.ws == Some(i))
  }

  ghost predicate OneToken(s: State) {
    && Tokens(s) <= 1
    && Owned(s)
    && (s.isOpen ==> s.ws.Some? && (s.sockets[s.ws.value].Open? || s.sockets[s.ws.value].Closing?))
  }

  lemma {:induction false} LiveUpdate(sockets: seq<Socket>, i: nat, p: Socket)
    requires i < |sockets|
    ensures LiveSockets(sockets[i := p])
         == LiveSockets(sockets) - (if sockets[i].Closed? then 0 else 1) + (if p.Closed? then 0 else 1)
  {
    var n := |sockets| - 1;
    if i == n {
      assert sockets[i := p][..n] == sockets[..n];
    } else {
      LiveUpdate(sockets[..n], i, p);
      assert sockets[i := p][..n] == sockets[..n][i := p];
    }
  }

  lemma {:induction false} LiveIsCounted(sockets: seq<Socket>, i: nat)
    requires i < |sockets| && !sockets[i].Closed?
    ensures LiveSockets(sockets) >= 1
  {
    LiveUpdate(sockets, i, Closed);
  }

  /** What calls cannot change, or only change in one direction; `closed` says whether one was close(). */
  ghost predicate Frame(s: State, t: State, closed: bool) {
    && Owned(t)
    && t.attempts == s.attempts && t.notes == s.notes && t.fetches == s.fetches && |t.sockets| == |s.sockets|
    && LiveSockets(t.sockets) == LiveSockets(s.sockets)
    && t.closedByUser == (s.closedByUser || closed)
    && t.timer == (s.timer && !closed)
    && (t.isOpen ==> s.isOpen && t.ws == s.ws && t.sockets == s.sockets)
    && (t.ws.Some? ==> t.ws == s.ws)
    && (!closed ==> t.ws == s.ws && t.sockets == s.sockets && t.isOpen == s.isOpen)
  }

  lemma CallFrame(s: State, call: Call)
    requires Owned(s)
    ensures Frame(s, Called(s, call), call.Close?)
  {
    if call.Close? && s.ws.Some? && !s.sockets[s.ws.value].Closed? {
      LiveUpdate(s.sockets, s.ws.value, Closing);
    }
  }

  lemma {:induction false} PerformFrame(s: State, calls: seq<Call>)
    requires Owned(s)
    ensures Frame(s, Perform(s, calls), Close in calls)
    decreases |calls|
  {
    if calls != [] {
      CallFrame(s, calls[0]);
      PerformFrame(Called(s, calls[0]), calls[1..]);
      assert Close in calls <==> calls[0].Close? || Close in calls[1..];
    }
  }

  lemma ScheduleFrame(cfg: Config, s: State, onReconnecting: seq<Call>)
    requires Owned(s)
    ensures var t := Schedule(cfg, s, onReconnecting);
            && Owned(t)
            && t.fetches == s.fetches && LiveSockets(t.sockets) == LiveSockets(s.sockets) && |t.sockets| == |s.sockets|
            && (t.isOpen ==> s.isOpen && t.ws == s.ws && t.sockets == s.sockets)
            && (t.ws.Some? ==> t.ws == s.ws)
            && (s.timer ==> t.timer)
            && (WillSchedule(cfg, s) ==>
                 t.timer && t.attempts == s.attempts + 1 && t.notes == s.notes + [Reconnecting(s.attempts + 1)]
                 && t.closedByUser == (Close in onReconnecting))
            && (!WillSchedule(cfg, s) ==> t == s)
  {
    PerformFrame(s.(notes := s.notes + [Reconnecting(s.attempts + 1)]), onReconnecting);
  }

  lemma OnlyLiveSocket(s: State, i: nat)
    requires OneToken(s) && Live(s, i)
    ensures s.fetches == 0 && !s.timer && LiveSockets(s.sockets[i := Closed]) == 0
    ensures LiveSockets(s.sockets[i := Open]) == 1
    ensures forall j :: 0 <= j < |s.sockets| && j != i ==> s.sockets[j].Closed?
  {
    LiveUpdate(s.sockets, i, Closed);
    LiveUpdate(s.sockets, i, Open);
    forall j | 0 <= j < |s.sockets| && j != i
      ensures s.sockets[j].Closed?
    {
      if !s.sockets[j].Closed? {
        LiveIsCounted(s.sockets[i := Closed], j);
      }
    }
  }

  lemma OpensTheCurrentSocket(s: State, i: nat, onOpen: seq<Call>)
    requires OneToken(s) && i < |s.sockets| && s.sockets[i].Connecting?
    ensures OneToken(OnOpen(s.(sockets := s.sockets[i := Open]), onOpen))
  {
    OnlyLiveSocket(s, i);
    var s1 := s.(sockets := s.sockets[i := Open], isOpen := true, attempts := 0, notes := s.notes + [Opened]);
    assert s.ws == Some(i);
    PerformFrame(s1, onOpen);
  }

  lemma CloseKeepsOneToken(cfg: Config, s: State, onClose: seq<Call>, onReconnecting: seq<Call>)
    requires Owned(s)
    requires s.fetches == 0 && LiveSockets(s.sockets) == 0
    ensures OneToken(OnClose(cfg, s, onClose, onReconnecting))
    ensures !OnClose(cfg, s, onClose, onReconnecting).isOpen
  {
    PerformFrame(s.(isOpen := false), onClose);
    ScheduleFrame(cfg, Perform(s.(isOpen := false), onClose), onReconnecting);
  }

  lemma FetchKeepsOneToken(cfg: Config, s: State, onError: seq<Call>, onReconnecting: seq<Call>)
    requires OneToken(s) && s.fetches > 0
    ensures OneToken(Attach(s)) && !s.isOpen
    ensures OneToken(OnError(cfg, s.(fetches := s.fetches - 1), onError, onReconnecting))
  {
    forall i | 0 <= i < |s.sockets|
      ensures s.sockets[i].Closed?
    {
      if !s.sockets[i].Closed? {
        LiveIsCounted(s.sockets, i);
      }
    }
    assert (s.sockets + [Connecting])[..|s.sockets|] == s.sockets;
    var s1 := s.(fetches := s.fetches - 1);
    PerformFrame(s1, onError);
    ScheduleFrame(cfg, Perform(s1, onError), onReconnecting);
  }

  lemma FailKeepsOneToken(cfg: Config, s: State, i: nat, onError: seq<Call>, onReconnecting: seq<Call>, onClose: seq<Call>, onReconnecting2: seq<Call>)
    requires OneToken(s) && Live(s, i)
    ensures OneToken(Step(cfg, s, SocketFails(i, onError, onReconnecting, onClose, onReconnecting2)))
  {
    OnlyLiveSocket(s, i);
    var s1 := s.(sockets := s.sockets[i := Closed]);
    PerformFrame(s1, onError);
    ScheduleFrame(cfg, Perform(s1, onError), onReconnecting);
    CloseKeepsOneToken(cfg, OnError(cfg, s1, onError, onReconnecting), onClose, onReconnecting2);
  }

  lemma StepKeepsOneToken(cfg: Config, s: State, e: Event)
    requires OneToken(s)
    ensures OneToken(Step(cfg, s, e))
  {
    match e
    case FetchDone =>
      if s.fetches > 0 {
        FetchKeepsOneToken(cfg, s, [], []);
      }
    case FetchFails(onError, onReconnecting) =>
      if s.fetches > 0 {
        FetchKeepsOneToken(cfg, s, onError, onReconnecting);
      }
    case SocketOpens(i, onOpen) =>
      if i < |s.sockets| && s.sockets[i].Connecting? {
        OpensTheCurrentSocket(s, i, onOpen);
      }
    case SocketCloses(i, onClose, onReconnecting) =>
      if Live(s, i) {
        OnlyLiveSocket(s, i);
        CloseKeepsOneToken(cfg, s.(sockets := s.sockets[i := Closed]), onClose, onReconnecting);
      }
    case SocketFails(i, onError, onReconnecting, onClose, onReconnecting2) =>
      if Live(s, i) {
        FailKeepsOneToken(cfg, s, i, onError, onReconnecting, onClose, onReconnecting2);
      }
    case PeerCloses(i) =>
      PeerKeepsOneToken(cfg, s, i);
    case TimerFires =>
    case User(call) =>
      PerformFrame(s, [call]);
  }

  lemma PeerKeepsOneToken(cfg: Config, s: State, i: nat)
    requires OneToken(s)
    ensures OneToken(Step(cfg, s, PeerCloses(i)))
  {
    if i < |s.sockets| {
      LiveUpdate(s.sockets, i, Closing);
    }
  }

  lemma {:induction false} RunKeepsOneToken(cfg: Config, run: seq<Event>)
    ensures OneToken(Exec(cfg, run))
  {
    if run != [] {
      RunKeepsOneToken(cfg, run[..|run| - 1]);
      StepKeepsOneToken(cfg, Exec(cfg, run[..|run| - 1]), run[|run| - 1]);
    }
  }

  /** In every reachable state at most one of: a URL fetch in flight, a socket not yet closed, an armed
      reconnect timer. The client takes itself for open only towards the socket it points at, which has
      opened and not closed. */
  lemma SingleConnectionToken(cfg: Config, run: seq<Event>)
    ensures var s := Exec(cfg, run);
            && s.fetches <= 1
            && (s.fetches == 1 ==> !s.timer && forall i :: 0 <= i < |s.sockets| ==> s.sockets[i].Closed?)
            && (s.timer ==> forall i :: 0 <= i < |s.sockets| ==> s.sockets[i].Closed?)
            && (forall i, j :: 0 <= i < j < |s.sockets| ==> s.sockets[i].Closed? || s.sockets[j].Closed?)
            && (s.isOpen ==> s.ws.Some? && s.ws.value < |s.sockets| && (s.sockets[s.ws.value].Open? || s.sockets[s.ws.value].Closing?))
  {
    RunKeepsOneToken(cfg, run);
    var s := Exec(cfg, run);
    forall i | 0 <= i < |s.sockets| && !s.sockets[i].Closed?
      ensures !s.timer && s.fetches == 0 && forall j :: 0 <= j < |s.sockets| && j != i ==> s.sockets[j].Closed?
    {
      OnlyLiveSocket(s, i);
    }
  }

  // ---------- Retries ----------

  /** The retry number the notifications have reached since the last open. */
  function Reached(notes: seq<Note>): int {
    if notes == [] || notes[|notes| - 1].Opened? then 0 else notes[|notes| - 1].attempt
  }

  ghost predicate Numbered(notes: seq<Note>, limit: Limit) {
    notes != [] ==>
      var front, last := notes[..|notes| - 1], notes[|notes| - 1];
      && Numbered(front, limit)
      && (last.Reconnecting? ==> last.attempt == Reached(front) + 1 && !Exhausted(last.attempt - 1, limit))
  }

  ghost predicate Counted(cfg: Config, s: State) {
    Numbered(s.notes, cfg.maxRetries) && s.attempts == Reached(s.notes)
  }

  lemma NoteExtends(notes: seq<Note>, note: Note, limit: Limit)
    requires Numbered(notes, limit)
    requires note.Reconnecting? ==> note.attempt == Reached(notes) + 1 && !Exhausted(note.attempt - 1, limit)
    ensures Numbered(notes + [note], limit)
    ensures Reached(notes + [note]) == if note.Opened? then 0 else note.attempt
  {
    assert (notes + [note])[..|notes|] == notes;
  }

  lemma ScheduleCounts(cfg: Config, s: State, onReconnecting: seq<Call>)
    requires Owned(s) && Counted(cfg, s)
    ensures Counted(cfg, Schedule(cfg, s, onReconnecting))
  {
    ScheduleFrame(cfg, s, onReconnecting);
    if WillSchedule(cfg, s) {
      NoteExtends(s.notes, Reconnecting(s.attempts + 1), cfg.maxRetries);
    }
  }

  /** Stated for the error handler; the close handler is the same one with `isOpen` cleared first. */
  lemma HandlerCounts(cfg: Config, s: State, calls: seq<Call>, onReconnecting: seq<Call>)
    requires Owned(s) && Counted(cfg, s)
    ensures var t := OnError(cfg, s, calls, onReconnecting); Owned(t) && Counted(cfg, t)
  {
    PerformFrame(s, calls);
    ScheduleFrame(cfg, Perform(s, calls), onReconnecting);
    ScheduleCounts(cfg, Perform(s, calls), onReconnecting);
  }

  lemma OpenCounts(cfg: Config, s: State, onOpen: seq<Call>)
    requires Owned(s) && Counted(cfg, s)
    ensures Counted(cfg, OnOpen(s, onOpen))
  {
    NoteExtends(s.notes, Opened, cfg.maxRetries);
    PerformFrame(s.(isOpen := true, attempts := 0, notes := s.notes + [Opened]), onOpen);
  }

  lemma StepCounts(cfg: Config, s: State, e: Event)
    requires OneToken(s) && Counted(cfg, s)
    ensures Counted(cfg, Step(cfg, s, e))
  {
    match e
    case FetchFails(onError, onReconnecting) =>
      if s.fetches > 0 {
        HandlerCounts(cfg, s.(fetches := s.fetches - 1), onError, onReconnecting);
      }
    case SocketOpens(i, onOpen) =>
      if i < |s.sockets| && s.sockets[i].Connecting? {
        OpenCounts(cfg, s.(sockets := s.sockets[i := Open]), onOpen);
      }
    case SocketCloses(i, onClose, onReconnecting) =>
      if Live(s, i) {
        HandlerCounts(cfg, s.(sockets := s.sockets[i := Closed], isOpen := false), onClose, onReconnecting);
      }
    case SocketFails(i, onError, onReconnecting, onClose, onReconnecting2) =>
      if Live(s, i) {
        var s1 := s.(sockets := s.sockets[i := Closed]);
        HandlerCounts(cfg, s1, onError, onReconnecting);
        HandlerCounts(cfg, OnError(cfg, s1, onError, onReconnecting).(isOpen := false), onClose, onReconnecting2);
      }
    case User(call) =>
      PerformFrame(s, [call]);
    case _ =>
  }

  lemma {:induction false} RunCounts(cfg: Config, run: seq<Event>)
    ensures Counted(cfg, Exec(cfg, run))
  {
    if run != [] {
      RunCounts(cfg, run[..|run| - 1]);
      RunKeepsOneToken(cfg, run[..|run| - 1]);
      StepCounts(cfg, Exec(cfg, run[..|run| - 1]), run[|run| - 1]);
    }
  }

  lemma {:induction false} NumberedFromOpen(notes: seq<Note>, limit: Limit, i: nat, j: nat)
    requires Numbered(notes, limit) && i < j <= |notes|
    requires i == 0 || notes[i - 1].Opened?
    requires forall k :: i <= k < j ==> notes[k].Reconnecting?
    ensures notes[j - 1] == Reconnecting(j - i) && !Exhausted(j - i - 1, limit)
    decreases |notes| + j
  {
    if j < |notes| {
      NumberedFromOpen(notes[..|notes| - 1], limit, i, j);
    } else if i < j - 1 {
      NumberedFromOpen(notes[..|notes| - 1], limit, i, j - 1);
    }
  }

  /** Between two opens (or from the start) the scheduled reconnects carry the numbers 1, 2, 3, ... and
      there are at most maxRetries of them. */
  lemma RetriesAreNumberedAndBounded(cfg: Config, run: seq<Event>, i: nat, j: nat)
    requires i <= j <= |Exec(cfg, run).notes|
    requires i == 0 || Exec(cfg, run).notes[i - 1].Opened?
    requires forall k :: i <= k < j ==> Exec(cfg, run).notes[k].Reconnecting?
    ensures forall k :: i <= k < j ==> Exec(cfg, run).notes[k] == Reconnecting(k - i + 1)
    ensures cfg.maxRetries.Finite? && i < j ==> j - i <= cfg.maxRetries.n
  {
    RunCounts(cfg, run);
    var notes := Exec(cfg, run).notes;
    forall k | i <= k < j
      ensures notes[k] == Reconnecting(k - i + 1)
    {
      NumberedFromOpen(notes, cfg.maxRetries, i, k + 1);
    }
    if i < j {
      NumberedFromOpen(notes, cfg.maxRetries, i, j);
    }
  }

  /** A socket error and the close that follows it schedule one reconnect between them, not two. */
  lemma FailureUsesOneAttempt(cfg: Config, s: State, e: Event)
    requires OneToken(s) && e.SocketFails? && Live(s, e.i)
    ensures var t := Step(cfg, s, e);
            || (t.attempts == s.attempts && t.notes == s.notes)
            || (t.attempts == s.attempts + 1 && t.notes == s.notes + [Reconnecting(s.attempts + 1)])
  {
    OnlyLiveSocket(s, e.i);
    var s1 := s.(sockets := s.sockets[e.i := Closed]);
    PerformFrame(s1, e.onError);
    ScheduleFrame(cfg, Perform(s1, e.onError), e.onReconnecting);
    var s2 := OnError(cfg, s1, e.onError, e.onReconnecting).(isOpen := false);
    PerformFrame(s2, e.onClose);
    ScheduleFrame(cfg, Perform(s2, e.onClose), e.onReconnecting2);
  }

  // ---------- After close() ----------

  /** The reconnecting notification that a step is about to deliver, if any, with the calls made
      before it and after it in the same step. */
  predicate TimerOutlivesClose(cfg: Config, s: State, e: Event) {
    && !s.closedByUser && cfg.enabled && !Exhausted(s.attempts, cfg.maxRetries)
    && match e
       case FetchFails(onError, onReconnecting) => s.fetches > 0 && Close !in onError && Close in onReconnecting
       case SocketCloses(i, onClose, onReconnecting) => Live(s, i) && Close !in onClose && Close in onReconnecting
       case SocketFails(i, onError, onReconnecting, onClose, _) =>
         Live(s, i) && Close !in onError && Close in onReconnecting && Close !in onClose
       case _ => false
  }

  /** A close or error handler that schedules a reconnect, none being armed. */
  predicate Arms(cfg: Config, s: State, calls: seq<Call>) {
    !s.closedByUser && !s.timer && Close !in calls && cfg.enabled && !Exhausted(s.attempts, cfg.maxRetries)
  }

  lemma HandlerTimer(cfg: Config, s: State, calls: seq<Call>, onReconnecting: seq<Call>)
    requires Owned(s)
    ensures var t, arms := OnError(cfg, s, calls, onReconnecting), Arms(cfg, s, calls);
            && Owned(t)
            && t.closedByUser == (s.closedByUser || Close in calls || (arms && Close in onReconnecting))
            && t.timer == ((s.timer && Close !in calls) || arms)
  {
    PerformFrame(s, calls);
    ScheduleFrame(cfg, Perform(s, calls), onReconnecting);
  }

  /** A step leaves a timer armed behind close() exactly when close() is called from inside the
      reconnecting notification of that step. */
  lemma StepAfterClose(cfg: Config, s: State, e: Event)
    requires OneToken(s) && (s.closedByUser ==> !s.timer)
    ensures var t := Step(cfg, s, e);
            t.closedByUser && t.timer <==> TimerOutlivesClose(cfg, s, e)
  {
    match e
    case FetchFails(onError, onReconnecting) =>
      if s.fetches > 0 {
        HandlerTimer(cfg, s.(fetches := s.fetches - 1), onError, onReconnecting);
      }
    case SocketOpens(i, onOpen) =>
      if i < |s.sockets| && s.sockets[i].Connecting? {
        OnlyLiveSocket(s, i);
        PerformFrame(s.(sockets := s.sockets[i := Open], isOpen := true, attempts := 0, notes := s.notes + [Opened]), onOpen);
      }
    case SocketCloses(i, onClose, onReconnecting) =>
      if Live(s, i) {
        OnlyLiveSocket(s, i);
        HandlerTimer(cfg, s.(sockets := s.sockets[i := Closed], isOpen := false), onClose, onReconnecting);
      }
    case SocketFails(i, onError, onReconnecting, onClose, onReconnecting2) =>
      if Live(s, i) {
        FailAfterClose(cfg, s, e);
      }
    case User(call) =>
      PerformFrame(s, [call]);
    case _ =>
  }

  lemma FailAfterClose(cfg: Config, s: State, e: Event)
    requires OneToken(s) && (s.closedByUser ==> !s.timer) && e.SocketFails? && Live(s, e.i)
    ensures var t := Step(cfg, s, e);
            t.closedByUser && t.timer <==> TimerOutlivesClose(cfg, s, e)
  {
    OnlyLiveSocket(s, e.i);
    var s1 := s.(sockets := s.sockets[e.i := Closed]);
    HandlerTimer(cfg, s1, e.onError, e.onReconnecting);
    HandlerTimer(cfg, OnError(cfg, s1, e.onError, e.onReconnecting).(isOpen := false), e.onClose, e.onReconnecting2);
  }

  ghost predicate NeverArmedAfterClose(cfg: Config, run: seq<Event>) {
    && !(Exec(cfg, run).closedByUser && Exec(cfg, run).timer)
    && (run != [] ==> NeverArmedAfterClose(cfg, run[..|run| - 1]))
  }

  ghost predicate NeverClosesWhileReconnecting(cfg: Config, run: seq<Event>) {
    run != [] ==>
      && NeverClosesWhileReconnecting(cfg, run[..|run| - 1])
      && !TimerOutlivesClose(cfg, Exec(cfg, run[..|run| - 1]), run[|run| - 1])
  }

  /** Over whole runs: no timer is ever armed behind a user close if and only if close() is never
      called from inside a reconnecting notification (and not repeated later in the same step). */
  lemma {:induction false} NoTimerAfterCloseExactlyWhen(cfg: Config, run: seq<Event>)
    ensures NeverArmedAfterClose(cfg, run) <==> NeverClosesWhileReconnecting(cfg, run)
  {
    if run != [] {
      var front := run[..|run| - 1];
      NoTimerAfterCloseExactlyWhen(cfg, front);
      if NeverArmedAfterClose(cfg, front) {
        RunKeepsOneToken(cfg, front);
        StepAfterClose(cfg, Exec(cfg, front), run[|run| - 1]);
      }
    }
  }

  lemma ClosedHandler(cfg: Config, s: State, calls: seq<Call>, onReconnecting: seq<Call>)
    requires Owned(s) && s.closedByUser
    ensures OnError(cfg, s, calls, onReconnecting) == Perform(s, calls) && Frame(s, Perform(s, calls), Close in calls)
  {
    PerformFrame(s, calls);
  }

  /** Whatever the callbacks do: once closed, the client stays closed, starts no further URL fetch, and
      at most turns fetches already in flight into sockets; a leftover timer fires without effect. */
  lemma ClosedClientWindsDown(cfg: Config, s: State, e: Event)
    requires OneToken(s) && s.closedByUser
    ensures var t := Step(cfg, s, e);
            && t.closedByUser
            && |t.sockets| + t.fetches <= |s.sockets| + s.fetches
            && t.fetches <= s.fetches
            && (e.TimerFires? ==> t == s.(timer := false))
            && (t.timer ==> s.timer)
  {
    match e
    case FetchFails(onError, onReconnecting) =>
      if s.fetches > 0 {
        ClosedHandler(cfg, s.(fetches := s.fetches - 1), onError, onReconnecting);
      }
    case SocketOpens(i, onOpen) =>
      if i < |s.sockets| && s.sockets[i].Connecting? {
        PerformFrame(s.(sockets := s.sockets[i := Open], isOpen := true, attempts := 0, notes := s.notes + [Opened]), onOpen);
      }
    case SocketCloses(i, onClose, onReconnecting) =>
      if Live(s, i) {
        ClosedHandler(cfg, s.(sockets := s.sockets[i := Closed], isOpen := false), onClose, onReconnecting);
      }
    case SocketFails(i, onError, onReconnecting, onClose, onReconnecting2) =>
      if Live(s, i) {
        var s1 := s.(sockets := s.sockets[i := Closed]);
        ClosedHandler(cfg, s1, onError, onReconnecting);
        ClosedHandler(cfg, Perform(s1, onError).(isOpen := false), onClose, onReconnecting2);
      }
    case User(call) =>
      PerformFrame(s, [call]);
    case _ =>
  }
}
