/** The WebSocket client with its closure variables updated in place. Each handler is proved to take
    exactly the corresponding step of the step system in module Connection. */
module AgentClient {
  import opened Wrappers
  import opened Connection

  /** The network and the history of the run. */
  datatype World = World(
    fetches: nat, sockets: seq<Socket>, sent: seq<Msg>, handed: seq<Msg>, wire: seq<Msg>,
    queued: seq<Msg>, dropped: seq<Msg>, discarded: seq<Msg>, notes: seq<Note>)

  class AgentConnection {
    const cfg: Config
    var ws: Option<nat>
    var isOpen: bool
    var closedByUser: bool
    var reconnectAttempts: int
    var reconnectTimer: bool
    var pendingSends: seq<Msg>
    ghost var world: World

    ghost function Now(): State
      reads this
    {
      State(ws, isOpen, closedByUser, reconnectAttempts, reconnectTimer, pendingSends, world.fetches, world.sockets,
            world.sent, world.handed, world.wire, world.queued, world.dropped, world.discarded, world.notes)
    }

    constructor (cfg: Config)
      ensures this.cfg == cfg && Now() == Init(cfg)
    {
      this.cfg := cfg;
      ws, isOpen, closedByUser, reconnectAttempts, reconnectTimer, pendingSends := None, false, false, 0, false, [];
      world := World(0, [], [], [], [], [], [], [], []);
      new;
      BeginConnect();
    }

    /** Hands a message to the current socket. */
    ghost method HandOver(msg: Msg)
      modifies `world
      ensures world == old(world).(handed := old(world).handed + [msg], wire := old(world).wire + [msg])
    {
      world := world.(handed := world.handed + [msg], wire := world.wire + [msg]);
    }

    ghost method EmitNote(note: Note)
      modifies `world
      ensures world == old(world).(notes := old(world).notes + [note])
    {
      world := world.(notes := world.notes + [note]);
    }

    method SendMessage(msg: Msg)
      modifies this
      ensures Now() == DoSend(old(Now()), msg)
    {
      world := world.(sent := world.sent + [msg]);
      if isOpen && ws.Some? {
        HandOver(msg);
        return;
      }
      pendingSends := pendingSends + [msg];
      world := world.(queued := world.queued + [msg]);
      if |pendingSends| > MAX_PENDING {
        world := world.(dropped := world.dropped + [pendingSends[0]]);
        pendingSends := pendingSends[1..];
      }
    }

    method CloseByUser()
      modifies this
      ensures Now() == DoClose(old(Now()))
    {
      closedByUser := true;
      isOpen := false;
      world := world.(discarded := world.discarded + pendingSends, queued := []);
      pendingSends := [];
      ClearReconnectTimer();
      world := world.(sockets := Shut(world.sockets, ws));
      ws := None;
    }

    method ClearReconnectTimer()
      modifies `reconnectTimer
      ensures !reconnectTimer
    {
      if reconnectTimer {
        reconnectTimer := false;
      }
    }

    /** The calls user code makes while a notification is delivered. */
    method Deliver(calls: seq<Call>)
      modifies this
      ensures Now() == Perform(old(Now()), calls)
    {
      for i := 0 to |calls|
        invariant Perform(Now(), calls[i..]) == Perform(old(Now()), calls)
      {
        if calls[i].Send? {
          SendMessage(calls[i].msg);
        } else {
          CloseByUser();
        }
        assert calls[i..][1..] == calls[i + 1..];
      }
    }

    method FlushPendingSends()
      modifies this
      ensures Now() == Flush(old(Now()))
    {
      if ws.None? || !isOpen {
        return;
      }
      for i := 0 to |pendingSends|
        invariant Now() == old(Now()).(handed := old(world.handed) + pendingSends[..i], wire := old(world.wire) + pendingSends[..i])
      {
        HandOver(pendingSends[i]);
      }
      assert pendingSends[..|pendingSends|] == pendingSends;
      pendingSends := [];
      world := world.(queued := []);
    }

    method ScheduleReconnect(onReconnecting: seq<Call>)
      modifies this
      ensures Now() == Schedule(cfg, old(Now()), onReconnecting)
    {
      if closedByUser { return; }
      if !cfg.enabled { return; }
      if Exhausted(reconnectAttempts, cfg.maxRetries) { return; }
      if reconnectTimer { return; }
      EmitNote(Reconnecting(reconnectAttempts + 1));
      Deliver(onReconnecting);
      reconnectAttempts := reconnectAttempts + 1;
      reconnectTimer := true;
    }

    method HandleOpen(onOpen: seq<Call>)
      modifies this
      ensures Now() == OnOpen(old(Now()), onOpen)
    {
      isOpen := true;
      reconnectAttempts := 0;
      EmitNote(Opened);
      Deliver(onOpen);
      FlushPendingSends();
    }

    method HandleClose(onClose: seq<Call>, onReconnecting: seq<Call>)
      modifies this
      ensures Now() == OnClose(cfg, old(Now()), onClose, onReconnecting)
    {
      isOpen := false;
      Deliver(onClose);
      ScheduleReconnect(onReconnecting);
    }

    method HandleError(onError: seq<Call>, onReconnecting: seq<Call>)
      modifies this
      ensures Now() == OnError(cfg, old(Now()), onError, onReconnecting)
    {
      Deliver(onError);
      ScheduleReconnect(onReconnecting);
    }

    /** connectNow up to its await of the URL. */
    method BeginConnect()
      modifies this
      ensures Now() == ConnectNow(cfg, old(Now()))
    {
      if closedByUser { return; }
      ClearReconnectTimer();
      if !cfg.hasWebSocket { return; }
      world := world.(fetches := world.fetches + 1);
    }

    /** connectNow after the URL has arrived; `socket` is the new socket. */
    method FinishConnect(socket: nat)
      requires world.fetches > 0 && socket == |world.sockets|
      modifies this
      ensures Now() == Attach(old(Now()))
    {
      world := world.(fetches := world.fetches - 1, sockets := world.sockets + [Connecting], wire := []);
      ws := Some(socket);
    }
  }
}
