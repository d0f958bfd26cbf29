/** The typed emitter: listeners for all events and listeners per event, each kept in registration
    order without repetition, as JavaScript's Set keeps them. A callback is known by its identity. */
module Emitter {
  import opened Wrappers
  import opened Sequences

  type Listener = nat

  /** What a callback may do to the emitter while an event is being delivered. */
  datatype Edit<Event> =
    | Subscribe(event: Event, cb: Listener)
    | Unsubscribe(event: Event, cb: Listener)
    | SubscribeAny(cb: Listener)
    | UnsubscribeAny(cb: Listener)
    | ClearAll

  function Added(ls: seq<Listener>, cb: Listener): seq<Listener> {
    if cb in ls then ls else ls + [cb]
  }

  function Removed(ls: seq<Listener>, cb: Listener): seq<Listener> {
    if ls == [] then [] else if ls[0] == cb then Removed(ls[1..], cb) else [ls[0]] + Removed(ls[1..], cb)
  }

  lemma {:induction false} RemovedMembers(ls: seq<Listener>, cb: Listener)
    ensures forall x :: x in Removed(ls, cb) ==> x in ls && x != cb
    ensures forall x :: x in ls && x != cb ==> x in Removed(ls, cb)
    ensures Distinct(ls) ==> Distinct(Removed(ls, cb))
    ensures cb !in ls ==> Removed(ls, cb) == ls
  {
    if ls != [] {
      RemovedMembers(ls[1..], cb);
      assert ls == [ls[0]] + ls[1..];
      if Distinct(ls) {
        assert ls[0] !in ls[1..];
        var rest := Removed(ls[1..], cb);
        forall i, j | 0 <= i < j < |[ls[0]] + rest|
          ensures ([ls[0]] + rest)[i] != ([ls[0]] + rest)[j]
        {
          assert rest[j - 1] in rest;
        }
      }
    }
  }

  lemma {:induction false} RemovedAppends(a: seq<Listener>, b: seq<Listener>, cb: Listener)
    ensures Removed(a + b, cb) == Removed(a, cb) + Removed(b, cb)
  {
    if a == [] {
      assert a + b == b;
    } else {
      RemovedAppends(a[1..], b, cb);
      assert (a + b)[1..] == a[1..] + b && (a + b)[0] == a[0];
      Associate([a[0]], Removed(a[1..], cb), Removed(b, cb));
    }
  }

  /** Unsubscribing a fresh subscription restores the listener list. */
  lemma RemovedUndoesAdded(ls: seq<Listener>, cb: Listener)
    requires cb !in ls
    ensures Removed(Added(ls, cb), cb) == ls
  {
    RemovedAppends(ls, [cb], cb);
    RemovedMembers(ls, cb);
    assert Removed([cb], cb) == [];
  }

  /** Listeners registered first stay first, whoever else comes and goes. */
  lemma FirstStayFirst(first: seq<Listener>, ls: seq<Listener>, cb: Listener)
    requires first <= ls && cb !in first
    ensures first <= Added(ls, cb) && first <= Removed(ls, cb)
  {
    assert ls == first + ls[|first|..];
    RemovedAppends(first, ls[|first|..], cb);
    RemovedMembers(first, cb);
  }

  // ---------- Iterating over a set that changes ----------

  /** A `for` loop over a Set: of its current members the first `at` have had their turn. `attached` says
      whether the emitter still holds that very Set. */
  datatype Cursor = Cursor(ls: seq<Listener>, at: nat, attached: bool)

  ghost predicate Sound(c: Cursor) {
    Distinct(c.ls) && c.at <= |c.ls|
  }

  function Without(c: Cursor, cb: Listener): Cursor {
    c.(ls := Removed(c.ls, cb), at := if c.at <= |c.ls| then |Removed(c.ls[..c.at], cb)| else 0)
  }

  /** One edit during the loop over the listeners for all events (`which` is None) or for one event. The
      emitter drops an event's Set when it becomes empty, and on clear() without emptying it. */
  function Turn<Event(==)>(c: Cursor, which: Option<Event>, edit: Edit<Event>): Cursor {
    match edit
    case SubscribeAny(cb) => if which.None? then c.(ls := Added(c.ls, cb)) else c
    case UnsubscribeAny(cb) => if which.None? then Without(c, cb) else c
    case Subscribe(event, cb) => if which == Some(event) && c.attached then c.(ls := Added(c.ls, cb)) else c
    case Unsubscribe(event, cb) =>
      if which == Some(event) && c.attached then Without(c, cb).(attached := Removed(c.ls, cb) != []) else c
    case ClearAll => if which.None? then c.(ls := [], at := 0) else c.(attached := false)
  }

  function Turns<Event(==)>(c: Cursor, which: Option<Event>, edits: seq<Edit<Event>>): Cursor
    decreases |edits|
  {
    if edits == [] then c else Turns(Turn(c, which, edits[0]), which, edits[1..])
  }

  /** The loop after the turn of one callback that made some edits. */
  function AfterTurn<Event(==)>(c: Cursor, which: Option<Event>, edits: seq<Edit<Event>>): (d: Cursor)
    ensures edits == [] ==> d == c.(at := c.at + 1)
  {
    Turns(c.(at := c.at + 1), which, edits)
  }

  /** The edits that the k-th callback makes; those beyond the end of `reactions` make none. */
  function ReactionAt<Event>(reactions: seq<seq<Edit<Event>>>, k: nat): seq<Edit<Event>> {
    if k < |reactions| then reactions[k] else []
  }

  function ReactionsFrom<Event>(reactions: seq<seq<Edit<Event>>>, k: nat): seq<seq<Edit<Event>>> {
    if k < |reactions| then reactions[k..] else []
  }

  /** The callbacks that get their turn, in order. */
  function Visited<Event(==)>(c: Cursor, which: Option<Event>, reactions: seq<seq<Edit<Event>>>): seq<Listener>
    decreases |reactions|, |c.ls| - c.at
  {
    if c.at >= |c.ls| then []
    else [c.ls[c.at]] + Visited(AfterTurn(c, which, ReactionAt(reactions, 0)), which, ReactionsFrom(reactions, 1))
  }

  predicate Removes<Event(==)>(which: Option<Event>, edit: Edit<Event>, cb: Listener) {
    if which.None? then edit == UnsubscribeAny(cb) || edit.ClearAll? else edit == Unsubscribe(which.value, cb)
  }

  predicate Adds<Event(==)>(which: Option<Event>, edit: Edit<Event>, cb: Listener) {
    edit == if which.None? then SubscribeAny(cb) else Subscribe(which.value, cb)
  }

  ghost predicate NeverRemoves<Event>(which: Option<Event>, reactions: seq<seq<Edit<Event>>>, cb: Listener) {
    forall k, i :: 0 <= k < |reactions| && 0 <= i < |reactions[k]| ==> !Removes(which, reactions[k][i], cb)
  }

  ghost predicate NeverAdds<Event>(which: Option<Event>, reactions: seq<seq<Edit<Event>>>, cb: Listener) {
    forall k, i :: 0 <= k < |reactions| && 0 <= i < |reactions[k]| ==> !Adds(which, reactions[k][i], cb)
  }

  /** Members before and behind the cursor; a sound cursor has each on one side. */
  ghost predicate Done(c: Cursor, cb: Listener) {
    c.at <= |c.ls| && cb in c.ls[..c.at]
  }

  ghost predicate Waiting(c: Cursor, cb: Listener) {
    c.at <= |c.ls| && cb in c.ls[c.at..]
  }

  lemma AddedBehind(c: Cursor, cb: Listener)
    requires Sound(c)
    ensures var d := c.(ls := Added(c.ls, cb));
            Sound(d) && c.ls[..c.at] == d.ls[..c.at] && d.ls[c.at..] == (if cb in c.ls then c.ls[c.at..] else c.ls[c.at..] + [cb])
  {
  }

  lemma WithoutSplits(c: Cursor, cb: Listener)
    requires Sound(c)
    ensures var d := Without(c, cb);
            Sound(d) && d.ls[..d.at] == Removed(c.ls[..c.at], cb) && d.ls[d.at..] == Removed(c.ls[c.at..], cb)
  {
    assert c.ls == c.ls[..c.at] + c.ls[c.at..];
    RemovedAppends(c.ls[..c.at], c.ls[c.at..], cb);
    RemovedMembers(c.ls, cb);
  }

  lemma AddingSplits(c: Cursor, added: Listener, cb: Listener)
    requires Sound(c)
    ensures var d := c.(ls := Added(c.ls, added));
            && Sound(d) && (Done(d, cb) <==> Done(c, cb)) && (Waiting(c, cb) ==> Waiting(d, cb))
            && (Waiting(d, cb) ==> Waiting(c, cb) || cb == added)
  {
    AddedBehind(c, added);
  }

  lemma RemovingSplits(c: Cursor, removed: Listener, cb: Listener)
    requires Sound(c)
    ensures var d := Without(c, removed);
            && Sound(d) && (Done(d, cb) ==> Done(c, cb)) && (Waiting(d, cb) ==> Waiting(c, cb))
            && (cb != removed ==> (Done(c, cb) ==> Done(d, cb)) && (Waiting(c, cb) ==> Waiting(d, cb)))
  {
    WithoutSplits(c, removed);
    RemovedMembers(c.ls[..c.at], removed);
    RemovedMembers(c.ls[c.at..], removed);
  }

  /** What one edit does to both sides of the cursor. */
  lemma TurnSplits<Event>(c: Cursor, which: Option<Event>, edit: Edit<Event>, cb: Listener)
    requires Sound(c)
    ensures var d := Turn(c, which, edit);
            && Sound(d)
            && (Done(d, cb) ==> Done(c, cb))
            && (Waiting(d, cb) ==> Waiting(c, cb) || Adds(which, edit, cb))
            && (!Removes(which, edit, cb) ==> (Done(c, cb) ==> Done(d, cb)) && (Waiting(c, cb) ==> Waiting(d, cb)))
  {
    if !edit.ClearAll? {
      AddingSplits(c, edit.cb, cb);
      RemovingSplits(c, edit.cb, cb);
    }
  }

  lemma AddedWaits<Event>(c: Cursor, which: Option<Event>, edit: Edit<Event>, cb: Listener)
    requires Sound(c) && c.attached && Adds(which, edit, cb) && !Done(c, cb)
    ensures Waiting(Turn(c, which, edit), cb)
  {
    AddedBehind(c, cb);
    assert c.ls == c.ls[..c.at] + c.ls[c.at..];
  }

  lemma RemovedWaitsNoMore<Event>(c: Cursor, which: Option<Event>, edit: Edit<Event>, cb: Listener)
    requires Sound(c) && c.attached && Removes(which, edit, cb)
    ensures !Waiting(Turn(c, which, edit), cb)
  {
    WithoutSplits(c, cb);
    RemovedMembers(c.ls[c.at..], cb);
  }

  ghost predicate NoneRemoves<Event>(which: Option<Event>, edits: seq<Edit<Event>>, cb: Listener) {
    forall i :: 0 <= i < |edits| ==> !Removes(which, edits[i], cb)
  }

  ghost predicate NoneAdds<Event>(which: Option<Event>, edits: seq<Edit<Event>>, cb: Listener) {
    forall i :: 0 <= i < |edits| ==> !Adds(which, edits[i], cb)
  }

  lemma {:induction false} TurnsSplit<Event>(c: Cursor, which: Option<Event>, edits: seq<Edit<Event>>, cb: Listener)
    requires Sound(c)
    ensures var d := Turns(c, which, edits);
            && Sound(d)
            && (Done(d, cb) ==> Done(c, cb))
            && (NoneAdds(which, edits, cb) && Waiting(d, cb) ==> Waiting(c, cb))
            && (NoneRemoves(which, edits, cb) ==> (Done(c, cb) ==> Done(d, cb)) && (Waiting(c, cb) ==> Waiting(d, cb)))
    decreases |edits|
  {
    if edits != [] {
      TurnSplits(c, which, edits[0], cb);
      TurnsSplit(Turn(c, which, edits[0]), which, edits[1..], cb);
    }
  }

  lemma NextTurn(c: Cursor, cb: Listener)
    requires Sound(c) && c.at < |c.ls|
    ensures var d := c.(at := c.at + 1);
            && Sound(d)
            && (Done(d, cb) <==> Done(c, cb) || cb == c.ls[c.at])
            && (Waiting(c, cb) <==> Waiting(d, cb) || cb == c.ls[c.at])
            && !(Done(d, cb) && Waiting(d, cb))
  {
    var d := c.(at := c.at + 1);
    assert d.ls[..d.at] == c.ls[..c.at] + [c.ls[c.at]];
    assert c.ls[c.at..] == [c.ls[c.at]] + d.ls[d.at..];
  }

  lemma CountFirst(x: Listener, rest: seq<Listener>, cb: Listener)
    ensures multiset([x] + rest)[cb] == (if x == cb then 1 else 0) + multiset(rest)[cb]
  {
  }

  /** One turn: a member that stays is done with afterwards exactly if it was its turn or it was done. */
  lemma TurnOfStaying<Event>(c: Cursor, which: Option<Event>, edits: seq<Edit<Event>>, cb: Listener)
    requires Sound(c) && c.at < |c.ls| && NoneRemoves(which, edits, cb) && (Done(c, cb) || Waiting(c, cb))
    ensures var d := AfterTurn(c, which, edits);
            && Sound(d) && (Done(d, cb) || Waiting(d, cb))
            && (if c.ls[c.at] == cb then Waiting(c, cb) && !Waiting(d, cb) else Waiting(d, cb) <==> Waiting(c, cb))
  {
    var c1 := c.(at := c.at + 1);
    DoneOrWaiting(c, cb);
    NextTurn(c, cb);
    TurnsSplit(c1, which, edits, cb);
    DoneOrWaiting(AfterTurn(c, which, edits), cb);
  }

  /** A member that nobody removes gets exactly one turn if it is waiting, and none if it had its turn. */
  lemma {:induction false} StayingGetsOneTurn<Event>(c: Cursor, which: Option<Event>, reactions: seq<seq<Edit<Event>>>, cb: Listener)
    requires Sound(c) && (Done(c, cb) || Waiting(c, cb)) && NeverRemoves(which, reactions, cb)
    ensures multiset(Visited(c, which, reactions))[cb] == if Waiting(c, cb) then 1 else 0
    decreases |reactions|, |c.ls| - c.at
  {
    if c.at < |c.ls| {
      var e, left := AfterTurn(c, which, ReactionAt(reactions, 0)), ReactionsFrom(reactions, 1);
      NeverSplits(which, reactions, cb);
      TurnOfStaying(c, which, ReactionAt(reactions, 0), cb);
      StayingGetsOneTurn(e, which, left, cb);
      CountFirst(c.ls[c.at], Visited(e, which, left), cb);
    }
  }

  lemma DoneOrWaiting(c: Cursor, cb: Listener)
    requires Sound(c)
    ensures !(Done(c, cb) && Waiting(c, cb))
  {
  }

  /** Who is not waiting and is not added gets no turn. */
  lemma {:induction false} AbsentGetsNoTurn<Event>(c: Cursor, which: Option<Event>, reactions: seq<seq<Edit<Event>>>, cb: Listener)
    requires Sound(c) && !Waiting(c, cb) && NeverAdds(which, reactions, cb)
    ensures cb !in Visited(c, which, reactions)
    decreases |reactions|, |c.ls| - c.at
  {
    if c.at < |c.ls| {
      NextTurn(c, cb);
      var d := c.(at := c.at + 1);
      TurnsSplit(d, which, ReactionAt(reactions, 0), cb);
      AbsentGetsNoTurn(AfterTurn(c, which, ReactionAt(reactions, 0)), which, ReactionsFrom(reactions, 1), cb);
    }
  }

  lemma TurnKeepsFirst<Event>(c: Cursor, which: Option<Event>, edit: Edit<Event>, first: seq<Listener>)
    requires Sound(c) && first <= c.ls[c.at..] && forall cb :: cb in first ==> !Removes(which, edit, cb)
    ensures var d := Turn(c, which, edit); Sound(d) && first <= d.ls[d.at..]
  {
    TurnSplits(c, which, edit, 0);
    if edit.ClearAll? {
      assert first != [] ==> first[0] in first;
    } else {
      AddedBehind(c, edit.cb);
      WithoutSplits(c, edit.cb);
      if edit.cb !in first {
        FirstStayFirst(first, c.ls[c.at..], edit.cb);
      }
    }
  }

  lemma {:induction false} TurnsKeepFirst<Event>(c: Cursor, which: Option<Event>, edits: seq<Edit<Event>>, first: seq<Listener>)
    requires Sound(c) && first <= c.ls[c.at..] && forall cb :: cb in first ==> NoneRemoves(which, edits, cb)
    ensures var d := Turns(c, which, edits); Sound(d) && first <= d.ls[d.at..]
    decreases |edits|
  {
    if edits != [] {
      TurnKeepsFirst(c, which, edits[0], first);
      TurnsKeepFirst(Turn(c, which, edits[0]), which, edits[1..], first);
    }
  }

  lemma NeverSplits<Event>(which: Option<Event>, reactions: seq<seq<Edit<Event>>>, cb: Listener)
    requires NeverRemoves(which, reactions, cb)
    ensures NoneRemoves(which, ReactionAt(reactions, 0), cb) && NeverRemoves(which, ReactionsFrom(reactions, 1), cb)
  {
  }

  /** Listeners registered first that nobody removes get the first turns, in order, whatever the callbacks
      subscribe and unsubscribe meanwhile. */
  lemma {:induction false} FirstAreVisitedFirst<Event>(c: Cursor, which: Option<Event>, reactions: seq<seq<Edit<Event>>>, first: seq<Listener>)
    requires Sound(c) && first <= c.ls[c.at..] && forall cb :: cb in first ==> NeverRemoves(which, reactions, cb)
    ensures first <= Visited(c, which, reactions)
    decreases |first|
  {
    if first != [] {
      var d, rest := c.(at := c.at + 1), first[1..];
      assert rest <= d.ls[d.at..];
      forall cb | cb in rest
        ensures NoneRemoves(which, ReactionAt(reactions, 0), cb) && NeverRemoves(which, ReactionsFrom(reactions, 1), cb)
      {
        assert cb in first;
        NeverSplits(which, reactions, cb);
      }
      TurnsKeepFirst(d, which, ReactionAt(reactions, 0), rest);
      FirstAreVisitedFirst(AfterTurn(c, which, ReactionAt(reactions, 0)), which, ReactionsFrom(reactions, 1), rest);
    }
  }

  // ---------- Subscribing during the loop ----------

  /** The emitter lets go of an event's Set on clear() and when its last member leaves; `w` stays in it. */
  ghost predicate Anchored<Event>(which: Option<Event>, edits: seq<Edit<Event>>, w: Listener) {
    which.Some? ==> NoneRemoves(which, edits, w) && forall i :: 0 <= i < |edits| ==> !edits[i].ClearAll?
  }

  ghost predicate Holds<Event>(c: Cursor, which: Option<Event>, w: Listener) {
    Sound(c) && c.attached && (which.Some? ==> w in c.ls)
  }

  lemma TurnHolds<Event>(c: Cursor, which: Option<Event>, edit: Edit<Event>, w: Listener)
    requires Holds(c, which, w) && Anchored(which, [edit], w)
    ensures Holds(Turn(c, which, edit), which, w)
  {
    assert which.Some? ==> !Removes(which, [edit][0], w) && ![edit][0].ClearAll?;
    TurnSplits(c, which, edit, w);
    if edit.Unsubscribe? {
      RemovedMembers(c.ls, edit.cb);
    }
  }

  lemma {:induction false} TurnsHold<Event>(c: Cursor, which: Option<Event>, edits: seq<Edit<Event>>, w: Listener)
    requires Holds(c, which, w) && Anchored(which, edits, w)
    ensures Holds(Turns(c, which, edits), which, w)
    decreases |edits|
  {
    if edits != [] {
      TurnHolds(c, which, edits[0], w);
      TurnsHold(Turn(c, which, edits[0]), which, edits[1..], w);
    }
  }

  lemma {:induction false} AddedStays<Event>(c: Cursor, which: Option<Event>, edits: seq<Edit<Event>>, i: nat, cb: Listener, w: Listener)
    requires Holds(c, which, w) && Anchored(which, edits, w) && NoneRemoves(which, edits, cb)
    requires i < |edits| && Adds(which, edits[i], cb)
    ensures var d := Turns(c, which, edits); Done(d, cb) || Waiting(d, cb)
    decreases |edits|
  {
    var d := Turn(c, which, edits[0]);
    TurnHolds(c, which, edits[0], w);
    if i == 0 {
      TurnSplits(c, which, edits[0], cb);
      if !Done(c, cb) {
        AddedWaits(c, which, edits[0], cb);
      }
      TurnsSplit(d, which, edits[1..], cb);
    } else {
      AddedStays(d, which, edits[1..], i - 1, cb, w);
    }
  }

  ghost predicate AnchoredThroughout<Event>(which: Option<Event>, reactions: seq<seq<Edit<Event>>>, w: Listener) {
    forall k :: 0 <= k < |reactions| ==> Anchored(which, reactions[k], w)
  }

  lemma TurnOfAnother<Event>(c: Cursor, which: Option<Event>, edits: seq<Edit<Event>>, cb: Listener, w: Listener)
    requires Holds(c, which, w) && Anchored(which, edits, w) && c.at < |c.ls|
    requires !Done(c, cb) && !Waiting(c, cb)
    ensures var d := AfterTurn(c, which, edits); Holds(d, which, w) && !Done(d, cb) && c.ls[c.at] != cb
  {
    NextTurn(c, cb);
    var d := c.(at := c.at + 1);
    TurnsHold(d, which, edits, w);
    TurnsSplit(d, which, edits, cb);
  }

  /** A callback that another one subscribes while the loop goes on gets exactly one turn in it, unless it is
      removed. (Edit `i` of the k-th callback subscribes it.) */
  lemma {:induction false} AddedGetsOneTurn<Event>(c: Cursor, which: Option<Event>, reactions: seq<seq<Edit<Event>>>, k: nat, i: nat, cb: Listener, w: Listener)
    requires Holds(c, which, w) && AnchoredThroughout(which, reactions, w) && NeverRemoves(which, reactions, cb)
    requires !Done(c, cb) && !Waiting(c, cb) && k < |Visited(c, which, reactions)|
    requires k < |reactions| && i < |reactions[k]| && Adds(which, reactions[k][i], cb)
    ensures multiset(Visited(c, which, reactions))[cb] == 1
    decreases k
  {
    var e, left := AfterTurn(c, which, reactions[0]), ReactionsFrom(reactions, 1);
    NeverSplits(which, reactions, cb);
    TurnOfAnother(c, which, reactions[0], cb, w);
    CountFirst(c.ls[c.at], Visited(e, which, left), cb);
    if k == 0 {
      AddedStays(c.(at := c.at + 1), which, reactions[0], i, cb, w);
    }
    if Waiting(e, cb) {
      StayingGetsOneTurn(e, which, left, cb);
    } else {
      assert left[k - 1] == reactions[k];
      AddedGetsOneTurn(e, which, left, k - 1, i, cb, w);
    }
  }

  lemma {:induction false} RemovedIsGone<Event>(c: Cursor, which: Option<Event>, edits: seq<Edit<Event>>, i: nat, cb: Listener, w: Listener)
    requires Holds(c, which, w) && Anchored(which, edits, w) && NoneAdds(which, edits, cb)
    requires i < |edits| && Removes(which, edits[i], cb)
    ensures !Waiting(Turns(c, which, edits), cb)
    decreases |edits|
  {
    var d := Turn(c, which, edits[0]);
    TurnHolds(c, which, edits[0], w);
    if i == 0 {
      RemovedWaitsNoMore(c, which, edits[0], cb);
      TurnsSplit(d, which, edits[1..], cb);
    } else {
      RemovedIsGone(d, which, edits[1..], i - 1, cb, w);
    }
  }

  lemma NeverAddsSplits<Event>(which: Option<Event>, reactions: seq<seq<Edit<Event>>>, cb: Listener)
    requires NeverAdds(which, reactions, cb)
    ensures NoneAdds(which, ReactionAt(reactions, 0), cb) && NeverAdds(which, ReactionsFrom(reactions, 1), cb)
  {
  }

  /** A callback that another one removes before its turn gets none, unless it is subscribed again. (Edit `i`
      of the k-th callback removes it.) */
  lemma {:induction false} RemovedGetsNoTurn<Event>(c: Cursor, which: Option<Event>, reactions: seq<seq<Edit<Event>>>, k: nat, i: nat, cb: Listener, w: Listener)
    requires Holds(c, which, w) && AnchoredThroughout(which, reactions, w) && NeverAdds(which, reactions, cb)
    requires k < |Visited(c, which, reactions)| && cb !in Visited(c, which, reactions)[..k + 1]
    requires k < |reactions| && i < |reactions[k]| && Removes(which, reactions[k][i], cb)
    ensures cb !in Visited(c, which, reactions)
    decreases k
  {
    var e, left := AfterTurn(c, which, reactions[0]), ReactionsFrom(reactions, 1);
    NeverAddsSplits(which, reactions, cb);
    NextTurn(c, w);
    TurnsHold(c.(at := c.at + 1), which, reactions[0], w);
    assert Visited(c, which, reactions)[0] == c.ls[c.at];
    if k == 0 {
      RemovedIsGone(c.(at := c.at + 1), which, reactions[0], i, cb, w);
      AbsentGetsNoTurn(e, which, left, cb);
    } else {
      assert left[k - 1] == reactions[k];
      assert Visited(c, which, reactions)[..k + 1] == [c.ls[c.at]] + Visited(e, which, left)[..k];
      RemovedGetsNoTurn(e, which, left, k - 1, i, cb, w);
    }
  }

  // ---------- The lists after edits ----------

  function OwnAfter<Event(==)>(ls: seq<Listener>, event: Event, edit: Edit<Event>): seq<Listener> {
    match edit
    case Subscribe(e, cb) => if e == event then Added(ls, cb) else ls
    case Unsubscribe(e, cb) => if e == event then Removed(ls, cb) else ls
    case ClearAll => []
    case _ => ls
  }

  function AnyAfter<Event>(ls: seq<Listener>, edit: Edit<Event>): seq<Listener> {
    match edit
    case SubscribeAny(cb) => Added(ls, cb)
    case UnsubscribeAny(cb) => Removed(ls, cb)
    case ClearAll => []
    case _ => ls
  }

  function OwnAfterAll<Event(==)>(ls: seq<Listener>, event: Event, edits: seq<Edit<Event>>): seq<Listener>
    decreases |edits|
  {
    if edits == [] then ls else OwnAfterAll(OwnAfter(ls, event, edits[0]), event, edits[1..])
  }

  function AnyAfterAll<Event>(ls: seq<Listener>, edits: seq<Edit<Event>>): seq<Listener>
    decreases |edits|
  {
    if edits == [] then ls else AnyAfterAll(AnyAfter(ls, edits[0]), edits[1..])
  }

  function Own<Event(==)>(listeners: map<Event, seq<Listener>>, event: Event): seq<Listener> {
    if event in listeners then listeners[event] else []
  }

  /** The emitter's lists before and after some edits. */
  ghost predicate Edited<Event(!new)>(was: map<Event, seq<Listener>>, wasAny: seq<Listener>,
                                      now: map<Event, seq<Listener>>, nowAny: seq<Listener>, edits: seq<Edit<Event>>) {
    nowAny == AnyAfterAll(wasAny, edits) && forall e :: Own(now, e) == OwnAfterAll(Own(was, e), e, edits)
  }

  lemma EditedFirst<Event(!new)>(was: map<Event, seq<Listener>>, wasAny: seq<Listener>, mid: map<Event, seq<Listener>>, midAny: seq<Listener>,
                                 now: map<Event, seq<Listener>>, nowAny: seq<Listener>, edits: seq<Edit<Event>>)
    requires edits != [] && midAny == AnyAfter(wasAny, edits[0]) && Edited(mid, midAny, now, nowAny, edits[1..])
    requires forall e :: Own(mid, e) == OwnAfter(Own(was, e), e, edits[0])
    ensures Edited(was, wasAny, now, nowAny, edits)
  {
  }

  /** The lists when the first n callbacks have had their turn. */
  function OwnLater<Event(==)>(ls: seq<Listener>, event: Event, reactions: seq<seq<Edit<Event>>>, n: nat): seq<Listener> {
    if n == 0 then ls else OwnAfterAll(OwnLater(ls, event, reactions, n - 1), event, ReactionAt(reactions, n - 1))
  }

  function AnyLater<Event>(ls: seq<Listener>, reactions: seq<seq<Edit<Event>>>, n: nat): seq<Listener> {
    if n == 0 then ls else AnyAfterAll(AnyLater(ls, reactions, n - 1), ReactionAt(reactions, n - 1))
  }

  /** The emitter's lists before an event and when n callbacks have had their turn. */
  ghost predicate Reacted<Event(!new)>(was: map<Event, seq<Listener>>, wasAny: seq<Listener>,
                                       now: map<Event, seq<Listener>>, nowAny: seq<Listener>, reactions: seq<seq<Edit<Event>>>, n: nat) {
    nowAny == AnyLater(wasAny, reactions, n) && forall e :: Own(now, e) == OwnLater(Own(was, e), e, reactions, n)
  }

  lemma ReactedNext<Event(!new)>(was: map<Event, seq<Listener>>, wasAny: seq<Listener>, now: map<Event, seq<Listener>>, nowAny: seq<Listener>,
                                 next: map<Event, seq<Listener>>, nextAny: seq<Listener>, reactions: seq<seq<Edit<Event>>>, n: nat)
    requires Reacted(was, wasAny, now, nowAny, reactions, n) && Edited(now, nowAny, next, nextAny, ReactionAt(reactions, n))
    ensures Reacted(was, wasAny, next, nextAny, reactions, n + 1)
  {
  }

  /** An emitted event goes through the listeners for all events, then through its own as those left them. */
  function Deliveries<Event(==)>(event: Event, any: seq<Listener>, own: seq<Listener>, reactions: seq<seq<Edit<Event>>>): seq<Listener> {
    var first := Visited(Cursor(any, 0, true), None, reactions);
    first + Visited(Cursor(OwnLater(own, event, reactions, |first|), 0, true), Some(event), ReactionsFrom(reactions, |first|))
  }

  lemma ReactionsFollow<Event>(reactions: seq<seq<Edit<Event>>>, k: nat)
    ensures ReactionAt(ReactionsFrom(reactions, k), 0) == ReactionAt(reactions, k)
    ensures ReactionsFrom(ReactionsFrom(reactions, k), 1) == ReactionsFrom(reactions, k + 1)
    ensures ReactionsFrom(reactions, k) == [] <==> k >= |reactions|
    ensures ReactionsFrom(reactions, k) != [] ==> |ReactionsFrom(reactions, k + 1)| < |ReactionsFrom(reactions, k)|
  {
  }

  /** With what is still to come, the loop delivers `all`. */
  ghost predicate Delivers<Event>(c: Cursor, which: Option<Event>, reactions: seq<seq<Edit<Event>>>, delivered: seq<Listener>, all: seq<Listener>) {
    delivered + Visited(c, which, ReactionsFrom(reactions, |delivered|)) == all
  }

  /** One turn of the loop. */
  lemma VisitStep<Event>(c: Cursor, which: Option<Event>, reactions: seq<seq<Edit<Event>>>, delivered: seq<Listener>, all: seq<Listener>)
    requires c.at < |c.ls| && Delivers(c, which, reactions, delivered, all)
    ensures Delivers(AfterTurn(c, which, ReactionAt(reactions, |delivered|)), which, reactions, delivered + [c.ls[c.at]], all)
  {
    ReactionsFollow(reactions, |delivered|);
    var d := AfterTurn(c, which, ReactionAt(reactions, |delivered|));
    Associate(delivered, [c.ls[c.at]], Visited(d, which, ReactionsFrom(reactions, |delivered| + 1)));
  }

  lemma {:induction false} AnyTurnsFollow<Event>(c: Cursor, edits: seq<Edit<Event>>)
    ensures Turns(c, None, edits).ls == AnyAfterAll(c.ls, edits)
    decreases |edits|
  {
    if edits != [] {
      AnyTurnsFollow(Turn(c, None, edits[0]), edits[1..]);
    }
  }

  /** While attached the loop runs over the list the emitter holds. */
  lemma {:induction false} OwnTurnsFollow<Event>(c: Cursor, event: Event, edits: seq<Edit<Event>>, ls: seq<Listener>)
    requires c.attached ==> ls == c.ls && ls != []
    ensures var d := Turns(c, Some(event), edits);
            d.attached ==> d.ls == OwnAfterAll(ls, event, edits) && d.ls != []
    decreases |edits|
  {
    if edits != [] {
      OwnTurnsFollow(Turn(c, Some(event), edits[0]), event, edits[1..], OwnAfter(ls, event, edits[0]));
    }
  }

  lemma {:induction false} QuietVisit<Event>(c: Cursor, which: Option<Event>)
    requires c.at <= |c.ls|
    ensures Visited(c, which, []) == c.ls[c.at..]
    decreases |c.ls| - c.at
  {
    if c.at < |c.ls| {
      QuietVisit(c.(at := c.at + 1), which);
    }
  }

  /** Without edits: the listeners for all events first, then the event's own, each in registration order. */
  lemma QuietDeliveries<Event>(event: Event, any: seq<Listener>, own: seq<Listener>)
    ensures Deliveries(event, any, own, []) == any + own
  {
    QuietVisit(Cursor(any, 0, true), Option<Event>.None);
    QuietLater(own, event, |any|);
    QuietVisit(Cursor(own, 0, true), Some(event));
    assert any[0..] == any && own[0..] == own;
  }

  lemma {:induction false} QuietLater<Event>(own: seq<Listener>, event: Event, n: nat)
    ensures OwnLater(own, event, [], n) == own
  {
    if n > 0 {
      QuietLater(own, event, n - 1);
    }
  }

  class TypedEmitter<Event(==,!new)> {
    var listeners: map<Event, seq<Listener>>
    var anyListeners: seq<Listener>

    ghost predicate Valid()
      reads this
    {
      && Distinct(anyListeners)
      && forall e :: e in listeners ==> Distinct(listeners[e]) && listeners[e] != []
    }

    ghost function For(event: Event): seq<Listener>
      reads this
    {
      Own(listeners, event)
    }

    constructor ()
      ensures Valid() && listeners == map[] && anyListeners == []
    {
      listeners, anyListeners := map[], [];
    }

    method On(event: Event, cb: Listener)
      requires Valid()
      modifies `listeners
      ensures Valid() && For(event) == Added(old(For(event)), cb)
      ensures forall e :: e != event ==> Own(listeners, e) == Own(old(listeners), e)
    {
      var set_ := if event in listeners then listeners[event] else [];
      if cb !in set_ {
        set_ := set_ + [cb];
      }
      listeners := listeners[event := set_];
    }

    method Off(event: Event, cb: Listener)
      requires Valid()
      modifies `listeners
      ensures Valid() && For(event) == Removed(old(For(event)), cb)
      ensures forall e :: e != event ==> Own(listeners, e) == Own(old(listeners), e)
    {
      if event in listeners {
        var left := Removed(listeners[event], cb);
        RemovedMembers(listeners[event], cb);
        if left == [] {
          listeners := listeners - {event};
        } else {
          listeners := listeners[event := left];
        }
      }
    }

    method OnAny(cb: Listener)
      requires Valid()
      modifies `anyListeners
      ensures Valid() && anyListeners == Added(old(anyListeners), cb)
    {
      if cb !in anyListeners {
        anyListeners := anyListeners + [cb];
      }
    }

    method OffAny(cb: Listener)
      requires Valid()
      modifies `anyListeners
      ensures Valid() && anyListeners == Removed(old(anyListeners), cb)
    {
      RemovedMembers(anyListeners, cb);
      anyListeners := Removed(anyListeners, cb);
    }

    method Apply(edit: Edit<Event>)
      requires Valid()
      modifies this
      ensures Valid() && anyListeners == AnyAfter(old(anyListeners), edit)
      ensures forall e :: Own(listeners, e) == OwnAfter(Own(old(listeners), e), e, edit)
    {
      match edit {
        case Subscribe(event, cb) => On(event, cb);
        case Unsubscribe(event, cb) => Off(event, cb);
        case SubscribeAny(cb) => OnAny(cb);
        case UnsubscribeAny(cb) => OffAny(cb);
        case ClearAll => Clear();
      }
    }

    /** What a callback does to the emitter, in order. */
    method React(edits: seq<Edit<Event>>)
      requires Valid()
      modifies this
      ensures Valid() && Edited(old(listeners), old(anyListeners), listeners, anyListeners, edits)
      decreases |edits|
    {
      if edits != [] {
        Apply(edits[0]);
        ghost var mid, midAny := listeners, anyListeners;
        React(edits[1..]);
        EditedFirst(old(listeners), old(anyListeners), mid, midAny, listeners, anyListeners, edits);
      }
    }

    /** The loop runs over the list the emitter holds, as long as it holds that. */
    ghost predicate Follows(c: Cursor, which: Option<Event>)
      reads this
    {
      if which.None? then c.ls == anyListeners else c.attached ==> c.ls == Own(listeners, which.value) && c.ls != []
    }

    /** A callback makes some edits, and the loop sees them. */
    method ReactInLoop(c: Cursor, which: Option<Event>, edits: seq<Edit<Event>>) returns (d: Cursor)
      requires Valid() && Follows(c, which)
      modifies this
      ensures Valid() && Edited(old(listeners), old(anyListeners), listeners, anyListeners, edits)
      ensures Follows(d, which) && d == AfterTurn(c, which, edits)
    {
      var c1 := c.(at := c.at + 1);
      if which.None? {
        AnyTurnsFollow(c1, edits);
      } else {
        OwnTurnsFollow(c1, which.value, edits, Own(listeners, which.value));
      }
      React(edits);
      d := AfterTurn(c, which, edits);
    }

    /** The next callback has its turn; `all` is what the loop delivers in the end. */
    method TakeTurn(c: Cursor, which: Option<Event>, reactions: seq<seq<Edit<Event>>>, delivered: seq<Listener>,
                    ghost all: seq<Listener>, ghost was: map<Event, seq<Listener>>, ghost wasAny: seq<Listener>)
        returns (d: Cursor, now: seq<Listener>)
      requires Valid() && Follows(c, which) && c.at < |c.ls|
      requires Reacted(was, wasAny, listeners, anyListeners, reactions, |delivered|)
      requires Delivers(c, which, reactions, delivered, all)
      modifies this
      ensures Valid() && Follows(d, which) && |now| == |delivered| + 1
      ensures Reacted(was, wasAny, listeners, anyListeners, reactions, |now|)
      ensures Delivers(d, which, reactions, now, all)
      ensures ReactionsFrom(reactions, |delivered|) == [] ==> d == c.(at := c.at + 1)
    {
      var edits := ReactionAt(reactions, |delivered|);
      VisitStep(c, which, reactions, delivered, all);
      ReactionsFollow(reactions, |delivered|);
      ghost var ls, any := listeners, anyListeners;
      d := ReactInLoop(c, which, edits);
      ReactedNext(was, wasAny, ls, any, listeners, anyListeners, reactions, |delivered|);
      now := delivered + [c.ls[c.at]];
    }

    /** Delivers an event while callbacks subscribe and unsubscribe: `reactions[k]` is what the k-th callback
        called does to the emitter. */
    method Emit(event: Event, reactions: seq<seq<Edit<Event>>>) returns (delivered: seq<Listener>)
      requires Valid()
      modifies this
      ensures Valid() && delivered == Deliveries(event, old(anyListeners), old(For(event)), reactions)
      ensures Reacted(old(listeners), old(anyListeners), listeners, anyListeners, reactions, |delivered|)
    {
      delivered := EmitToAny(reactions);
      if event !in listeners {
        return;
      }
      delivered := EmitToOwn(event, reactions, delivered, old(listeners), old(anyListeners));
    }

    /** The loop over the listeners for all events. */
    method EmitToAny(reactions: seq<seq<Edit<Event>>>) returns (delivered: seq<Listener>)
      requires Valid()
      modifies this
      ensures Valid() && delivered == Visited(Cursor(old(anyListeners), 0, true), Option<Event>.None, reactions)
      ensures Reacted(old(listeners), old(anyListeners), listeners, anyListeners, reactions, |delivered|)
    {
      delivered := [];
      var c := Cursor(anyListeners, 0, true);
      ghost var all := Visited(c, Option<Event>.None, reactions);
      while c.at < |c.ls|
        invariant Valid() && Follows(c, None)
        invariant Reacted(old(listeners), old(anyListeners), listeners, anyListeners, reactions, |delivered|)
        invariant Delivers(c, Option<Event>.None, reactions, delivered, all)
        decreases |ReactionsFrom(reactions, |delivered|)|, |c.ls| - c.at
      {
        ReactionsFollow(reactions, |delivered|);
        c, delivered := TakeTurn(c, None, reactions, delivered, all, old(listeners), old(anyListeners));
      }
    }

    /** The loop over the listeners for one event, as the emitter holds them when the loop begins. */
    method EmitToOwn(event: Event, reactions: seq<seq<Edit<Event>>>, before: seq<Listener>,
                     ghost was: map<Event, seq<Listener>>, ghost wasAny: seq<Listener>)
        returns (delivered: seq<Listener>)
      requires Valid() && event in listeners
      requires Reacted(was, wasAny, listeners, anyListeners, reactions, |before|)
      modifies this
      ensures Valid() && Reacted(was, wasAny, listeners, anyListeners, reactions, |delivered|)
      ensures delivered == before + Visited(Cursor(old(For(event)), 0, true), Some(event), ReactionsFrom(reactions, |before|))
    {
      delivered := before;
      var c := Cursor(listeners[event], 0, true);
      ghost var all := before + Visited(c, Some(event), ReactionsFrom(reactions, |before|));
      while c.at < |c.ls|
        invariant Valid() && Follows(c, Some(event))
        invariant Reacted(was, wasAny, listeners, anyListeners, reactions, |delivered|)
        invariant Delivers(c, Some(event), reactions, delivered, all)
        decreases |ReactionsFrom(reactions, |delivered|)|, |c.ls| - c.at
      {
        ReactionsFollow(reactions, |delivered|);
        c, delivered := TakeTurn(c, Some(event), reactions, delivered, all, was, wasAny);
      }
    }

    method Clear()
      modifies this
      ensures Valid() && listeners == map[] && anyListeners == []
    {
      listeners, anyListeners := map[], [];
    }
  }
}
