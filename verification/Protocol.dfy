/**
  The server's per-connection select loop (`handle_connection`, `guard_dispatch`, `is_bulk_payload` in
  `crates/daemon/src/server.rs`), as steps under any interleaving.

  Each arm of the select is an action; which enabled action runs next is arbitrary, which includes
  the biased order of the source.  A send may fail at any time.
 */
module Protocol {
  import opened Collections

  datatype MemoryOp = Subscribe(replaySnapshot: bool) | StoreBatch | DeleteMany | BatchUpdate | OtherMemoryOp

  datatype DiagnosticsOp = Doctor | RecentTraces | OtherDiagnosticsOp

  // A payload that is no request is answered too, with an error.
  datatype Payload = Memory(mem: MemoryOp) | Lifecycle | Diagnostics(diag: DiagnosticsOp) | UnknownBucket | NotARequest

  datatype Message = Message(id: nat, payload: Payload)

  // `request` tells, for the proofs, which accepted message a frame answers; it is not on the wire.
  datatype Frame =
    | Reply(id: nat, request: nat)
    | Subscribed(id: nat, request: nat)
    | EventFrame
    // A payload that is neither a response nor an event, which the server never sends.
    | Stray(id: nat)

  const REQUEST_CONCURRENCY_LIMIT: nat := 64
  const BULK_CONCURRENCY_LIMIT: nat := 8

  predicate IsSubscribe(p: Payload) {
    p.Memory? && p.mem.Subscribe?
  }

  predicate IsBulkPayload(p: Payload) {
    || p.Lifecycle?
    || (p.Diagnostics? && (p.diag.Doctor? || p.diag.RecentTraces?))
    || (p.Memory? && (p.mem.StoreBatch? || p.mem.DeleteMany? || p.mem.BatchUpdate?))
  }

  // A dispatched request; `done` once its handler returned or panicked, which frees its permit.
  datatype Task = Task(id: nat, bulk: bool, done: bool)

  // `Drained`: the check at the end of the loop body; `Broken`: any other way out.
  datatype Phase = Looping | Drained | Broken

  datatype Conn = Conn(
    phase: Phase,
    accepting: bool,
    canSend: bool,
    shutdown: bool,
    subscribed: bool,
    waiting: Option<nat>,
    tasks: map<nat, Task>,
    accepted: seq<Message>,
    out: seq<Frame>)

  const FRESH: Conn := Conn(Looping, true, true, false, false, None, map[], [], [])

  // The check at the bottom of the loop body.
  function LoopEnd(c: Conn): Conn {
    if !c.accepting && c.tasks == map[] then c.(phase := Drained) else c
  }

  // Leaving the loop drops the running dispatches.
  function Break(c: Conn): Conn {
    c.(phase := Broken, tasks := map[], waiting := None)
  }

  function Send(c: Conn, f: Frame): Conn {
    c.(out := c.out + [f])
  }

  datatype Action =
    | Read(msg: Message, sent: bool, snapshot: bool)
    | Acquire
    | Finish(request: nat)
    | Join(request: nat, sent: bool)
    | Publish(sent: bool)
    | Shutdown
    | Disconnect
    | EventsClosed

  // The loop waits at its select, not inline for a permit.
  predicate AtSelect(c: Conn) {
    c.phase == Looping && c.waiting.None?
  }

  predicate Enabled(c: Conn, a: Action) {
    match a
    case Read(_, _, _) => AtSelect(c) && c.accepting
    case Acquire => c.phase == Looping && c.waiting.Some?
    case Finish(n) => c.phase == Looping && n in c.tasks && !c.tasks[n].done
    case Join(n, _) => AtSelect(c) && n in c.tasks && c.tasks[n].done
    case Publish(_) => AtSelect(c) && c.subscribed
    case Shutdown => AtSelect(c) && !c.shutdown
    case Disconnect => AtSelect(c) && c.accepting
    case EventsClosed => AtSelect(c) && c.subscribed
  }

  function ReadMessage(c: Conn, msg: Message, sent: bool, snapshot: bool): Conn {
    var n := |c.accepted|;
    var c1 := c.(accepted := c.accepted + [msg]);
    if !IsSubscribe(msg.payload) then c1.(waiting := Some(n))
    else
      var c2 := c1.(subscribed := true);
      if !sent then Break(c2)
      else
        var c3 := Send(c2, Subscribed(msg.id, n));
        if msg.payload.mem.replaySnapshot && snapshot then Send(c3, EventFrame) else c3
  }

  function JoinTask(c: Conn, n: nat, sent: bool): Conn
    requires n in c.tasks
  {
    var c1 := c.(tasks := c.tasks - {n});
    LoopEnd(if !c.canSend then c1
            else if sent then Send(c1, Reply(c.tasks[n].id, n))
            else c1.(canSend := false, accepting := false))
  }

  function Act(c: Conn, a: Action): Conn
    requires Enabled(c, a) && (c.waiting.Some? ==> c.waiting.value < |c.accepted|)
  {
    match a
    case Read(msg, sent, snapshot) => ReadMessage(c, msg, sent, snapshot)
    case Acquire =>
      var n := c.waiting.value;
      var msg := c.accepted[n];
      c.(waiting := None, tasks := c.tasks[n := Task(msg.id, IsBulkPayload(msg.payload), false)])
    case Finish(n) => c.(tasks := c.tasks[n := c.tasks[n].(done := true)])
    case Join(n, sent) => JoinTask(c, n, sent)
    case Publish(sent) => if sent then LoopEnd(Send(c, EventFrame)) else Break(c)
    case Shutdown => LoopEnd(c.(shutdown := true, accepting := false))
    case Disconnect => Break(c)
    case EventsClosed => Break(c)
  }

  // -------------------------------------------------------------------------
  // One connection
  // -------------------------------------------------------------------------

  predicate IsAnswer(f: Frame) {
    f.Reply? || f.Subscribed?
  }

  ghost predicate Answered(out: seq<Frame>, n: nat) {
    exists i :: 0 <= i < |out| && IsAnswer(out[i]) && out[i].request == n
  }

  // Whatever is no event is the answer to a request, with its id, and no request is answered twice.
  ghost predicate AnswersMatch(c: Conn) {
    && (forall i :: 0 <= i < |c.out| && !c.out[i].EventFrame? ==>
          IsAnswer(c.out[i]) && c.out[i].request < |c.accepted| && c.out[i].id == c.accepted[c.out[i].request].id)
    && (forall i, j :: 0 <= i < j < |c.out| && IsAnswer(c.out[i]) && IsAnswer(c.out[j]) ==>
          c.out[i].request != c.out[j].request)
  }

  // A request in progress is one of the accepted ones and has not been answered.
  ghost predicate WorkMatches(c: Conn) {
    && (forall n :: n in c.tasks ==> n < |c.accepted| && !Answered(c.out, n) && c.tasks[n].id == c.accepted[n].id)
    && (c.waiting.Some? ==> c.waiting.value < |c.accepted| && c.waiting.value !in c.tasks && !Answered(c.out, c.waiting.value))
  }

  // Nothing is lost while sends work: an accepted request is waiting, running or answered.
  ghost predicate NothingLost(c: Conn) {
    c.canSend && c.phase != Broken ==>
      forall n :: 0 <= n < |c.accepted| ==> Answered(c.out, n) || n in c.tasks || c.waiting == Some(n)
  }

  // Events come after a subscription was confirmed.
  ghost predicate EventsAfterSubscribed(c: Conn) {
    && (forall i :: 0 <= i < |c.out| && c.out[i].EventFrame? ==> exists j :: 0 <= j < i && c.out[j].Subscribed?)
    && (c.subscribed && c.phase != Broken ==> exists j :: 0 <= j < |c.out| && c.out[j].Subscribed?)
  }

  ghost predicate FlagsMatch(c: Conn) {
    && (c.accepting ==> c.canSend && !c.shutdown)
    && (c.phase == Broken ==> c.tasks == map[])
    && (c.phase == Drained ==> c.tasks == map[] && c.waiting.None? && !c.accepting)
    && (c.phase == Looping && c.waiting.None? && !c.accepting ==> c.tasks != map[])
  }

  ghost predicate Sound(c: Conn) {
    AnswersMatch(c) && WorkMatches(c) && NothingLost(c) && EventsAfterSubscribed(c) && FlagsMatch(c)
  }

  lemma AnswersAfterSend(out: seq<Frame>, f: Frame)
    ensures forall n :: Answered(out + [f], n) <==> Answered(out, n) || (IsAnswer(f) && f.request == n)
  {
    forall n
      ensures Answered(out + [f], n) <==> Answered(out, n) || (IsAnswer(f) && f.request == n)
    {
      if Answered(out, n) {
        var i :| 0 <= i < |out| && IsAnswer(out[i]) && out[i].request == n;
        assert (out + [f])[i] == out[i];
      }
      if IsAnswer(f) && f.request == n {
        assert (out + [f])[|out|] == f;
      }
    }
  }

  lemma SubscriptionStays(out: seq<Frame>, f: Frame)
    requires exists j :: 0 <= j < |out| && out[j].Subscribed?
    ensures exists j :: 0 <= j < |out + [f]| && (out + [f])[j].Subscribed?
  {
    var j :| 0 <= j < |out| && out[j].Subscribed?;
    assert (out + [f])[j].Subscribed?;
  }

  // Sending the answer of request `n` that is no longer in progress.
  lemma SendAnswer(c: Conn, f: Frame)
    requires AnswersMatch(c) && EventsAfterSubscribed(c) && IsAnswer(f)
    requires f.request < |c.accepted| && f.id == c.accepted[f.request].id && !Answered(c.out, f.request)
    ensures AnswersMatch(Send(c, f)) && EventsAfterSubscribed(Send(c, f))
  {
    var d := Send(c, f);
    forall i | 0 <= i < |c.out| && IsAnswer(c.out[i])
      ensures c.out[i].request != f.request
    {
      assert d.out[i] == c.out[i];
    }
    EventsStay(c, f);
  }

  lemma EventsStay(c: Conn, f: Frame)
    requires EventsAfterSubscribed(c) && (f.EventFrame? ==> exists j :: 0 <= j < |c.out| && c.out[j].Subscribed?)
    ensures EventsAfterSubscribed(Send(c, f))
  {
    var d := Send(c, f);
    forall i | 0 <= i < |d.out| && d.out[i].EventFrame?
      ensures exists j :: 0 <= j < i && d.out[j].Subscribed?
    {
      if i < |c.out| {
        assert c.out[i].EventFrame?;
        var j :| 0 <= j < i && c.out[j].Subscribed?;
        assert d.out[j].Subscribed?;
      } else {
        var j :| 0 <= j < |c.out| && c.out[j].Subscribed?;
        assert d.out[j].Subscribed?;
      }
    }
    if exists j :: 0 <= j < |c.out| && c.out[j].Subscribed? {
      SubscriptionStays(c.out, f);
    }
  }

  lemma BreakIsSound(c: Conn)
    requires AnswersMatch(c) && EventsAfterSubscribed(c.(subscribed := false)) && (c.accepting ==> c.canSend && !c.shutdown)
    ensures Sound(Break(c))
  {
  }

  lemma SubscribeIsSound(c: Conn, msg: Message)
    requires Sound(c) && AtSelect(c) && c.accepting
    ensures Sound(Send(c.(accepted := c.accepted + [msg], subscribed := true), Subscribed(msg.id, |c.accepted|)))
  {
    var (n, c1) := (|c.accepted|, c.(accepted := c.accepted + [msg]));
    var f := Subscribed(msg.id, n);
    assert !Answered(c.out, n);
    SendAnswer(c1, f);
    AnswersAfterSend(c.out, f);
    assert Send(c1, f).out[|c.out|].Subscribed?;
  }

  lemma ReadIsSound(c: Conn, msg: Message, sent: bool, snapshot: bool)
    requires Sound(c) && AtSelect(c) && c.accepting
    ensures Sound(ReadMessage(c, msg, sent, snapshot))
  {
    var n := |c.accepted|;
    assert !Answered(c.out, n);
    var c1 := c.(accepted := c.accepted + [msg]);
    assert AnswersMatch(c1);
    if IsSubscribe(msg.payload) {
      var c2 := c1.(subscribed := true);
      if !sent {
        BreakIsSound(c2);
      } else {
        var c3 := Send(c2, Subscribed(msg.id, n));
        SubscribeIsSound(c, msg);
        if msg.payload.mem.replaySnapshot && snapshot {
          PublishIsSound(c3);
        }
      }
    }
  }

  lemma PublishIsSound(c: Conn)
    requires Sound(c) && c.subscribed && c.phase == Looping
    ensures Sound(Send(c, EventFrame))
  {
    EventsStay(c, EventFrame);
    AnswersAfterSend(c.out, EventFrame);
    var d := Send(c, EventFrame);
    assert forall i :: 0 <= i < |d.out| && IsAnswer(d.out[i]) ==> i < |c.out| && d.out[i] == c.out[i];
  }

  lemma LoopEndIsSound(c: Conn)
    requires AnswersMatch(c) && WorkMatches(c) && NothingLost(c) && EventsAfterSubscribed(c)
    requires c.phase == Looping && c.waiting.None? && (c.accepting ==> c.canSend && !c.shutdown)
    ensures Sound(LoopEnd(c))
  {
  }

  lemma ReplyIsSound(c: Conn, n: nat)
    requires Sound(c) && AtSelect(c) && n in c.tasks
    ensures Sound(LoopEnd(Send(c.(tasks := c.tasks - {n}), Reply(c.tasks[n].id, n))))
  {
    var c1 := c.(tasks := c.tasks - {n});
    var f := Reply(c.tasks[n].id, n);
    SendAnswer(c1, f);
    AnswersAfterSend(c.out, f);
    LoopEndIsSound(Send(c1, f));
  }

  lemma LostReplyIsSound(c: Conn, n: nat)
    requires Sound(c) && AtSelect(c) && n in c.tasks
    ensures Sound(LoopEnd(c.(tasks := c.tasks - {n}, canSend := false, accepting := false)))
    ensures !c.canSend ==> Sound(LoopEnd(c.(tasks := c.tasks - {n})))
  {
    LoopEndIsSound(c.(tasks := c.tasks - {n}, canSend := false, accepting := false));
    if !c.canSend {
      LoopEndIsSound(c.(tasks := c.tasks - {n}));
    }
  }

  lemma JoinIsSound(c: Conn, n: nat, sent: bool)
    requires Sound(c) && AtSelect(c) && n in c.tasks && c.tasks[n].done
    ensures Sound(JoinTask(c, n, sent))
  {
    if c.canSend && sent {
      ReplyIsSound(c, n);
    } else {
      LostReplyIsSound(c, n);
    }
  }

  lemma AcquireIsSound(c: Conn)
    requires Sound(c) && Enabled(c, Acquire)
    ensures Sound(Act(c, Acquire))
  {
  }

  lemma FinishIsSound(c: Conn, n: nat)
    requires Sound(c) && Enabled(c, Finish(n))
    ensures Sound(Act(c, Finish(n)))
  {
  }

  /** Every arm of the loop keeps the connection sound. */
  lemma ActIsSound(c: Conn, a: Action)
    requires Sound(c) && Enabled(c, a)
    ensures Sound(Act(c, a))
  {
    match a
    case Read(msg, sent, snapshot) => ReadIsSound(c, msg, sent, snapshot);
    case Acquire => AcquireIsSound(c);
    case Finish(n) => FinishIsSound(c, n);
    case Join(n, sent) => JoinIsSound(c, n, sent);
    case Publish(sent) =>
      if sent {
        PublishIsSound(c);
        LoopEndIsSound(Send(c, EventFrame));
      } else {
        BreakIsSound(c);
      }
    case Shutdown => LoopEndIsSound(c.(shutdown := true, accepting := false));
    case Disconnect => BreakIsSound(c);
    case EventsClosed => BreakIsSound(c);
  }

  // -------------------------------------------------------------------------
  // All connections of a daemon, sharing two semaphores
  // -------------------------------------------------------------------------

  // The permits currently held, by connection and request.
  datatype World = World(conns: map<nat, Conn>, hot: set<(nat, nat)>, bulk: set<(nat, nat)>)

  datatype Event = Connect(conn: nat) | On(conn: nat, action: Action)

  function Without(held: set<(nat, nat)>, c: nat): set<(nat, nat)> {
    set p | p in held && p.0 != c
  }

  // Acquiring needs a free permit; finishing returns it; leaving the loop drops all of its tasks.
  ghost predicate Step(w: World, e: Event, w': World) {
    match e
    case Connect(k) => k !in w.conns && w' == w.(conns := w.conns[k := FRESH])
    case On(k, a) =>
      && k in w.conns && Enabled(w.conns[k], a)
      && (w.conns[k].waiting.Some? ==> w.conns[k].waiting.value < |w.conns[k].accepted|)
      && var c := w.conns[k];
         var c' := Act(c, a);
         && w'.conns == w.conns[k := c']
         && (match a
             case Acquire =>
               var bulk := IsBulkPayload(c.accepted[c.waiting.value].payload);
               && (if bulk then |w.bulk| < BULK_CONCURRENCY_LIMIT else |w.hot| < REQUEST_CONCURRENCY_LIMIT)
               && w'.hot == (if bulk then w.hot else w.hot + {(k, c.waiting.value)})
               && w'.bulk == (if bulk then w.bulk + {(k, c.waiting.value)} else w.bulk)
             case Finish(n) => w'.hot == w.hot - {(k, n)} && w'.bulk == w.bulk - {(k, n)}
             case _ =>
               && w'.hot == (if c'.phase == Broken then Without(w.hot, k) else w.hot)
               && w'.bulk == (if c'.phase == Broken then Without(w.bulk, k) else w.bulk))
  }

  predicate RunningIn(c: Conn, bulk: bool, n: nat) {
    n in c.tasks && !c.tasks[n].done && c.tasks[n].bulk == bulk
  }

  // The dispatches running now.
  ghost predicate Running(w: World, bulk: bool, k: nat, n: nat) {
    k in w.conns && RunningIn(w.conns[k], bulk, n)
  }

  ghost predicate Fair(w: World) {
    && (forall k :: k in w.conns ==> Sound(w.conns[k]))
    && (forall k: nat, n: nat :: (k, n) in w.hot <==> Running(w, false, k, n))
    && (forall k: nat, n: nat :: (k, n) in w.bulk <==> Running(w, true, k, n))
    && |w.hot| <= REQUEST_CONCURRENCY_LIMIT && |w.bulk| <= BULK_CONCURRENCY_LIMIT
  }

  // How each action changes what runs in its connection.
  lemma RunningAfter(c: Conn, a: Action, bulk: bool, n: nat)
    requires Sound(c) && Enabled(c, a)
    ensures RunningIn(Act(c, a), bulk, n) <==>
      match a
      case Acquire => RunningIn(c, bulk, n) || (n == c.waiting.value && bulk == IsBulkPayload(c.accepted[n].payload))
      case Finish(m) => RunningIn(c, bulk, n) && n != m
      case _ => RunningIn(c, bulk, n) && Act(c, a).phase != Broken
  {
  }

  lemma PermitsFollow(w: World, k: nat, a: Action, w': World, j: nat, n: nat)
    requires Fair(w) && Step(w, On(k, a), w')
    ensures (j, n) in w'.hot <==> Running(w', false, j, n)
    ensures (j, n) in w'.bulk <==> Running(w', true, j, n)
  {
    assert Sound(w.conns[k]);
    assert (j, n) in w.hot <==> Running(w, false, j, n);
    assert (j, n) in w.bulk <==> Running(w, true, j, n);
    if j == k {
      RunningAfter(w.conns[k], a, false, n);
      RunningAfter(w.conns[k], a, true, n);
    }
  }

  lemma PermitsStayLimited(w: World, k: nat, a: Action, w': World)
    requires Fair(w) && Step(w, On(k, a), w')
    ensures |w'.hot| <= REQUEST_CONCURRENCY_LIMIT && |w'.bulk| <= BULK_CONCURRENCY_LIMIT
  {
    if !a.Acquire? {
      SubsetCount(w'.hot, w.hot);
      SubsetCount(w'.bulk, w.bulk);
    }
  }

  /** Every step of the daemon keeps every connection sound and the permits within their limits. */
  lemma StepIsFair(w: World, e: Event, w': World)
    requires Fair(w) && Step(w, e, w')
    ensures Fair(w')
  {
    match e
    case Connect(k) =>
    case On(k, a) =>
      ActIsSound(w.conns[k], a);
      PermitsStayLimited(w, k, a, w');
      forall j: nat, n: nat
        ensures ((j, n) in w'.hot <==> Running(w', false, j, n)) && ((j, n) in w'.bulk <==> Running(w', true, j, n))
      {
        PermitsFollow(w, k, a, w', j, n);
      }
  }

  ghost predicate Run(worlds: seq<World>, events: seq<Event>) {
    && |worlds| == |events| + 1 && worlds[0] == World(map[], {}, {})
    && forall i :: 0 <= i < |events| ==> Step(worlds[i], events[i], worlds[i + 1])
  }

  lemma {:induction false} RunIsFair(worlds: seq<World>, events: seq<Event>, i: nat)
    requires Run(worlds, events) && i < |worlds|
    ensures Fair(worlds[i])
  {
    if i > 0 {
      RunIsFair(worlds, events, i - 1);
      StepIsFair(worlds[i - 1], events[i - 1], worlds[i]);
    }
  }

  /** At most 64 hot and 8 bulk dispatches run at once, over all connections. */
  lemma DispatchesAreLimited(worlds: seq<World>, events: seq<Event>, i: nat, running: set<(nat, nat)>, bulk: bool)
    requires Run(worlds, events) && i < |worlds|
    requires forall k: nat, n: nat :: (k, n) in running ==> Running(worlds[i], bulk, k, n)
    ensures |running| <= if bulk then 8 else 64
  {
    RunIsFair(worlds, events, i);
    var held := if bulk then worlds[i].bulk else worlds[i].hot;
    forall p | p in running
      ensures p in held
    {
      assert p == (p.0, p.1) && Running(worlds[i], bulk, p.0, p.1);
    }
    SubsetCount(running, held);
  }

  // The payloads that go through the small semaphore.
  const BULK_PAYLOADS: set<Payload> :=
    {Lifecycle, Diagnostics(Doctor), Diagnostics(RecentTraces), Memory(StoreBatch), Memory(DeleteMany), Memory(BatchUpdate)}

  // Every task holds the kind of permit that its payload asks for.
  ghost predicate Sorted(c: Conn) {
    forall n :: n in c.tasks ==> n < |c.accepted| && (c.tasks[n].bulk <==> c.accepted[n].payload in BULK_PAYLOADS)
  }

  lemma ActKeepsSorted(c: Conn, a: Action)
    requires Sound(c) && Sorted(c) && Enabled(c, a)
    ensures Sorted(Act(c, a))
  {
    match a
    case Read(msg, sent, snapshot) => ReadKeepsSorted(c, msg, sent, snapshot);
    case Acquire => PayloadsAreListed(c.accepted[c.waiting.value].payload);
    case _ =>
  }

  lemma ReadKeepsSorted(c: Conn, msg: Message, sent: bool, snapshot: bool)
    requires Sorted(c)
    ensures Sorted(ReadMessage(c, msg, sent, snapshot))
  {
  }

  lemma PayloadsAreListed(p: Payload)
    ensures IsBulkPayload(p) <==> p in BULK_PAYLOADS
  {
  }

  lemma {:induction false} RunIsSorted(worlds: seq<World>, events: seq<Event>, i: nat, k: nat)
    requires Run(worlds, events) && i < |worlds| && k in worlds[i].conns
    ensures Sorted(worlds[i].conns[k])
  {
    if i > 0 && k in worlds[i - 1].conns {
      RunIsSorted(worlds, events, i - 1, k);
      RunIsFair(worlds, events, i - 1);
      assert Step(worlds[i - 1], events[i - 1], worlds[i]);
      if events[i - 1].On? && events[i - 1].conn == k {
        ActKeepsSorted(worlds[i - 1].conns[k], events[i - 1].action);
      }
    } else if i > 0 {
      assert Step(worlds[i - 1], events[i - 1], worlds[i]);
    }
  }

  // A dispatch of an accepted request that is running now.
  ghost predicate Dispatched(w: World, k: nat, n: nat, payload: Payload) {
    k in w.conns && n in w.conns[k].tasks && !w.conns[k].tasks[n].done
    && n < |w.conns[k].accepted| && w.conns[k].accepted[n].payload == payload
  }

  /**
    At most eight requests at once are batch stores, batch deletes, batch updates, lifecycle, doctor or trace
    requests, and at most 64 are others, over all connections of every run.
   */
  lemma PayloadsAreLimited(worlds: seq<World>, events: seq<Event>, i: nat, running: set<(nat, nat)>, bulk: bool)
    requires Run(worlds, events) && i < |worlds|
    requires forall k: nat, n: nat :: (k, n) in running ==>
      exists payload :: Dispatched(worlds[i], k, n, payload) && (payload in BULK_PAYLOADS <==> bulk)
    ensures |running| <= if bulk then 8 else 64
  {
    forall k: nat, n: nat | (k, n) in running
      ensures Running(worlds[i], bulk, k, n)
    {
      RunIsSorted(worlds, events, i, k);
    }
    DispatchesAreLimited(worlds, events, i, running, bulk);
  }

  /** Each accepted request is answered at most once, with its own id. */
  lemma AnsweredAtMostOnce(worlds: seq<World>, events: seq<Event>, i: nat, k: nat, x: nat, y: nat)
    requires Run(worlds, events) && i < |worlds| && k in worlds[i].conns
    requires x < |worlds[i].conns[k].out| && y < |worlds[i].conns[k].out|
    requires IsAnswer(worlds[i].conns[k].out[x]) && IsAnswer(worlds[i].conns[k].out[y])
    ensures var c := worlds[i].conns[k];
            && c.out[x].request < |c.accepted| && c.out[x].id == c.accepted[c.out[x].request].id
            && (c.out[x].request == c.out[y].request ==> x == y)
  {
    RunIsFair(worlds, events, i);
    var c := worlds[i].conns[k];
    assert Sound(c);
    if x < y {
      assert c.out[x].request != c.out[y].request;
    } else if y < x {
      assert c.out[y].request != c.out[x].request;
    }
  }

  /** A loop that drained with working sends has answered every request it accepted. */
  lemma DrainedMeansAnswered(worlds: seq<World>, events: seq<Event>, i: nat, k: nat, n: nat)
    requires Run(worlds, events) && i < |worlds| && k in worlds[i].conns
    requires worlds[i].conns[k].phase == Drained && worlds[i].conns[k].canSend && n < |worlds[i].conns[k].accepted|
    ensures Answered(worlds[i].conns[k].out, n)
  {
    RunIsFair(worlds, events, i);
    assert Sound(worlds[i].conns[k]);
  }

  /** After a shutdown nothing more is accepted, and with working sends the loop leaves only by draining. */
  lemma ShutdownLeavesOnlyByDraining(c: Conn, a: Action)
    requires Sound(c) && c.phase == Looping && c.shutdown && Enabled(c, a) && a != Publish(false) && !a.EventsClosed?
    ensures Act(c, a).phase == Looping || Act(c, a).phase == Drained
    ensures Act(c, a).shutdown && !Act(c, a).accepting && Act(c, a).accepted == c.accepted
    ensures c.canSend && !(a.Join? && !a.sent) ==> Act(c, a).canSend
  {
  }

  // Nothing sent on connection `k` fails, its peer stays, and its event channel stays open.
  predicate Healthy(e: Event, k: nat) {
    e.On? && e.conn == k ==>
      && (e.action.Join? ==> e.action.sent) && (e.action.Publish? ==> e.action.sent) && (e.action.Read? ==> e.action.sent)
      && !e.action.Disconnect? && !e.action.EventsClosed?
  }

  lemma HealthyStep(w: World, e: Event, w': World, k: nat)
    requires Fair(w) && Step(w, e, w') && Healthy(e, k) && k in w.conns
    requires w.conns[k].phase != Broken && w.conns[k].shutdown && w.conns[k].canSend
    ensures k in w'.conns && w'.conns[k].phase != Broken && w'.conns[k].shutdown && w'.conns[k].canSend
    ensures w'.conns[k].accepted == w.conns[k].accepted
  {
    if e.On? && e.conn == k {
      assert Sound(w.conns[k]);
      ShutdownLeavesOnlyByDraining(w.conns[k], e.action);
    }
  }

  lemma {:induction false} HealthyRun(worlds: seq<World>, events: seq<Event>, i: nat, j: nat, k: nat)
    requires Run(worlds, events) && i <= j < |worlds| && k in worlds[i].conns
    requires worlds[i].conns[k].phase != Broken && worlds[i].conns[k].shutdown && worlds[i].conns[k].canSend
    requires forall m :: i <= m < j ==> Healthy(events[m], k)
    ensures k in worlds[j].conns && worlds[j].conns[k].phase != Broken && worlds[j].conns[k].canSend
    ensures worlds[j].conns[k].shutdown && worlds[j].conns[k].accepted == worlds[i].conns[k].accepted
    decreases j
  {
    if i < j {
      HealthyRun(worlds, events, i, j - 1, k);
      RunIsFair(worlds, events, j - 1);
      HealthyStep(worlds[j - 1], events[j - 1], worlds[j], k);
    }
  }

  /**
    A connection that shuts down while its sends work has answered every request it accepted by the
    time its loop exits, and accepts none after the shutdown.
   */
  lemma ShutdownAnswersEverything(worlds: seq<World>, events: seq<Event>, i: nat, j: nat, k: nat)
    requires Run(worlds, events) && i <= j < |worlds| && k in worlds[i].conns
    requires worlds[i].conns[k].phase != Broken && worlds[i].conns[k].shutdown && worlds[i].conns[k].canSend
    requires forall m :: i <= m < j ==> Healthy(events[m], k)
    ensures k in worlds[j].conns && worlds[j].conns[k].accepted == worlds[i].conns[k].accepted
    ensures worlds[j].conns[k].phase != Looping ==>
      forall n :: 0 <= n < |worlds[i].conns[k].accepted| ==> Answered(worlds[j].conns[k].out, n)
  {
    HealthyRun(worlds, events, i, j, k);
    if worlds[j].conns[k].phase != Looping {
      forall n | 0 <= n < |worlds[i].conns[k].accepted|
        ensures Answered(worlds[j].conns[k].out, n)
      {
        DrainedMeansAnswered(worlds, events, j, k, n);
      }
    }
  }

  /** No event frame precedes the Subscribed response on its connection. */
  lemma NoEventBeforeSubscribed(worlds: seq<World>, events: seq<Event>, i: nat, k: nat, x: nat)
    requires Run(worlds, events) && i < |worlds| && k in worlds[i].conns
    requires x < |worlds[i].conns[k].out| && worlds[i].conns[k].out[x].EventFrame?
    ensures exists j :: 0 <= j < x && worlds[i].conns[k].out[j].Subscribed?
  {
    RunIsFair(worlds, events, i);
    assert Sound(worlds[i].conns[k]);
  }

  // -------------------------------------------------------------------------
  // Events arrive, and nothing gets stuck
  // -------------------------------------------------------------------------

  ghost predicate StaysSubscribed(c: Conn) {
    (exists i :: 0 <= i < |c.out| && c.out[i].Subscribed?) ==> c.subscribed
  }

  lemma ActKeepsSubscription(c: Conn, a: Action)
    requires StaysSubscribed(c) && Enabled(c, a) && (c.waiting.Some? ==> c.waiting.value < |c.accepted|)
    ensures StaysSubscribed(Act(c, a))
  {
    var d := Act(c, a);
    forall i | 0 <= i < |d.out| && d.out[i].Subscribed?
      ensures d.subscribed
    {
      assert i < |c.out| ==> c.out[i] == d.out[i];
    }
  }

  lemma {:induction false} SubscriptionsLast(worlds: seq<World>, events: seq<Event>, i: nat, k: nat)
    requires Run(worlds, events) && i < |worlds| && k in worlds[i].conns
    ensures StaysSubscribed(worlds[i].conns[k])
  {
    if i > 0 {
      assert Step(worlds[i - 1], events[i - 1], worlds[i]);
      if k in worlds[i - 1].conns {
        SubscriptionsLast(worlds, events, i - 1, k);
        if events[i - 1].On? && events[i - 1].conn == k {
          ActKeepsSubscription(worlds[i - 1].conns[k], events[i - 1].action);
        }
      }
    }
  }

  /** Once Subscribed was sent, a connection at its select takes every event, and a working send puts it on the wire. */
  lemma SubscribersGetEvents(worlds: seq<World>, events: seq<Event>, i: nat, k: nat, x: nat)
    requires Run(worlds, events) && i < |worlds| && k in worlds[i].conns && AtSelect(worlds[i].conns[k])
    requires x < |worlds[i].conns[k].out| && worlds[i].conns[k].out[x].Subscribed?
    ensures Enabled(worlds[i].conns[k], Publish(true))
    ensures Act(worlds[i].conns[k], Publish(true)).out == worlds[i].conns[k].out + [EventFrame]
  {
    SubscriptionsLast(worlds, events, i, k);
  }

  // A step that moves accepted requests towards their answers.
  ghost predicate Progresses(w: World, e: Event, w': World) {
    e.On? && (e.action.Acquire? || e.action.Finish? || e.action.Join?) && Step(w, e, w')
  }

  lemma CanFinish(w: World, k: nat, n: nat) returns (e: Event, w': World)
    requires Fair(w) && k in w.conns && w.conns[k].phase == Looping && n in w.conns[k].tasks && !w.conns[k].tasks[n].done
    ensures Progresses(w, e, w')
  {
    assert Sound(w.conns[k]);
    e := On(k, Finish(n));
    w' := World(w.conns[k := Act(w.conns[k], Finish(n))], w.hot - {(k, n)}, w.bulk - {(k, n)});
  }

  lemma CanAcquire(w: World, k: nat) returns (e: Event, w': World)
    requires Fair(w) && k in w.conns && w.conns[k].phase == Looping && w.conns[k].waiting.Some?
    ensures Progresses(w, e, w')
  {
    var c := w.conns[k];
    assert Sound(c);
    var n := c.waiting.value;
    var bulk := IsBulkPayload(c.accepted[n].payload);
    var held := if bulk then w.bulk else w.hot;
    if |held| < (if bulk then BULK_CONCURRENCY_LIMIT else REQUEST_CONCURRENCY_LIMIT) {
      e := On(k, Acquire);
      w' := World(w.conns[k := Act(c, Acquire)], if bulk then w.hot else w.hot + {(k, n)}, if bulk then w.bulk + {(k, n)} else w.bulk);
    } else {
      var p :| p in held;
      assert (p.0, p.1) in held && Running(w, bulk, p.0, p.1);
      assert Sound(w.conns[p.0]);
      e, w' := CanFinish(w, p.0, p.1);
    }
  }

  /**
    Nothing gets stuck: in every run, while a loop has a request in progress, waiting for a permit or running,
    the daemon can take a permit, finish a dispatch or send an answer.
   */
  lemma RequestsCanProgress(worlds: seq<World>, events: seq<Event>, i: nat, k: nat) returns (e: Event, w': World)
    requires Run(worlds, events) && i < |worlds| && k in worlds[i].conns && worlds[i].conns[k].phase == Looping
    requires worlds[i].conns[k].waiting.Some? || worlds[i].conns[k].tasks != map[]
    ensures Progresses(worlds[i], e, w')
  {
    RunIsFair(worlds, events, i);
    var (w, c) := (worlds[i], worlds[i].conns[k]);
    if c.waiting.Some? {
      e, w' := CanAcquire(w, k);
    } else {
      var n :| n in c.tasks;
      if c.tasks[n].done {
        e, w' := CanJoin(w, k, n);
      } else {
        e, w' := CanFinish(w, k, n);
      }
    }
  }

  lemma CanJoin(w: World, k: nat, n: nat) returns (e: Event, w': World)
    requires Fair(w) && k in w.conns && AtSelect(w.conns[k]) && n in w.conns[k].tasks && w.conns[k].tasks[n].done
    ensures Progresses(w, e, w')
  {
    assert Sound(w.conns[k]);
    e := On(k, Join(n, true));
    w' := w.(conns := w.conns[k := Act(w.conns[k], Join(n, true))]);
  }
}
