/**
  The client's id-matching call (`request_inner`, `request_with_timeout` in `crates/client/src/lib.rs`)
  and its composition with one server connection over two ordered byte streams.
 */
module ClientCalls {
  import opened Collections
  import opened Protocol

  // Why a call that found no answer ended: its timeout fired, the stream closed, or the send failed.
  datatype Ending = TimedOut | UnexpectedClose | SendFailed

  datatype Outcome = Ok(frame: Frame) | IdMismatch(expected: nat, got: nat) | UnexpectedPayload(frame: Frame) | Ended(why: Ending)

  // The first frame that is no event, or the number of frames.
  ghost predicate FirstReplyAt(frames: seq<Frame>, k: nat) {
    && k <= |frames|
    && (forall i :: 0 <= i < k ==> frames[i].EventFrame?)
    && (k < |frames| ==> !frames[k].EventFrame?)
  }

  function SkipEvents(frames: seq<Frame>): (k: nat)
    ensures FirstReplyAt(frames, k)
  {
    if frames == [] || !frames[0].EventFrame? then 0 else 1 + SkipEvents(frames[1..])
  }

  // What a call with this id makes of the frames that reach it before it ends.
  function OutcomeOf(id: nat, frames: seq<Frame>, why: Ending): Outcome {
    var k := SkipEvents(frames);
    if k == |frames| then Ended(why)
    else if frames[k].id != id then IdMismatch(id, frames[k].id)
    else if !IsAnswer(frames[k]) then UnexpectedPayload(frames[k])
    else Ok(frames[k])
  }

  // How many frames the call takes off the stream.
  function UsedOf(frames: seq<Frame>): (n: nat)
    ensures n <= |frames|
  {
    var k := SkipEvents(frames);
    if k == |frames| then k else k + 1
  }

  lemma FirstReplyIsUnique(frames: seq<Frame>, k: nat)
    requires FirstReplyAt(frames, k)
    ensures k == SkipEvents(frames)
  {
  }

  /** A call succeeds exactly when the first frame but events that reaches it is a response with its own id. */
  lemma OkIffFirstReplyIsMine(id: nat, frames: seq<Frame>, why: Ending)
    ensures OutcomeOf(id, frames, why).Ok? <==>
      exists k :: 0 <= k < |frames| && FirstReplyAt(frames, k) && frames[k].id == id && IsAnswer(frames[k])
  {
    var m := SkipEvents(frames);
    if OutcomeOf(id, frames, why).Ok? {
      assert FirstReplyAt(frames, m) && frames[m].id == id && IsAnswer(frames[m]);
    }
    forall k | 0 <= k < |frames| && FirstReplyAt(frames, k) && frames[k].id == id
      ensures k == m
    {
      FirstReplyIsUnique(frames, k);
    }
  }

  class Client {
    var nextId: nat

    constructor ()
      ensures nextId == 1
    {
      nextId := 1;
    }

    // `incoming` are the frames that reach this call before `why` ends it.
    method RequestInner(incoming: seq<Frame>, why: Ending) returns (outcome: Outcome, used: nat)
      modifies this
      ensures nextId == old(nextId) + 1
      ensures outcome == OutcomeOf(old(nextId), incoming, why) && used == UsedOf(incoming)
    {
      var id := nextId;
      nextId := nextId + 1;
      used := 0;
      while used < |incoming|
        invariant used <= |incoming|
        invariant forall i :: 0 <= i < used ==> incoming[i].EventFrame?
      {
        var reply := incoming[used];
        used := used + 1;
        if !reply.EventFrame? {
          FirstReplyIsUnique(incoming, used - 1);
          if reply.id != id {
            return IdMismatch(id, reply.id), used;
          }
          if !IsAnswer(reply) {
            return UnexpectedPayload(reply), used;
          }
          return Ok(reply), used;
        }
      }
      FirstReplyIsUnique(incoming, used);
      outcome := Ended(why);
    }
  }

  // -------------------------------------------------------------------------
  // A client and its connection
  // -------------------------------------------------------------------------

  /**
    `wire`: what the client put on the stream, of which the server has read a prefix.
    `consumed`: how much of the server's output the client has read.  `pending`: the call in progress.
    `calls`: the finished calls, oldest first.
   */
  datatype Finished = Finished(id: nat, outcome: Outcome)
  datatype Session = Session(
    conn: Conn,
    nextId: nat,
    wire: seq<Message>,
    consumed: nat,
    pending: Option<nat>,
    calls: seq<Finished>)

  const OPENED: Session := Session(FRESH, 1, [], 0, None, [])

  // A call that is cancelled before its message is buffered, or whose send fails, puts nothing on the wire.
  datatype SessionEvent =
    | Call(payload: Payload, buffered: bool)
    | Return(upTo: nat, why: Ending)
    | Server(action: Action)

  predicate CanHappen(s: Session, e: SessionEvent) {
    match e
    case Call(_, _) => s.pending.None?
    case Return(upTo, _) => s.pending.Some? && s.consumed <= upTo <= |s.conn.out|
    case Server(a) =>
      && Enabled(s.conn, a)
      && (s.conn.waiting.Some? ==> s.conn.waiting.value < |s.conn.accepted|)
      && (a.Read? ==> |s.conn.accepted| < |s.wire| && a.msg == s.wire[|s.conn.accepted|])
  }

  function After(s: Session, e: SessionEvent): Session
    requires CanHappen(s, e)
  {
    match e
    case Call(p, buffered) =>
      s.(nextId := s.nextId + 1,
         pending := Some(s.nextId),
         wire := if buffered then s.wire + [Message(s.nextId, p)] else s.wire)
    case Return(upTo, why) =>
      var frames := s.conn.out[s.consumed..upTo];
      s.(pending := None,
         consumed := s.consumed + UsedOf(frames),
         calls := s.calls + [Finished(s.pending.value, OutcomeOf(s.pending.value, frames, why))])
    case Server(a) => s.(conn := Act(s.conn, a))
  }

  // The server has read a prefix of the wire, and ids on the wire increase.
  ghost predicate WireOk(s: Session) {
    && s.conn.accepted <= s.wire
    && (forall i :: 0 <= i < |s.wire| ==> s.wire[i].id < s.nextId)
    && (forall i, j :: 0 <= i < j < |s.wire| ==> s.wire[i].id < s.wire[j].id)
    && s.consumed <= |s.conn.out|
    && (s.pending.Some? ==> s.pending.value == s.nextId - 1)
  }

  // The frame answers the call's own request, which the server did read.
  ghost predicate OwnAnswer(s: Session, f: Finished) {
    && !f.outcome.UnexpectedPayload?
    && (f.outcome.Ok? ==>
      && IsAnswer(f.outcome.frame) && f.outcome.frame.id == f.id
      && f.outcome.frame.request < |s.conn.accepted| && f.outcome.frame.request < |s.wire|
      && s.wire[f.outcome.frame.request].id == f.id)
  }

  ghost predicate CallsOk(s: Session) {
    WireOk(s) && forall i :: 0 <= i < |s.calls| ==> s.calls[i].id < s.nextId && OwnAnswer(s, s.calls[i])
  }

  // The answer of the request with this number has been read by the client.
  ghost predicate ReadBack(s: Session, n: nat) {
    exists i :: 0 <= i < s.consumed <= |s.conn.out| && IsAnswer(s.conn.out[i]) && s.conn.out[i].request == n
  }

  predicate AllOk(calls: seq<Finished>) {
    forall i :: 0 <= i < |calls| ==> calls[i].outcome.Ok?
  }

  // While every call has succeeded, only the call in progress can have an answer to come.
  ghost predicate InStep(s: Session) {
    AllOk(s.calls) ==>
      forall n :: 0 <= n < |s.wire| ==> ReadBack(s, n) || s.pending == Some(s.wire[n].id)
  }

  ghost predicate SessionOk(s: Session) {
    Sound(s.conn) && CallsOk(s) && InStep(s)
  }

  lemma ReadAccepts(c: Conn, msg: Message, sent: bool, snapshot: bool)
    ensures ReadMessage(c, msg, sent, snapshot).accepted == c.accepted + [msg]
    ensures c.out <= ReadMessage(c, msg, sent, snapshot).out
  {
  }

  lemma OnlyReadsAccept(c: Conn, a: Action)
    requires Sound(c) && Enabled(c, a)
    ensures Act(c, a).accepted == if a.Read? then c.accepted + [a.msg] else c.accepted
    ensures c.out <= Act(c, a).out
  {
    if a.Read? {
      ReadAccepts(c, a.msg, a.sent, a.snapshot);
    }
  }

  // The server's output and what it has read only grow.
  lemma LaterConnKeeps(s: Session, c: Conn)
    requires CallsOk(s) && InStep(s) && Sound(c) && s.conn.out <= c.out && s.conn.accepted <= c.accepted <= s.wire
    ensures SessionOk(s.(conn := c))
  {
    var t := s.(conn := c);
    assert forall i :: 0 <= i < s.consumed ==> t.conn.out[i] == s.conn.out[i];
    forall n | 0 <= n < |s.wire| && ReadBack(s, n)
      ensures ReadBack(t, n)
    {
      var i :| 0 <= i < s.consumed && IsAnswer(s.conn.out[i]) && s.conn.out[i].request == n;
      assert t.conn.out[i] == s.conn.out[i];
    }
    assert forall i :: 0 <= i < |s.calls| ==> OwnAnswer(s, s.calls[i]);
  }

  lemma ServerKeeps(s: Session, a: Action)
    requires SessionOk(s) && CanHappen(s, Server(a))
    ensures SessionOk(After(s, Server(a)))
  {
    ActIsSound(s.conn, a);
    OnlyReadsAccept(s.conn, a);
    LaterConnKeeps(s, Act(s.conn, a));
  }

  lemma CallKeeps(s: Session, p: Payload, buffered: bool)
    requires SessionOk(s) && CanHappen(s, Call(p, buffered))
    ensures SessionOk(After(s, Call(p, buffered)))
  {
    var t := After(s, Call(p, buffered));
    forall i | 0 <= i < |t.calls|
      ensures t.calls[i].id < t.nextId && OwnAnswer(t, t.calls[i])
    {
      assert OwnAnswer(s, s.calls[i]);
    }
    forall n | 0 <= n < |t.wire| && AllOk(t.calls)
      ensures ReadBack(t, n) || t.pending == Some(t.wire[n].id)
    {
      if n < |s.wire| {
        assert ReadBack(s, n);
        var i :| 0 <= i < s.consumed && IsAnswer(s.conn.out[i]) && s.conn.out[i].request == n;
        assert t.conn.out[i].request == n;
      }
    }
  }

  // The frame a successful call reads, where it stands on the stream.
  lemma OkFrame(s: Session, upTo: nat, why: Ending) returns (k: nat)
    requires SessionOk(s) && CanHappen(s, Return(upTo, why))
    requires OutcomeOf(s.pending.value, s.conn.out[s.consumed..upTo], why).Ok?
    ensures s.consumed <= k < upTo && k + 1 == After(s, Return(upTo, why)).consumed
    ensures IsAnswer(s.conn.out[k]) && s.conn.out[k].id == s.pending.value
    ensures OutcomeOf(s.pending.value, s.conn.out[s.consumed..upTo], why) == Ok(s.conn.out[k])
    ensures s.conn.out[k].request < |s.conn.accepted| && s.wire[s.conn.out[k].request].id == s.pending.value
  {
    var frames := s.conn.out[s.consumed..upTo];
    k := s.consumed + SkipEvents(frames);
    assert frames[SkipEvents(frames)] == s.conn.out[k];
  }

  lemma ReturnKeeps(s: Session, upTo: nat, why: Ending)
    requires SessionOk(s) && CanHappen(s, Return(upTo, why))
    ensures SessionOk(After(s, Return(upTo, why)))
  {
    var t := After(s, Return(upTo, why));
    var o := t.calls[|s.calls|].outcome;
    assert o == OutcomeOf(s.pending.value, s.conn.out[s.consumed..upTo], why);
    forall i | 0 <= i < |t.calls|
      ensures t.calls[i].id < t.nextId && OwnAnswer(t, t.calls[i])
    {
      if i < |s.calls| {
        assert OwnAnswer(s, s.calls[i]);
      } else if o.Ok? {
        var k := OkFrame(s, upTo, why);
      }
    }
    forall n | 0 <= n < |t.wire| && AllOk(t.calls)
      ensures ReadBack(t, n)
    {
      assert AllOk(s.calls) by {
        assert forall i :: 0 <= i < |s.calls| ==> s.calls[i] == t.calls[i];
      }
      if ReadBack(s, n) {
        var i :| 0 <= i < s.consumed && IsAnswer(s.conn.out[i]) && s.conn.out[i].request == n;
        assert IsAnswer(t.conn.out[i]);
      } else {
        var k := OkFrame(s, upTo, why);
        SameId(s, n, s.conn.out[k].request);
        assert IsAnswer(t.conn.out[k]) && k < t.consumed;
      }
    }
  }

  lemma SameId(s: Session, m: nat, n: nat)
    requires WireOk(s) && m < |s.wire| && n < |s.wire| && s.wire[m].id == s.wire[n].id
    ensures m == n
  {
  }

  lemma StepKeeps(s: Session, e: SessionEvent)
    requires SessionOk(s) && CanHappen(s, e)
    ensures SessionOk(After(s, e))
  {
    match e
    case Call(p, buffered) => CallKeeps(s, p, buffered);
    case Return(upTo, why) => ReturnKeeps(s, upTo, why);
    case Server(a) => ServerKeeps(s, a);
  }

  ghost predicate SessionRun(states: seq<Session>, events: seq<SessionEvent>) {
    && |states| == |events| + 1 && states[0] == OPENED
    && forall i :: 0 <= i < |events| ==> CanHappen(states[i], events[i]) && states[i + 1] == After(states[i], events[i])
  }

  lemma {:induction false} RunKeeps(states: seq<Session>, events: seq<SessionEvent>, i: nat)
    requires SessionRun(states, events) && i < |states|
    ensures SessionOk(states[i])
  {
    if i > 0 {
      RunKeeps(states, events, i - 1);
      StepKeeps(states[i - 1], events[i - 1]);
    }
  }

  /**
    A call that returned Ok carries the response to its own request, whatever happened to earlier calls:
    the frame answers the only message on the wire with the call's id.
   */
  lemma OkCarriesOwnResponse(states: seq<Session>, events: seq<SessionEvent>, i: nat, x: nat)
    requires SessionRun(states, events) && i < |states| && x < |states[i].calls| && states[i].calls[x].outcome.Ok?
    ensures var s := states[i];
            var f := s.calls[x].outcome.frame;
            && IsAnswer(f) && f.id == s.calls[x].id && f.request < |s.wire| && s.wire[f.request].id == s.calls[x].id
            && forall n :: 0 <= n < |s.wire| && s.wire[n].id == s.calls[x].id ==> n == f.request
  {
    RunKeeps(states, events, i);
    var s := states[i];
    assert OwnAnswer(s, s.calls[x]);
    forall n | 0 <= n < |s.wire| && s.wire[n].id == s.calls[x].id
      ensures n == s.calls[x].outcome.frame.request
    {
      SameId(s, n, s.calls[x].outcome.frame.request);
    }
  }

  /** No call ends in an unexpected payload: the server sends none. */
  lemma NoUnexpectedPayload(states: seq<Session>, events: seq<SessionEvent>, i: nat, x: nat)
    requires SessionRun(states, events) && i < |states| && x < |states[i].calls|
    ensures !states[i].calls[x].outcome.UnexpectedPayload?
  {
    RunKeeps(states, events, i);
    assert OwnAnswer(states[i], states[i].calls[x]);
  }

  /** As long as every earlier call succeeded, no call ends in an id mismatch. */
  lemma NoMismatchWithoutAnEarlierFailure(states: seq<Session>, events: seq<SessionEvent>, i: nat)
    requires SessionRun(states, events) && i < |events| && events[i].Return? && AllOk(states[i].calls)
    ensures !states[i + 1].calls[|states[i].calls|].outcome.IdMismatch?
  {
    RunKeeps(states, events, i);
    var s := states[i];
    var frames := s.conn.out[s.consumed..events[i].upTo];
    var k := SkipEvents(frames);
    if k < |frames| {
      var f := s.conn.out[s.consumed + k];
      assert f == frames[k] && f.request < |s.conn.accepted| && f.id == s.wire[f.request].id;
      assert !ReadBack(s, f.request);
    }
  }

  // -------------------------------------------------------------------------
  // Which answers defeat a call
  // -------------------------------------------------------------------------

  // Frame `k` answers the call in progress.
  predicate AnswersCall(s: Session, k: nat) {
    && k < |s.conn.out| && IsAnswer(s.conn.out[k]) && s.conn.out[k].request < |s.wire|
    && s.pending == Some(s.wire[s.conn.out[k].request].id)
  }

  // Frame `k` answers an earlier message of the client.
  predicate AnswersOlder(s: Session, k: nat) {
    && k < |s.conn.out| && IsAnswer(s.conn.out[k]) && s.conn.out[k].request < |s.wire|
    && s.pending.Some? && s.wire[s.conn.out[k].request].id < s.pending.value
  }

  // The answer to the call is unread, and no unread answer to an earlier message comes before it.
  ghost predicate AnswerIsNext(s: Session, upTo: nat) {
    exists k :: s.consumed <= k < upTo && AnswersCall(s, k) && forall j :: s.consumed <= j < k ==> !AnswersOlder(s, j)
  }

  lemma EveryAnswerFits(s: Session, k: nat)
    requires SessionOk(s) && s.pending.Some? && k < |s.conn.out| && !s.conn.out[k].EventFrame?
    ensures AnswersCall(s, k) || AnswersOlder(s, k)
    ensures s.conn.out[k].id == s.wire[s.conn.out[k].request].id
  {
    var r := s.conn.out[k].request;
    assert s.conn.accepted[r] == s.wire[r] && s.wire[r].id < s.nextId;
  }

  lemma OneAnswerPerCall(s: Session, j: nat, k: nat)
    requires SessionOk(s) && AnswersCall(s, j) && AnswersCall(s, k)
    ensures j == k
  {
    SameId(s, s.conn.out[j].request, s.conn.out[k].request);
  }

  // Where the first frame but events stands, and what the call makes of it.
  lemma FirstReply(out: seq<Frame>, from: nat, upTo: nat, id: nat, why: Ending) returns (o: Outcome, m: nat)
    requires from <= upTo <= |out|
    ensures o == OutcomeOf(id, out[from..upTo], why) && from <= m <= upTo
    ensures forall j :: from <= j < m ==> out[j].EventFrame?
    ensures if m == upTo then o == Ended(why)
            else !out[m].EventFrame? && (if out[m].id != id then o == IdMismatch(id, out[m].id) else o.Ok? == IsAnswer(out[m]) && !o.IdMismatch?)
  {
    var frames := out[from..upTo];
    o, m := OutcomeOf(id, frames, why), from + SkipEvents(frames);
    assert forall j :: from <= j < m ==> out[j] == frames[j - from];
    assert m < upTo ==> out[m] == frames[m - from];
  }

  lemma NextIsFirst(s: Session, upTo: nat, m: nat)
    requires SessionOk(s) && s.pending.Some? && s.consumed <= m < upTo <= |s.conn.out|
    requires (forall j :: s.consumed <= j < m ==> s.conn.out[j].EventFrame?) && !s.conn.out[m].EventFrame?
    ensures AnswerIsNext(s, upTo) <==> AnswersCall(s, m)
  {
    EveryAnswerFits(s, m);
    if AnswerIsNext(s, upTo) {
      var k :| s.consumed <= k < upTo && AnswersCall(s, k) && forall j :: s.consumed <= j < k ==> !AnswersOlder(s, j);
      assert m <= k;
      if AnswersCall(s, m) {
        OneAnswerPerCall(s, m, k);
      }
    }
  }

  lemma ReturnIsOkIffAnswerIsNext(s: Session, upTo: nat, why: Ending)
    requires SessionOk(s) && CanHappen(s, Return(upTo, why))
    ensures var o := OutcomeOf(s.pending.value, s.conn.out[s.consumed..upTo], why);
            && (o.Ok? <==> AnswerIsNext(s, upTo))
            && (o.IdMismatch? ==> o.expected == s.pending.value && o.got < o.expected)
  {
    var o, m := FirstReply(s.conn.out, s.consumed, upTo, s.pending.value, why);
    if m < upTo {
      EveryAnswerFits(s, m);
      NextIsFirst(s, upTo, m);
    }
  }

  /**
    Whatever order the server answers in, a call of any run returns Ok if and only if its answer reaches it
    with no unread answer to an earlier message before it; a mismatch always names an earlier message.
   */
  lemma OkIffAnswerIsNext(states: seq<Session>, events: seq<SessionEvent>, i: nat)
    requires SessionRun(states, events) && i < |events| && events[i].Return?
    ensures |states[i + 1].calls| == |states[i].calls| + 1
    ensures var o := states[i + 1].calls[|states[i].calls|].outcome;
            && (o.Ok? <==> AnswerIsNext(states[i], events[i].upTo))
            && (o.IdMismatch? ==> o.got < o.expected)
  {
    RunKeeps(states, events, i);
    ReturnIsOkIffAnswerIsNext(states[i], events[i].upTo, events[i].why);
  }

  // -------------------------------------------------------------------------
  // After a timeout
  // -------------------------------------------------------------------------

  function AnswerCount(frames: seq<Frame>): (n: nat)
    ensures n <= |frames|
  {
    if frames == [] then 0
    else AnswerCount(frames[..|frames| - 1]) + if IsAnswer(frames[|frames| - 1]) then 1 else 0
  }

  // The server answers in the order of the requests.
  ghost predicate InOrder(out: seq<Frame>) {
    forall i :: 0 <= i < |out| ==> InTurn(out, i)
  }

  ghost predicate InTurn(out: seq<Frame>, i: nat)
    requires i < |out|
  {
    IsAnswer(out[i]) ==> out[i].request == AnswerCount(out[..i])
  }

  // How many calls got no answer at all.
  function EndedCount(calls: seq<Finished>): (n: nat)
    ensures n <= |calls|
  {
    if calls == [] then 0
    else EndedCount(calls[..|calls| - 1]) + if calls[|calls| - 1].outcome.Ended? then 1 else 0
  }

  // The outcome of call `y`: its own answer, or the one as many calls back as were abandoned before it.
  ghost predicate Lags(calls: seq<Finished>, y: nat)
    requires y < |calls|
  {
    var lag := EndedCount(calls[..y]);
    && calls[y].id == y + 1
    && (if calls[y].outcome.Ended? then true
        else if lag == 0 then calls[y].outcome.Ok?
        else calls[y].outcome == IdMismatch(y + 1, y + 1 - lag))
  }

  // Every call put its message on the wire, and each call but the abandoned ones took one answer.
  ghost predicate Lined(s: Session) {
    && (forall j :: 0 <= j < |s.wire| ==> s.wire[j].id == j + 1)
    && |s.wire| == |s.calls| + (if s.pending.Some? then 1 else 0) && s.nextId == |s.wire| + 1
    && s.consumed <= |s.conn.out| && AnswerCount(s.conn.out[..s.consumed]) + EndedCount(s.calls) == |s.calls|
    && forall y :: 0 <= y < |s.calls| ==> Lags(s.calls, y)
  }

  lemma {:induction false} EventsAddNoAnswer(out: seq<Frame>, from: nat, k: nat)
    requires from + k <= |out| && forall i :: from <= i < from + k ==> out[i].EventFrame?
    ensures AnswerCount(out[..from + k]) == AnswerCount(out[..from])
    decreases k
  {
    if k > 0 {
      EventsAddNoAnswer(out, from, k - 1);
      assert out[..from + k][..from + k - 1] == out[..from + k - 1];
    }
  }

  lemma OneMoreAnswer(out: seq<Frame>, k: nat)
    requires k < |out| && IsAnswer(out[k])
    ensures AnswerCount(out[..k + 1]) == AnswerCount(out[..k]) + 1
  {
    assert out[..k + 1][..k] == out[..k];
  }

  // Whatever is no event answers a message of the wire, with its id.
  ghost predicate Fits(out: seq<Frame>, wire: seq<Message>, i: nat)
    requires i < |out|
  {
    !out[i].EventFrame? ==> IsAnswer(out[i]) && out[i].request < |wire| && out[i].id == wire[out[i].request].id
  }

  ghost predicate AllFit(out: seq<Frame>, wire: seq<Message>) {
    forall i :: 0 <= i < |out| ==> Fits(out, wire, i)
  }

  // What a call takes off a stream of events and answers.
  lemma TakenFrame(out: seq<Frame>, wire: seq<Message>, from: nat, upTo: nat, id: nat, why: Ending) returns (o: Outcome, used: nat)
    requires from <= upTo <= |out| && AllFit(out, wire)
    ensures o == OutcomeOf(id, out[from..upTo], why) && used == UsedOf(out[from..upTo])
    ensures from + used <= |out|
    ensures AnswerCount(out[..from + used]) == AnswerCount(out[..from]) + (if o.Ended? then 0 else 1)
    ensures !o.Ended? ==>
      && used > 0 && IsAnswer(out[from + used - 1]) && AnswerCount(out[..from + used - 1]) == AnswerCount(out[..from])
      && o == (if out[from + used - 1].id == id then Ok(out[from + used - 1]) else IdMismatch(id, out[from + used - 1].id))
  {
    o, used := OutcomeOf(id, out[from..upTo], why), UsedOf(out[from..upTo]);
    var frames := out[from..upTo];
    var k := SkipEvents(frames);
    assert forall i :: from <= i < from + k ==> out[i] == frames[i - from];
    EventsAddNoAnswer(out, from, k);
    if k < |frames| {
      assert out[from + k] == frames[k] && Fits(out, wire, from + k);
      OneMoreAnswer(out, from + k);
    }
  }

  // If answers come in order, the one after `n` others is that of message `n`.
  lemma AnswerInOrder(out: seq<Frame>, wire: seq<Message>, i: nat)
    requires AllFit(out, wire) && InOrder(out) && i < |out| && IsAnswer(out[i])
    ensures AnswerCount(out[..i]) < |wire| && out[i].id == wire[AnswerCount(out[..i])].id
  {
    assert InTurn(out, i) && Fits(out, wire, i);
  }

  // The outcome of a call, given how many answers have been taken before it.
  ghost predicate TakesNext(wire: seq<Message>, id: nat, taken: nat, o: Outcome) {
    !o.Ended? ==> taken < |wire| && (if wire[taken].id == id then o.Ok? else o == IdMismatch(id, wire[taken].id))
  }

  lemma TakenAnswers(out: seq<Frame>, wire: seq<Message>, from: nat, upTo: nat, id: nat, why: Ending)
    returns (o: Outcome, used: nat)
    requires AllFit(out, wire) && InOrder(out) && from <= upTo <= |out|
    ensures o == OutcomeOf(id, out[from..upTo], why) && used == UsedOf(out[from..upTo])
    ensures from + used <= |out|
    ensures AnswerCount(out[..from + used]) == AnswerCount(out[..from]) + (if o.Ended? then 0 else 1)
    ensures TakesNext(wire, id, AnswerCount(out[..from]), o) && !o.UnexpectedPayload?
  {
    o, used := TakenFrame(out, wire, from, upTo, id, why);
    if !o.Ended? {
      AnswerInOrder(out, wire, from + used - 1);
    }
  }

  lemma LagsExtend(calls: seq<Finished>, f: Finished)
    requires (forall y :: 0 <= y < |calls| ==> Lags(calls, y)) && Lags(calls + [f], |calls|)
    ensures forall y :: 0 <= y < |calls| + 1 ==> Lags(calls + [f], y)
  {
    forall y | 0 <= y < |calls| + 1
      ensures Lags(calls + [f], y)
    {
      if y < |calls| {
        assert Lags(calls, y) && (calls + [f])[..y] == calls[..y];
      }
    }
  }

  lemma NextLag(s: Session, f: Finished, taken: nat)
    requires Lined(s) && s.pending.Some? && f.id == s.pending.value == |s.calls| + 1 && !f.outcome.UnexpectedPayload?
    requires taken + EndedCount(s.calls) == |s.calls| && TakesNext(s.wire, f.id, taken, f.outcome)
    ensures Lags(s.calls + [f], |s.calls|)
  {
    assert (s.calls + [f])[..|s.calls|] == s.calls;
  }

  lemma LineAfter(s: Session, f: Finished, consumed: nat)
    requires Lined(s) && s.pending.Some? && consumed <= |s.conn.out| && Lags(s.calls + [f], |s.calls|)
    requires AnswerCount(s.conn.out[..consumed])
          == AnswerCount(s.conn.out[..s.consumed]) + (if f.outcome.Ended? then 0 else 1)
    ensures Lined(s.(pending := None, consumed := consumed, calls := s.calls + [f]))
  {
    assert (s.calls + [f])[..|s.calls|] == s.calls;
    LagsExtend(s.calls, f);
  }

  lemma LineAfterCall(s: Session, o: Outcome, consumed: nat)
    requires Lined(s) && s.pending == Some(s.nextId - 1) && consumed <= |s.conn.out|
    requires AnswerCount(s.conn.out[..consumed]) == AnswerCount(s.conn.out[..s.consumed]) + (if o.Ended? then 0 else 1)
    requires TakesNext(s.wire, s.pending.value, AnswerCount(s.conn.out[..s.consumed]), o) && !o.UnexpectedPayload?
    ensures Lined(s.(pending := None, consumed := consumed, calls := s.calls + [Finished(s.pending.value, o)]))
  {
    var f := Finished(s.pending.value, o);
    NextLag(s, f, AnswerCount(s.conn.out[..s.consumed]));
    LineAfter(s, f, consumed);
  }

  lemma ReturnKeepsLine(s: Session, upTo: nat, why: Ending)
    requires AllFit(s.conn.out, s.wire) && Lined(s) && InOrder(s.conn.out)
    requires s.pending == Some(s.nextId - 1) && s.consumed <= upTo <= |s.conn.out|
    ensures Lined(After(s, Return(upTo, why)))
  {
    var o, used := TakenAnswers(s.conn.out, s.wire, s.consumed, upTo, s.pending.value, why);
    LineAfterCall(s, o, s.consumed + used);
  }

  lemma ServerKeepsLine(s: Session, a: Action)
    requires SessionOk(s) && Lined(s) && CanHappen(s, Server(a))
    ensures Lined(After(s, Server(a)))
  {
    OnlyReadsAccept(s.conn, a);
    assert Act(s.conn, a).out[..s.consumed] == s.conn.out[..s.consumed];
  }

  lemma FramesFit(s: Session)
    requires AnswersMatch(s.conn) && s.conn.accepted <= s.wire
    ensures AllFit(s.conn.out, s.wire)
  {
    forall i | 0 <= i < |s.conn.out|
      ensures Fits(s.conn.out, s.wire, i)
    {
    }
  }

  lemma OutGrows(s: Session, e: SessionEvent)
    requires SessionOk(s) && CanHappen(s, e)
    ensures s.conn.out <= After(s, e).conn.out
  {
    if e.Server? {
      OnlyReadsAccept(s.conn, e.action);
    }
  }

  lemma OrderOfPrefix(out: seq<Frame>, more: seq<Frame>)
    requires InOrder(more) && out <= more
    ensures InOrder(out)
  {
    forall i | 0 <= i < |out|
      ensures InTurn(out, i)
    {
      assert InTurn(more, i) && more[i] == out[i] && more[..i] == out[..i];
    }
  }

  lemma StepKeepsLine(s: Session, e: SessionEvent)
    requires SessionOk(s) && Lined(s) && CanHappen(s, e) && InOrder(s.conn.out) && (e.Call? ==> e.buffered)
    ensures Lined(After(s, e))
  {
    match e
    case Call(p, _) => CallKeepsLine(s, p);
    case Return(upTo, why) =>
      FramesFit(s);
      ReturnKeepsLine(s, upTo, why);
    case Server(a) => ServerKeepsLine(s, a);
  }

  lemma CallKeepsLine(s: Session, p: Payload)
    requires Lined(s) && s.pending.None?
    ensures Lined(After(s, Call(p, true)))
  {
  }

  lemma OrderInRun(states: seq<Session>, events: seq<SessionEvent>, i: nat)
    requires SessionRun(states, events) && i < |events| && InOrder(states[i + 1].conn.out)
    ensures InOrder(states[i].conn.out)
  {
    RunKeeps(states, events, i);
    OutGrows(states[i], events[i]);
    OrderOfPrefix(states[i].conn.out, states[i + 1].conn.out);
  }

  lemma LineInRun(states: seq<Session>, events: seq<SessionEvent>, i: nat)
    requires SessionRun(states, events) && i < |events| && (events[i].Call? ==> events[i].buffered)
    requires Lined(states[i]) && InOrder(states[i].conn.out)
    ensures Lined(states[i + 1])
  {
    RunKeeps(states, events, i);
    StepKeepsLine(states[i], events[i]);
  }

  lemma {:induction false} RunIsLined(states: seq<Session>, events: seq<SessionEvent>, i: nat)
    requires SessionRun(states, events) && i < |states| && InOrder(states[i].conn.out)
    requires forall j :: 0 <= j < i && events[j].Call? ==> events[j].buffered
    ensures Lined(states[i])
  {
    if i > 0 {
      OrderInRun(states, events, i - 1);
      RunIsLined(states, events, i - 1);
      LineInRun(states, events, i - 1);
    }
  }

  /**
    One late answer shifts every later call.  In every run of client and server in which messages get
    onto the wire and the server answers in order, a call that gets an answer gets the one that lies as
    many calls back as calls were abandoned before it: its own if there were none, and otherwise an
    earlier one, which ends it in a mismatch.
   */
  lemma LateAnswerShiftsEveryCall(states: seq<Session>, events: seq<SessionEvent>, i: nat, y: nat)
    requires SessionRun(states, events) && i < |states| && y < |states[i].calls| && InOrder(states[i].conn.out)
    requires forall j :: 0 <= j < i && events[j].Call? ==> events[j].buffered
    ensures Lags(states[i].calls, y)
  {
    RunIsLined(states, events, i);
  }

  /** So a call succeeds if and only if neither it nor any call before it was abandoned. */
  lemma OkIffNothingWasAbandoned(states: seq<Session>, events: seq<SessionEvent>, i: nat, y: nat)
    requires SessionRun(states, events) && i < |states| && y < |states[i].calls| && InOrder(states[i].conn.out)
    requires forall j :: 0 <= j < i && events[j].Call? ==> events[j].buffered
    ensures states[i].calls[y].outcome.Ok? <==> forall x :: 0 <= x <= y ==> !states[i].calls[x].outcome.Ended?
  {
    LateAnswerShiftsEveryCall(states, events, i, y);
    NoneEnded(states[i].calls, y);
  }

  lemma {:induction false} NoneEnded(calls: seq<Finished>, y: nat)
    requires y <= |calls|
    ensures EndedCount(calls[..y]) == 0 <==> forall x :: 0 <= x < y ==> !calls[x].outcome.Ended?
  {
    if y > 0 {
      NoneEnded(calls, y - 1);
      assert calls[..y][..y - 1] == calls[..y - 1];
    }
  }

  // -------------------------------------------------------------------------
  // The order matters
  // -------------------------------------------------------------------------

  const ASKED: Payload := Memory(OtherMemoryOp)

  lemma SessionContinued(states: seq<Session>, events: seq<SessionEvent>, e: SessionEvent)
    returns (states': seq<Session>, events': seq<SessionEvent>)
    requires SessionRun(states, events) && CanHappen(states[|events|], e)
    ensures states' == states + [After(states[|events|], e)] && events' == events + [e] && SessionRun(states', events')
  {
    states', events' := states + [After(states[|events|], e)], events + [e];
  }

  // The first call is abandoned, the second is waiting, and the server works on both.
  function BothInProgress(tasks: map<nat, Task>, out: seq<Frame>): Session {
    var wire := [Message(1, ASKED), Message(2, ASKED)];
    Session(FRESH.(tasks := tasks, accepted := wire, out := out), 3, wire, 0, Some(2), [Finished(1, Ended(TimedOut))])
  }

  lemma ServerReads(s: Session, m: Message)
    requires CanHappen(s, Server(Read(m, true, false))) && !IsSubscribe(m.payload) && AtSelect(s.conn)
    ensures var t := After(s, Server(Read(m, true, false)));
            && CanHappen(t, Server(Acquire))
            && After(t, Server(Acquire)) ==
               s.(conn := s.conn.(accepted := s.conn.accepted + [m],
                                  tasks := s.conn.tasks[|s.conn.accepted| := Task(m.id, IsBulkPayload(m.payload), false)]))
  {
  }

  lemma CalledTwice() returns (states: seq<Session>, events: seq<SessionEvent>)
    ensures SessionRun(states, events) && states[|events|] == BothInProgress(map[], []).(conn := FRESH)
  {
    states, events := SessionContinued([OPENED], [], Call(ASKED, true));
    states, events := SessionContinued(states, events, Return(0, TimedOut));
    states, events := SessionContinued(states, events, Call(ASKED, true));
  }

  // The server takes one message off the wire.
  lemma TakenUp(states: seq<Session>, events: seq<SessionEvent>, m: Message)
    returns (states': seq<Session>, events': seq<SessionEvent>)
    requires SessionRun(states, events) && CanHappen(states[|events|], Server(Read(m, true, false)))
    requires !IsSubscribe(m.payload) && AtSelect(states[|events|].conn)
    ensures SessionRun(states', events')
    ensures var (s, c) := (states[|events|], states[|events|].conn);
            states'[|events'|] == s.(conn := c.(accepted := c.accepted + [m],
                                                tasks := c.tasks[|c.accepted| := Task(m.id, IsBulkPayload(m.payload), false)]))
  {
    ServerReads(states[|events|], m);
    states', events' := SessionContinued(states, events, Server(Read(m, true, false)));
    states', events' := SessionContinued(states', events', Server(Acquire));
  }

  lemma Abandoned() returns (states: seq<Session>, events: seq<SessionEvent>)
    ensures SessionRun(states, events)
    ensures states[|events|] == BothInProgress(map[0 := Task(1, false, false), 1 := Task(2, false, false)], [])
  {
    states, events := CalledTwice();
    states, events := TakenUp(states, events, Message(1, ASKED));
    states, events := TakenUp(states, events, Message(2, ASKED));
  }

  /** Without the order a later call can succeed: its answer may overtake the one that was abandoned. */
  lemma OvertakingAnswerSucceeds() returns (states: seq<Session>, events: seq<SessionEvent>)
    ensures SessionRun(states, events) && |states[|events|].calls| == 2
    ensures states[|events|].calls[0].outcome.Ended? && states[|events|].calls[1].outcome.Ok?
  {
    states, events := Abandoned();
    states, events := SessionContinued(states, events, Server(Finish(1)));
    assert states[|events|] == BothInProgress(map[0 := Task(1, false, false), 1 := Task(2, false, true)], []);
    states, events := SessionContinued(states, events, Server(Join(1, true)));
    assert states[|events|].conn.out == [Reply(2, 1)];
    assert [Reply(2, 1)][0..1] == [Reply(2, 1)];
    states, events := SessionContinued(states, events, Return(1, TimedOut));
  }
}
