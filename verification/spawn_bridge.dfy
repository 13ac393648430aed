// The stdio bridge of the MCP gateway: concurrent Sends wait for the responses that
// one reader goroutine correlates by request id, and notifications are broadcast
// to bounded queues. Threads interleave at atomic steps; steps that take the
// server mutex cannot happen while the reader broadcasts, because it holds it.
//
// The steps are all the code permits. What clients and subprocess are expected to
// keep to is a hypothesis (Disciplined) of the theorems that need it.
module SpawnBridge {
  import opened Basics

  type Sender = nat      // one call of Send, and the one-slot channel it makes
  type Handler = nat     // one call of handleSSE, and the channel it registers
  type Session = string  // the id a handler registers its channel under

  // A response carries the id it answers; the body stands for the rest. `origin` is
  // history the bridge does not see: the Send whose request this responds to.
  datatype Response = Response(id: string, origin: Sender, body: int)

  datatype Stage = Registered | Waiting | Leaving | Returned

  // A Send in progress: its request id, where it stands, whether its request has
  // been written, and what it returns (None for an error or a cancelled context).
  datatype Call = Call(id: string, stage: Stage, sent: bool, result: Option<Response>)

  // An SSE handler: its session id, its channel, what it has written to its client,
  // how many notifications found the channel full, how many had been broadcast when
  // it registered, and whether it is still running.
  datatype Stream = Stream(id: Session, queue: seq<int>, delivered: seq<int>, dropped: nat, start: nat, open: bool)

  datatype Reader =
    | Idle
    | Holding(msg: Response, to: Sender)                 // looked up, not yet delivered
    | Broadcasting(note: int, remaining: set<Handler>)   // holds the mutex

  // `answered` (by origin) and `log` record what the subprocess has said so far.
  datatype State = State(
    calls: map<Sender, Call>,
    slots: map<Sender, seq<Response>>,
    pending: map<string, Sender>,
    reader: Reader,
    answered: map<Sender, Response>,
    conns: map<Session, Handler>,
    streams: map<Handler, Stream>,
    log: seq<int>)

  const CHANNEL_SIZE := 64

  const INITIAL := State(map[], map[], map[], Idle, map[], map[], map[], [])

  predicate Active(c: Call) { c.stage != Returned }

  // ----- Steps -----

  datatype Step =
    | Register(t: Sender, id: string)
    | Write(t: Sender, ok: bool)
    | Receive(t: Sender)
    | Cancel(t: Sender)
    | CleanUp(t: Sender)
    | Read(msg: Response)
    | Deliver
    | StartBroadcast(note: int)
    | Push(h: Handler)
    | EndBroadcast
    | Open(h: Handler, c: Session)
    | Take(h: Handler)
    | Close(h: Handler)

  function AfterRegister(s: State, t: Sender, id: string): State {
    s.(calls := s.calls[t := Call(id, Registered, false, None)], slots := s.slots[t := []],
       pending := s.pending[id := t])
  }

  // The deferred clean-up deletes the entry of its id, whoever's it is by then.
  function AfterCleanUp(s: State, t: Sender): State
    requires t in s.calls
  {
    s.(calls := s.calls[t := s.calls[t].(stage := Returned)], pending := s.pending - {s.calls[t].id})
  }

  // The reader looks the id up under the mutex; an unknown id is only logged.
  function AfterRead(s: State, msg: Response): State {
    var s' := s.(answered := s.answered[msg.origin := msg]);
    if msg.id in s.pending then s'.(reader := Holding(msg, s.pending[msg.id])) else s'
  }

  function Pushed(x: Stream, note: int): Stream {
    if |x.queue| < CHANNEL_SIZE then x.(queue := x.queue + [note]) else x.(dropped := x.dropped + 1)
  }

  // The channels the reader finds in the session table.
  function Listeners(s: State): set<Handler> { set c | c in s.conns :: s.conns[c] }

  function AfterOpen(s: State, h: Handler, c: Session): State {
    s.(conns := s.conns[c := h], streams := s.streams[h := Stream(c, [], [], 0, |s.log|, true)])
  }

  // Like the clean-up of a Send, by id.
  function AfterClose(s: State, h: Handler): State
    requires h in s.streams
  {
    s.(conns := s.conns - {s.streams[h].id}, streams := s.streams[h := s.streams[h].(open := false)])
  }

  predicate Unlocked(s: State) { !s.reader.Broadcasting? }

  // The reader's send on the one-slot channel has to wait.
  predicate Blocked(s: State) { s.reader.Holding? && (s.reader.to !in s.slots || |s.slots[s.reader.to]| >= 1) }

  ghost predicate Next(s: State, e: Step, s': State) {
    match e
    case Register(t, id) => Unlocked(s) && t !in s.calls && s' == AfterRegister(s, t, id)
    case Write(t, ok) =>
      && Unlocked(s) && t in s.calls && s.calls[t].stage == Registered
      && s' == s.(calls := s.calls[t := s.calls[t].(stage := if ok then Waiting else Leaving, sent := ok)])
    case Receive(t) =>
      && t in s.calls && s.calls[t].stage == Waiting && t in s.slots && s.slots[t] != []
      && s' == s.(calls := s.calls[t := s.calls[t].(stage := Leaving, result := Some(s.slots[t][0]))],
                  slots := s.slots[t := s.slots[t][1..]])
    case Cancel(t) =>
      && t in s.calls && s.calls[t].stage == Waiting
      && s' == s.(calls := s.calls[t := s.calls[t].(stage := Leaving)])
    case CleanUp(t) =>
      Unlocked(s) && t in s.calls && s.calls[t].stage == Leaving && s' == AfterCleanUp(s, t)
    case Read(msg) => s.reader == Idle && s' == AfterRead(s, msg)
    case Deliver =>
      && s.reader.Holding? && !Blocked(s)
      && s' == s.(slots := s.slots[s.reader.to := s.slots[s.reader.to] + [s.reader.msg]], reader := Idle)
    case StartBroadcast(note) =>
      s.reader == Idle && s' == s.(reader := Broadcasting(note, Listeners(s)), log := s.log + [note])
    case Push(h) =>
      && s.reader.Broadcasting? && h in s.reader.remaining && h in s.streams
      && s' == s.(streams := s.streams[h := Pushed(s.streams[h], s.reader.note)],
                  reader := s.reader.(remaining := s.reader.remaining - {h}))
    case EndBroadcast => s.reader.Broadcasting? && s.reader.remaining == {} && s' == s.(reader := Idle)
    case Open(h, c) => Unlocked(s) && h !in s.streams && s' == AfterOpen(s, h, c)
    case Take(h) =>
      && h in s.streams && s.streams[h].open && s.streams[h].queue != []
      && var x := s.streams[h];
         s' == s.(streams := s.streams[h := x.(queue := x.queue[1..], delivered := x.delivered + [x.queue[0]])])
    case Close(h) => Unlocked(s) && h in s.streams && s.streams[h].open && s' == AfterClose(s, h)
  }

  datatype Execution = Execution(states: seq<State>, steps: seq<Step>)

  // Marks the steps a proof looks at.
  predicate Index(i: int) { 0 <= i }

  ghost predicate Steps(x: Execution) {
    && |x.states| == |x.steps| + 1
    && forall i {:trigger Index(i)} :: Index(i) && i < |x.steps| ==> Next(x.states[i], x.steps[i], x.states[i + 1])
  }

  lemma StepOf(x: Execution, i: nat)
    requires Steps(x) && i < |x.steps|
    ensures Next(x.states[i], x.steps[i], x.states[i + 1])
  {
    assert Index(i);
  }

  ghost predicate Valid(x: Execution) { Steps(x) && x.states[0] == INITIAL }

  // ----- What clients and subprocess keep to -----

  // No Send in flight has this id.
  predicate IdFree(s: State, id: string) {
    forall t :: t in s.calls && Active(s.calls[t]) ==> s.calls[t].id != id
  }

  // t's request has been written and the subprocess still owes it a response.
  predicate Unanswered(s: State, t: Sender) { t in s.calls && s.calls[t].sent && t !in s.answered }

  predicate NoneLate(s: State, id: string) {
    forall t :: t in s.calls && Unanswered(s, t) ==> s.calls[t].id != id
  }

  // A response to a written request that has had none, under the request's id.
  predicate Answers(s: State, msg: Response) { Unanswered(s, msg.origin) && s.calls[msg.origin].id == msg.id }

  // An id may be used again once its last use is over and answered; the subprocess
  // answers each request at most once (section 5 of the JSON-RPC 2.0 Specification).
  predicate Orderly(s: State, e: Step) {
    match e
    case Register(_, id) => IdFree(s, id) && NoneLate(s, id)
    case Read(msg) => Answers(s, msg)
    case _ => true
  }

  predicate Disciplined(x: Execution) {
    forall i :: 0 <= i < |x.steps| && i < |x.states| ==> Orderly(x.states[i], x.steps[i])
  }

  // ----- What holds in every execution -----

  // Per call: everything in its slot, and its result, carries its id.
  predicate OwnIds(s: State, t: Sender)
    requires t in s.calls && t in s.slots
  {
    && |s.slots[t]| <= 1
    && (forall i :: 0 <= i < |s.slots[t]| ==> s.slots[t][i].id == s.calls[t].id)
    && (s.calls[t].result.Some? ==> s.calls[t].result.value.id == s.calls[t].id)
  }

  predicate Basic(s: State) {
    && s.slots.Keys == s.calls.Keys
    && (forall id :: id in s.pending ==>
          s.pending[id] in s.calls && Active(s.calls[s.pending[id]]) && s.calls[s.pending[id]].id == id)
    && (s.reader.Holding? ==> s.reader.to in s.calls && s.calls[s.reader.to].id == s.reader.msg.id)
    && (forall t :: t in s.calls ==> OwnIds(s, t))
  }

  // Steps that change nothing of the calls, except one call and its slot.
  lemma CallKeepsBasic(s: State, s': State, t: Sender)
    requires Basic(s) && t in s.calls && t in s'.calls && t in s'.slots
    requires s' == s.(calls := s.calls[t := s'.calls[t]], slots := s.slots[t := s'.slots[t]], reader := s'.reader)
    requires s'.reader == s.reader || !s'.reader.Holding?
    requires s'.calls[t].id == s.calls[t].id && (Active(s.calls[t]) ==> Active(s'.calls[t])) && OwnIds(s', t)
    ensures Basic(s')
  {
    forall u | u in s'.calls
      ensures OwnIds(s', u)
    {
      assert u != t ==> OwnIds(s, u);
    }
  }

  lemma RegisterKeepsBasic(s: State, t: Sender, id: string)
    requires Basic(s) && t !in s.calls
    ensures Basic(AfterRegister(s, t, id))
  {
    var s' := AfterRegister(s, t, id);
    forall u | u in s'.calls
      ensures OwnIds(s', u)
    {
      assert u != t ==> OwnIds(s, u);
    }
  }

  lemma CleanUpKeepsBasic(s: State, t: Sender)
    requires Basic(s) && t in s.calls
    ensures Basic(AfterCleanUp(s, t))
  {
    var s' := AfterCleanUp(s, t);
    forall u | u in s'.calls
      ensures OwnIds(s', u)
    {
      assert OwnIds(s, u);
    }
  }

  // Steps that leave calls, slots and index alone.
  lemma OthersKeepBasic(s: State, s': State)
    requires Basic(s) && s'.calls == s.calls && s'.slots == s.slots && s'.pending == s.pending
    requires s'.reader == s.reader || !s'.reader.Holding?
             || (s'.reader.to in s.calls && s.calls[s'.reader.to].id == s'.reader.msg.id)
    ensures Basic(s')
  {
    forall u | u in s'.calls
      ensures OwnIds(s', u)
    {
      assert OwnIds(s, u);
    }
  }

  lemma SendKeepsBasic(s: State, e: Step, s': State)
    requires Basic(s) && Next(s, e, s') && (e.Write? || e.Receive? || e.Cancel?)
    ensures Basic(s')
  {
    assert OwnIds(s, e.t);
    assert s.slots[e.t := s.slots[e.t]] == s.slots;
    CallKeepsBasic(s, s', e.t);
  }

  lemma DeliverKeepsBasic(s: State, s': State)
    requires Basic(s) && Next(s, Deliver, s')
    ensures Basic(s')
  {
    var t := s.reader.to;
    assert OwnIds(s, t);
    assert s.calls[t := s.calls[t]] == s.calls;
    CallKeepsBasic(s, s', t);
  }

  lemma StepKeepsBasic(s: State, e: Step, s': State)
    requires Basic(s) && Next(s, e, s')
    ensures Basic(s')
  {
    match e
    case Register(t, id) => RegisterKeepsBasic(s, t, id);
    case Write(_, _) => SendKeepsBasic(s, e, s');
    case Receive(_) => SendKeepsBasic(s, e, s');
    case Cancel(_) => SendKeepsBasic(s, e, s');
    case CleanUp(t) => CleanUpKeepsBasic(s, t);
    case Deliver => DeliverKeepsBasic(s, s');
    case _ => OthersKeepBasic(s, s');
  }

  // ----- The index of Sends in flight -----

  // Each Send in flight is found under its id.
  predicate Indexed(s: State) {
    forall t :: t in s.calls && Active(s.calls[t]) ==> s.calls[t].id in s.pending && s.pending[s.calls[t].id] == t
  }

  // Registering keeps the index exactly when no Send in flight has the same id.
  lemma RegisterKeepsIndexIff(s: State, t: Sender, id: string)
    requires Basic(s) && Indexed(s) && t !in s.calls
    ensures Indexed(AfterRegister(s, t, id)) <==> IdFree(s, id)
  {
    var s' := AfterRegister(s, t, id);
    if u :| u in s.calls && Active(s.calls[u]) && s.calls[u].id == id {
      assert u in s'.calls && s'.pending[id] == t;
    }
  }

  // The same Sends under the same ids, and none in flight that was not.
  predicate SameSends(s: State, s': State) {
    && s'.pending == s.pending && s'.calls.Keys == s.calls.Keys
    && forall t :: t in s'.calls ==>
         s'.calls[t].id == s.calls[t].id && (Active(s'.calls[t]) ==> Active(s.calls[t]))
  }

  lemma IndexFrame(s: State, s': State)
    requires Indexed(s) && SameSends(s, s')
    ensures Indexed(s')
  {
  }

  lemma StepFrame(s: State, e: Step, s': State)
    requires Next(s, e, s') && !e.Register? && !e.CleanUp?
    ensures SameSends(s, s')
  {
  }

  lemma CleanUpKeepsIndex(s: State, t: Sender)
    requires Basic(s) && Indexed(s) && t in s.calls && Active(s.calls[t])
    ensures Indexed(AfterCleanUp(s, t))
  {
    assert s.pending[s.calls[t].id] == t;
  }

  lemma StepKeepsIndex(s: State, e: Step, s': State)
    requires Basic(s) && Indexed(s) && Next(s, e, s')
    requires e.Register? ==> IdFree(s, e.id)
    ensures Indexed(s')
  {
    match e
    case Register(t, id) => RegisterKeepsIndexIff(s, t, id);
    case CleanUp(t) => CleanUpKeepsIndex(s, t);
    case _ =>
      StepFrame(s, e, s');
      IndexFrame(s, s');
  }

  // ----- Correlation -----

  // Nothing can come of t any more: it has returned, and no answer to it is due.
  predicate Quiet(s: State, t: Sender)
    requires t in s.calls
  {
    !Active(s.calls[t]) && !Unanswered(s, t)
  }

  // Of two Sends with one id, one is quiet.
  predicate OneAtATime(s: State) {
    forall t, u :: t in s.calls && u in s.calls && t != u && s.calls[t].id == s.calls[u].id ==> Quiet(s, t) || Quiet(s, u)
  }

  // The answer to t's request is on its way: in the reader's hand or in t's slot.
  predicate UnderWay(s: State, t: Sender, m: Response)
    requires t in s.slots
  {
    s.slots[t] == [m] || (s.slots[t] == [] && s.reader == Holding(m, t))
  }

  // Per call: its slot, the reader's hand and its result agree with what the
  // subprocess has answered to its request.
  predicate Correlated(s: State, t: Sender)
    requires t in s.calls && t in s.slots
  {
    var c := s.calls[t];
    && (c.stage == Registered ==> !c.sent)
    && (t in s.answered ==> c.sent && s.answered[t].id == c.id && s.answered[t].origin == t)
    && (c.result.Some? ==> c.stage in {Leaving, Returned} && t in s.answered && c.result.value == s.answered[t]
                           && s.slots[t] == [] && !(s.reader.Holding? && s.reader.to == t))
    && (c.result.None? && c.stage == Waiting && t in s.answered ==> UnderWay(s, t, s.answered[t]))
    && (s.slots[t] != [] ==> t in s.answered && s.slots[t] == [s.answered[t]])
    && (s.reader.Holding? && s.reader.to == t ==> t in s.answered && s.reader.msg == s.answered[t] && s.slots[t] == [])
  }

  predicate Inv(s: State) {
    && Basic(s) && Indexed(s) && OneAtATime(s)
    && s.answered.Keys <= s.calls.Keys
    && (forall t :: t in s.calls ==> Correlated(s, t))
  }

  // No call is added, and none stops being quiet.
  lemma OneAtATimeFrame(s: State, s': State)
    requires OneAtATime(s) && s'.calls.Keys == s.calls.Keys
    requires forall t :: t in s'.calls ==> s'.calls[t].id == s.calls[t].id && (Quiet(s, t) ==> Quiet(s', t))
    ensures OneAtATime(s')
  {
  }

  lemma RegisterKeepsInv(s: State, t: Sender, id: string)
    requires Inv(s) && t !in s.calls && IdFree(s, id) && NoneLate(s, id)
    ensures Inv(AfterRegister(s, t, id))
  {
    RegisterKeepsBasic(s, t, id);
    RegisterKeepsIndexIff(s, t, id);
    var s' := AfterRegister(s, t, id);
    forall u | u in s'.calls
      ensures Correlated(s', u)
      ensures u != t ==> (Quiet(s', u) <==> Quiet(s, u))
    {
      assert u != t ==> Correlated(s, u);
    }
  }

  lemma CleanUpKeepsInv(s: State, t: Sender)
    requires Inv(s) && t in s.calls && s.calls[t].stage == Leaving
    ensures Inv(AfterCleanUp(s, t))
  {
    CleanUpKeepsBasic(s, t);
    CleanUpKeepsIndex(s, t);
    var s' := AfterCleanUp(s, t);
    forall u | u in s'.calls
      ensures Correlated(s', u) && (Quiet(s, u) ==> Quiet(s', u))
    {
      assert Correlated(s, u);
    }
    OneAtATimeFrame(s, s');
  }

  // An answer is looked up under its id and found to be for the Send it answers.
  lemma LookedUpRight(s: State, msg: Response)
    requires Basic(s) && OneAtATime(s) && Answers(s, msg) && msg.id in s.pending
    ensures s.pending[msg.id] == msg.origin
  {
    assert !Quiet(s, s.pending[msg.id]) && !Quiet(s, msg.origin);
  }

  lemma ReadKeepsCall(s: State, msg: Response, t: Sender)
    requires Inv(s) && s.reader == Idle && Answers(s, msg) && t in s.calls
    ensures Correlated(AfterRead(s, msg), t)
  {
    assert Correlated(s, t);
    if msg.id in s.pending {
      LookedUpRight(s, msg);
    }
    if t == msg.origin {
      assert s.slots[t] == [] && s.calls[t].result.None?;
    }
  }

  lemma ReadKeepsTables(s: State, msg: Response)
    requires Basic(s) && Indexed(s) && OneAtATime(s) && !s.reader.Holding?
    ensures Basic(AfterRead(s, msg)) && Indexed(AfterRead(s, msg)) && OneAtATime(AfterRead(s, msg))
  {
    OthersKeepBasic(s, AfterRead(s, msg));
    IndexFrame(s, AfterRead(s, msg));
    OneAtATimeFrame(s, AfterRead(s, msg));
  }

  lemma ReadKeepsCalls(s: State, msg: Response)
    requires Inv(s) && s.reader == Idle && Answers(s, msg)
    ensures forall t :: t in s.calls ==> Correlated(AfterRead(s, msg), t)
  {
    forall t | t in s.calls
      ensures Correlated(AfterRead(s, msg), t)
    {
      ReadKeepsCall(s, msg, t);
    }
  }

  lemma ReadKeepsInv(s: State, msg: Response)
    requires Inv(s) && s.reader == Idle && Answers(s, msg)
    ensures Inv(AfterRead(s, msg))
  {
    ReadKeepsTables(s, msg);
    ReadKeepsCalls(s, msg);
  }

  // Steps of one call in flight: only its own entry and slot change.
  lemma CallKeepsInv(s: State, s': State, t: Sender)
    requires Inv(s) && t in s.calls && t in s'.calls && t in s'.slots
    requires s' == s.(calls := s.calls[t := s'.calls[t]], slots := s.slots[t := s'.slots[t]])
    requires Active(s.calls[t]) && Active(s'.calls[t]) && s'.calls[t].id == s.calls[t].id
    requires Correlated(s', t) && OwnIds(s', t)
    ensures Inv(s')
  {
    CallKeepsBasic(s, s', t);
    IndexFrame(s, s');
    forall u | u in s'.calls
      ensures Correlated(s', u) && (Quiet(s, u) ==> Quiet(s', u))
    {
      assert u != t ==> Correlated(s, u);
    }
    OneAtATimeFrame(s, s');
  }

  lemma SendKeepsInv(s: State, e: Step, s': State)
    requires Inv(s) && Next(s, e, s') && (e.Write? || e.Receive? || e.Cancel?)
    ensures Inv(s')
  {
    assert Correlated(s, e.t) && OwnIds(s, e.t);
    assert s.slots[e.t := s.slots[e.t]] == s.slots;
    CallKeepsInv(s, s', e.t);
  }

  lemma DeliverKeepsInv(s: State, s': State)
    requires Inv(s) && Next(s, Deliver, s')
    ensures Inv(s')
  {
    DeliverKeepsBasic(s, s');
    IndexFrame(s, s');
    forall u | u in s'.calls
      ensures Correlated(s', u) && (Quiet(s, u) ==> Quiet(s', u))
    {
      assert Correlated(s, u) && Correlated(s, s.reader.to);
    }
    OneAtATimeFrame(s, s');
  }

  lemma BroadcastKeepsInv(s: State, s': State)
    requires Inv(s) && s' == s.(reader := s'.reader, streams := s'.streams, conns := s'.conns, log := s'.log)
    requires s'.reader == s.reader || (!s.reader.Holding? && !s'.reader.Holding?)
    ensures Inv(s')
  {
    OthersKeepBasic(s, s');
    IndexFrame(s, s');
    forall t | t in s'.calls
      ensures Correlated(s', t) && (Quiet(s, t) ==> Quiet(s', t))
    {
      assert Correlated(s, t);
    }
    OneAtATimeFrame(s, s');
  }

  // Every orderly step keeps the correlation invariant.
  lemma StepKeepsInv(s: State, e: Step, s': State)
    requires Inv(s) && Next(s, e, s') && Orderly(s, e)
    ensures Inv(s')
  {
    match e
    case Register(t, id) => RegisterKeepsInv(s, t, id);
    case Write(_, _) => SendKeepsInv(s, e, s');
    case Receive(_) => SendKeepsInv(s, e, s');
    case Cancel(_) => SendKeepsInv(s, e, s');
    case CleanUp(t) => CleanUpKeepsInv(s, t);
    case Read(msg) => ReadKeepsInv(s, msg);
    case Deliver => DeliverKeepsInv(s, s');
    case _ => BroadcastKeepsInv(s, s');
  }

  // ----- Broadcast invariant -----

  // f maps the positions of a, in order, to positions of b with the same elements.
  predicate Embeds(f: seq<int>, a: seq<int>, b: seq<int>) {
    && |f| == |a|
    && (forall i :: 0 <= i < |a| ==> 0 <= f[i] < |b| && a[i] == b[f[i]])
    && (forall i, j :: 0 <= i < j < |f| ==> f[i] < f[j])
  }

  // a is b with some elements left out.
  ghost predicate Subsequence(a: seq<int>, b: seq<int>) { exists f :: Embeds(f, a, b) }

  lemma SubsequenceAppend(a: seq<int>, b: seq<int>, x: int)
    requires Subsequence(a, b)
    ensures Subsequence(a, b + [x]) && Subsequence(a + [x], b + [x])
  {
    var f :| Embeds(f, a, b);
    assert Embeds(f, a, b + [x]);
    assert Embeds(f + [|b|], a + [x], b + [x]);
  }

  // What the client has seen or will see of the notifications.
  function Received(x: Stream): seq<int> { x.delivered + x.queue }

  function Offered(x: Stream): nat { |x.delivered| + |x.queue| + x.dropped }

  ghost predicate StreamOk(x: Stream, log: seq<int>) {
    && |x.queue| <= CHANNEL_SIZE
    && x.start + Offered(x) <= |log|
    && Subsequence(Received(x), log[x.start..x.start + Offered(x)])
    && (x.dropped == 0 ==> Received(x) == log[x.start..x.start + Offered(x)])
  }

  // The reader would find h's channel in the session table.
  predicate Listens(s: State, h: Handler) {
    h in s.streams && s.streams[h].id in s.conns && s.conns[s.streams[h].id] == h
  }

  // One while the reader still has to offer the latest notification to h.
  function Outstanding(s: State, h: Handler): nat {
    if s.reader.Broadcasting? && h in s.reader.remaining then 1 else 0
  }

  // The session table leads to running handlers that registered under its keys.
  predicate TableOk(s: State) {
    forall c :: c in s.conns ==> s.conns[c] in s.streams && s.streams[s.conns[c]].id == c && s.streams[s.conns[c]].open
  }

  // A handler in the table has been offered all that was broadcast since it came,
  // but for the notification in the reader's hand.
  ghost predicate HandlerOk(s: State, h: Handler)
    requires h in s.streams
  {
    && StreamOk(s.streams[h], s.log)
    && (Listens(s, h) ==> s.streams[h].start + Offered(s.streams[h]) + Outstanding(s, h) == |s.log|)
  }

  ghost predicate HandlersOk(s: State) { forall h {:trigger HandlerOk(s, h)} :: h in s.streams ==> HandlerOk(s, h) }

  // The broadcasting reader is to offer the latest notification to registered handlers.
  predicate ReaderOk(s: State) {
    s.reader.Broadcasting? ==>
      && (forall h :: h in s.reader.remaining ==> Listens(s, h))
      && s.log != [] && s.reader.note == s.log[|s.log| - 1]
  }

  ghost predicate BroadcastInv(s: State) { TableOk(s) && ReaderOk(s) && HandlersOk(s) }

  lemma LogGrows(x: Stream, log: seq<int>, note: int)
    requires StreamOk(x, log)
    ensures StreamOk(x, log + [note])
  {
    assert (log + [note])[x.start..x.start + Offered(x)] == log[x.start..x.start + Offered(x)];
  }

  // One more notification has been offered: it is queued, or dropped.
  lemma QueuedOk(x: Stream, log: seq<int>)
    requires StreamOk(x, log) && x.start + Offered(x) + 1 == |log| && |x.queue| < CHANNEL_SIZE
    ensures StreamOk(x.(queue := x.queue + [log[|log| - 1]]), log)
  {
    var n, was := log[|log| - 1], log[x.start..x.start + Offered(x)];
    var y := x.(queue := x.queue + [n]);
    assert log[y.start..y.start + Offered(y)] == was + [n] && Received(y) == Received(x) + [n];
    SubsequenceAppend(Received(x), was, n);
  }

  lemma DroppedOk(x: Stream, log: seq<int>)
    requires StreamOk(x, log) && x.start + Offered(x) + 1 == |log|
    ensures StreamOk(x.(dropped := x.dropped + 1), log)
  {
    var n, was := log[|log| - 1], log[x.start..x.start + Offered(x)];
    var y := x.(dropped := x.dropped + 1);
    assert log[y.start..y.start + Offered(y)] == was + [n] && Received(y) == Received(x);
    SubsequenceAppend(Received(x), was, n);
  }

  lemma PushedOk(x: Stream, log: seq<int>)
    requires StreamOk(x, log) && x.start + Offered(x) + 1 == |log|
    ensures StreamOk(Pushed(x, log[|log| - 1]), log)
  {
    if |x.queue| < CHANNEL_SIZE {
      QueuedOk(x, log);
    } else {
      DroppedOk(x, log);
    }
  }

  lemma TakenOk(x: Stream, log: seq<int>)
    requires StreamOk(x, log) && x.queue != []
    ensures StreamOk(x.(queue := x.queue[1..], delivered := x.delivered + [x.queue[0]]), log)
  {
    assert Received(x.(queue := x.queue[1..], delivered := x.delivered + [x.queue[0]])) == Received(x);
  }

  lemma StartKeepsBroadcast(s: State, note: int)
    requires BroadcastInv(s) && s.reader == Idle
    ensures BroadcastInv(s.(reader := Broadcasting(note, Listeners(s)), log := s.log + [note]))
  {
    var s' := s.(reader := Broadcasting(note, Listeners(s)), log := s.log + [note]);
    forall h | h in s'.streams
      ensures HandlerOk(s', h)
    {
      assert HandlerOk(s, h);
      LogGrows(s.streams[h], s.log, note);
      assert Listens(s, h) ==> s.conns[s.streams[h].id] in Listeners(s);
    }
  }

  // A handler whose stream, but for its end, and whose place in the table have not
  // changed.
  lemma HandlerFrame(s: State, s': State, h: Handler)
    requires h in s.streams && h in s'.streams && HandlerOk(s, h)
    requires s'.streams[h] == s.streams[h].(open := s'.streams[h].open) && s'.log == s.log
    requires Listens(s', h) ==> Listens(s, h) && Outstanding(s', h) == Outstanding(s, h)
    ensures HandlerOk(s', h)
  {
  }

  // Steps that replace one handler's stream by one that accounts for as much, and
  // for one more if the reader has offered it the notification.
  lemma StreamKeepsTable(s: State, s': State, h: Handler)
    requires TableOk(s) && h in s.streams && h in s'.streams && s'.conns == s.conns
    requires s'.streams == s.streams[h := s'.streams[h]]
    requires s'.streams[h].id == s.streams[h].id && s'.streams[h].open == s.streams[h].open
    ensures TableOk(s')
    ensures forall g :: Listens(s', g) <==> Listens(s, g)
  {
  }

  lemma StreamKeepsHandlers(s: State, s': State, h: Handler)
    requires HandlersOk(s) && h in s.streams && h in s'.streams && HandlerOk(s', h)
    requires s'.streams == s.streams[h := s'.streams[h]] && s'.log == s.log
    requires forall g :: g in s.streams && g != h ==>
               (Listens(s', g) ==> Listens(s, g)) && Outstanding(s', g) == Outstanding(s, g)
    ensures HandlersOk(s')
  {
    forall g | g in s'.streams
      ensures HandlerOk(s', g)
    {
      if g != h {
        HandlerFrame(s, s', g);
      }
    }
  }

  lemma StreamKeepsBroadcast(s: State, s': State, h: Handler)
    requires BroadcastInv(s) && h in s.streams && h in s'.streams
    requires s' == s.(streams := s.streams[h := s'.streams[h]], reader := s'.reader)
    requires s'.streams[h].id == s.streams[h].id && s'.streams[h].open == s.streams[h].open
    requires s'.reader == s.reader
             || (s.reader.Broadcasting? && s'.reader == s.reader.(remaining := s.reader.remaining - {h}))
    requires HandlerOk(s', h)
    ensures BroadcastInv(s')
  {
    StreamKeepsTable(s, s', h);
    StreamKeepsHandlers(s, s', h);
  }

  lemma PushKeepsBroadcast(s: State, s': State, h: Handler)
    requires BroadcastInv(s) && Next(s, Push(h), s')
    ensures BroadcastInv(s')
  {
    assert Listens(s, h) && HandlerOk(s, h);
    PushedOk(s.streams[h], s.log);
    StreamKeepsBroadcast(s, s', h);
  }

  lemma TakeKeepsBroadcast(s: State, s': State, h: Handler)
    requires BroadcastInv(s) && Next(s, Take(h), s')
    ensures BroadcastInv(s')
  {
    assert HandlerOk(s, h);
    TakenOk(s.streams[h], s.log);
    StreamKeepsBroadcast(s, s', h);
  }

  lemma OpenKeepsBroadcast(s: State, h: Handler, c: Session)
    requires BroadcastInv(s) && Unlocked(s) && h !in s.streams
    ensures BroadcastInv(AfterOpen(s, h, c))
  {
    var s' := AfterOpen(s, h, c);
    forall g | g in s'.streams
      ensures HandlerOk(s', g)
    {
      if g != h {
        HandlerFrame(s, s', g);
      } else {
        assert Embeds([], Received(s'.streams[h]), s.log[|s.log|..|s.log|]);
      }
    }
  }

  lemma CloseKeepsBroadcast(s: State, h: Handler)
    requires BroadcastInv(s) && Unlocked(s) && h in s.streams
    ensures BroadcastInv(AfterClose(s, h))
  {
    var s' := AfterClose(s, h);
    forall g | g in s'.streams
      ensures HandlerOk(s', g)
    {
      HandlerFrame(s, s', g);
    }
  }

  // Steps that touch no session, and leave the reader's broadcast as it is or end it
  // with nothing outstanding.
  lemma OthersKeepBroadcast(s: State, s': State)
    requires BroadcastInv(s) && s'.streams == s.streams && s'.log == s.log && s'.conns == s.conns
    requires s'.reader == s.reader
             || (!s'.reader.Broadcasting? && (s.reader.Broadcasting? ==> s.reader.remaining == {}))
    ensures BroadcastInv(s')
  {
    forall h | h in s'.streams
      ensures HandlerOk(s', h)
    {
      assert HandlerOk(s, h);
    }
  }

  lemma StepKeepsBroadcast(s: State, e: Step, s': State)
    requires BroadcastInv(s) && Next(s, e, s')
    ensures BroadcastInv(s')
  {
    match e
    case StartBroadcast(note) => StartKeepsBroadcast(s, note);
    case Push(h) => PushKeepsBroadcast(s, s', h);
    case Take(h) => TakeKeepsBroadcast(s, s', h);
    case Open(h, c) => OpenKeepsBroadcast(s, h, c);
    case Close(h) => CloseKeepsBroadcast(s, h);
    case _ => OthersKeepBroadcast(s, s');
  }

  // ----- Theorems about all executions -----

  lemma {:induction false} BasicAt(x: Execution, i: nat)
    requires Valid(x) && i < |x.states|
    ensures Basic(x.states[i]) && BroadcastInv(x.states[i])
  {
    if i > 0 {
      BasicAt(x, i - 1);
      StepOf(x, i - 1);
      StepKeepsBasic(x.states[i - 1], x.steps[i - 1], x.states[i]);
      StepKeepsBroadcast(x.states[i - 1], x.steps[i - 1], x.states[i]);
    }
  }

  // However ids are used and whatever the subprocess says, a completed Send returns
  // a response that carries its own request id.
  lemma OwnId(x: Execution, i: nat, t: Sender)
    requires Valid(x) && i < |x.states| && t in x.states[i].calls && x.states[i].calls[t].result.Some?
    ensures x.states[i].calls[t].result.value.id == x.states[i].calls[t].id
  {
    BasicAt(x, i);
    assert OwnIds(x.states[i], t);
  }

  lemma {:induction false} IndexAt(x: Execution, i: nat)
    requires Valid(x) && i < |x.states|
    requires forall j :: 0 <= j < i && x.steps[j].Register? ==> IdFree(x.states[j], x.steps[j].id)
    ensures Indexed(x.states[i])
  {
    if i > 0 {
      IndexAt(x, i - 1);
      BasicAt(x, i - 1);
      StepOf(x, i - 1);
      StepKeepsIndex(x.states[i - 1], x.steps[i - 1], x.states[i]);
    }
  }

  // If no id is registered while it is in flight, the keys of pending are exactly
  // the ids of the Sends between registration and clean-up.
  lemma PendingIsInFlight(x: Execution, i: nat)
    requires Valid(x) && i < |x.states|
    requires forall j :: 0 <= j < i && x.steps[j].Register? ==> IdFree(x.states[j], x.steps[j].id)
    ensures var s := x.states[i];
            s.pending.Keys == set t | t in s.calls && Active(s.calls[t]) :: s.calls[t].id
  {
    BasicAt(x, i);
    IndexAt(x, i);
    var s := x.states[i];
    forall id | id in s.pending
      ensures id in set t | t in s.calls && Active(s.calls[t]) :: s.calls[t].id
    {
      assert s.calls[s.pending[id]].id == id;
    }
  }

  // ----- Theorems about disciplined executions -----

  lemma {:induction false} InvAt(x: Execution, i: nat)
    requires Valid(x) && Disciplined(x) && i < |x.states|
    ensures Inv(x.states[i])
  {
    if i > 0 {
      InvAt(x, i - 1);
      StepOf(x, i - 1);
      StepKeepsInv(x.states[i - 1], x.steps[i - 1], x.states[i]);
    }
  }

  // A completed Send returns the subprocess's answer to its own request, also where
  // ids are used again.
  lemma OwnResponse(x: Execution, i: nat, t: Sender)
    requires Valid(x) && Disciplined(x) && i < |x.states|
    requires t in x.states[i].calls && x.states[i].calls[t].result.Some?
    ensures var s, c := x.states[i], x.states[i].calls[t];
            && c.result.value.origin == t && c.result.value.id == c.id
            && t in s.answered && c.result.value == s.answered[t]
  {
    InvAt(x, i);
    assert Correlated(x.states[i], t);
  }

  // What a Send receives is that answer, and a Send that fails or is cancelled
  // returns none.
  lemma ReceiveReturnsAnswer(x: Execution, i: nat)
    requires Valid(x) && Disciplined(x) && i < |x.steps| && x.steps[i].Receive?
    ensures var t, s, s' := x.steps[i].t, x.states[i], x.states[i + 1];
            && t in s.answered && t in s.calls && t in s'.calls && s'.calls[t].stage == Leaving
            && s'.calls[t].result == Some(s.answered[t]) && s'.calls[t].id == s.calls[t].id
  {
    InvAt(x, i);
    StepOf(x, i);
    assert Correlated(x.states[i], x.steps[i].t);
  }

  // What a Send has received it returns, whatever happens after.
  lemma {:induction false} ResultIsFinal(x: Execution, i: nat, j: nat, t: Sender)
    requires Steps(x) && i <= j < |x.states| && t in x.states[i].calls
    requires x.states[i].calls[t].result.Some? && x.states[i].calls[t].stage in {Leaving, Returned}
    ensures t in x.states[j].calls && x.states[j].calls[t].result == x.states[i].calls[t].result
    ensures x.states[j].calls[t].stage in {Leaving, Returned} && x.states[j].calls[t].id == x.states[i].calls[t].id
  {
    if i < j {
      ResultIsFinal(x, i, j - 1, t);
      StepOf(x, j - 1);
    }
  }

  // While the reader broadcasts it holds the mutex: neither table changes.
  lemma TablesAreLocked(s: State, e: Step, s': State)
    requires Next(s, e, s') && s.reader.Broadcasting?
    ensures s'.pending == s.pending && s'.conns == s.conns
  {
  }

  lemma ReaderNeverBlocks(x: Execution, i: nat)
    requires Valid(x) && Disciplined(x) && i < |x.states|
    ensures !Blocked(x.states[i])
  {
    InvAt(x, i);
    var s := x.states[i];
    assert s.reader.Holding? ==> Correlated(s, s.reader.to);
  }

  // An answer read while its Send waits is not lost: the Send can receive it, at
  // the latest after the reader's next delivery.
  lemma AnswerReachesSend(x: Execution, i: nat, t: Sender)
    requires Valid(x) && Disciplined(x) && i < |x.states|
    requires t in x.states[i].calls && x.states[i].calls[t].stage == Waiting && t in x.states[i].answered
    ensures t in x.states[i].slots
    ensures UnderWay(x.states[i], t, x.states[i].answered[t])
  {
    InvAt(x, i);
    assert Correlated(x.states[i], t);
  }

  // ----- Where the discipline is left -----

  // From a correlated state, using id once more lets some later answer to another
  // request be taken for the new one's, exactly when such an answer is still due.
  lemma MisdeliversIff(s: State, t: Sender, id: string)
    requires Basic(s) && s.reader == Idle && t !in s.calls && t !in s.answered
    ensures var s' := AfterRegister(s, t, id);
            (exists msg :: Answers(s', msg) && msg.origin != t && AfterRead(s', msg).reader == Holding(msg, t))
            <==> !NoneLate(s, id)
  {
    var s' := AfterRegister(s, t, id);
    if u :| u in s.calls && Unanswered(s, u) && s.calls[u].id == id {
      var msg := Response(id, u, 0);
      assert Answers(s', msg) && msg.origin != t && AfterRead(s', msg).reader == Holding(msg, t);
    }
    if msg :| Answers(s', msg) && msg.origin != t && AfterRead(s', msg).reader == Holding(msg, t) {
      assert Unanswered(s, msg.origin) && s.calls[msg.origin].id == id;
    }
  }

  // With two Sends in flight under one id, the clean-up of the first takes the
  // second one's entry along: its answer is then dropped as unknown.
  lemma DuplicateIdLosesAnswer(s: State, t: Sender, u: Sender, msg: Response)
    requires Basic(s) && t in s.calls && Active(s.calls[t]) && u !in s.calls && msg.id == s.calls[t].id
    ensures var s' := AfterCleanUp(AfterRegister(s, u, msg.id), t);
            && Active(s'.calls[u]) && s'.calls[u].id == msg.id
            && msg.id !in s'.pending
            && AfterRead(s', msg) == s'.(answered := s'.answered[msg.origin := msg])
  {
  }

  // Reading a message leaves the reader blocked exactly when a Send in flight with
  // its id has not emptied its slot.
  lemma ReadBlocksIff(s: State, msg: Response)
    requires Basic(s) && Indexed(s) && s.reader == Idle
    ensures Blocked(AfterRead(s, msg))
            <==> exists t :: t in s.calls && Active(s.calls[t]) && s.calls[t].id == msg.id && s.slots[t] != []
  {
    if msg.id in s.pending {
      var t := s.pending[msg.id];
      assert t in s.calls && Active(s.calls[t]) && s.calls[t].id == msg.id;
    }
  }

  // The Send that a blocked reader delivers to no longer receives.
  predicate Stuck(s: State) {
    Blocked(s) && s.reader.to in s.calls && s.reader.to in s.slots && s.calls[s.reader.to].stage in {Leaving, Returned}
  }

  lemma StuckStep(s: State, e: Step, s': State)
    requires Stuck(s) && Next(s, e, s')
    ensures Stuck(s') && s'.reader == s.reader
  {
    match e
    case Register(_, _) =>
    case CleanUp(_) =>
    case _ =>
  }

  lemma {:induction false} StuckForever(x: Execution, i: nat, j: nat)
    requires Steps(x) && i <= j < |x.states| && Stuck(x.states[i])
    ensures Stuck(x.states[j]) && x.states[j].reader == x.states[i].reader
  {
    if i < j {
      StuckForever(x, i, j - 1);
      StepOf(x, j - 1);
      StuckStep(x.states[j - 1], x.steps[j - 1], x.states[j]);
    }
  }

  // A blocked reader can be unblocked, by any continuation, exactly when its Send
  // has yet to reach its select.
  lemma UnblocksIff(s: State)
    requires Basic(s) && Blocked(s)
    ensures (exists x: Execution :: Steps(x) && x.states[0] == s && !Blocked(x.states[|x.states| - 1]))
            <==> s.calls[s.reader.to].stage in {Registered, Waiting}
  {
    var t := s.reader.to;
    assert OwnIds(s, t);
    if s.calls[t].stage == Waiting {
      var x := ReceiveUnblocks(s);
    } else if s.calls[t].stage == Registered {
      var s1 := s.(calls := s.calls[t := s.calls[t].(stage := Waiting, sent := true)]);
      assert Next(s, Write(t, true), s1);
      StepKeepsBasic(s, Write(t, true), s1);
      var x := ReceiveUnblocks(s1);
      var y := Execution([s] + x.states, [Write(t, true)] + x.steps);
      forall i | Index(i) && i < |y.steps|
        ensures Next(y.states[i], y.steps[i], y.states[i + 1])
      {
        if i > 0 { StepOf(x, i - 1); }
      }
      assert Steps(y) && y.states[0] == s && y.states[|y.states| - 1] == x.states[|x.states| - 1];
    } else {
      forall x: Execution | Steps(x) && x.states[0] == s
        ensures Blocked(x.states[|x.states| - 1])
      {
        StuckForever(x, 0, |x.states| - 1);
      }
    }
  }

  lemma ReceiveUnblocks(s: State) returns (x: Execution)
    requires Basic(s) && Blocked(s) && s.calls[s.reader.to].stage == Waiting
    ensures Steps(x) && |x.states| == 2 && x.states[0] == s && !Blocked(x.states[1])
  {
    var t := s.reader.to;
    assert OwnIds(s, t);
    var s1 := s.(calls := s.calls[t := s.calls[t].(stage := Leaving, result := Some(s.slots[t][0]))],
                 slots := s.slots[t := s.slots[t][1..]]);
    x := Execution([s, s1], [Receive(t)]);
  }

  // ----- Sessions -----

  // Each handler in the session table sees, in order, a subsequence of what was
  // broadcast since it registered; nothing is unaccounted for; without drops it
  // sees everything. This holds whatever session ids handlers use.
  lemma SessionSeesBroadcasts(x: Execution, i: nat, h: Handler)
    requires Valid(x) && i < |x.states| && Listens(x.states[i], h)
    ensures var s := x.states[i];
            && s.streams[h].start + Outstanding(s, h) <= |s.log|
            && |s.streams[h].queue| <= 64
            && Subsequence(Received(s.streams[h]), s.log[s.streams[h].start..|s.log| - Outstanding(s, h)])
            && |s.streams[h].delivered| + |s.streams[h].queue| + s.streams[h].dropped
               == |s.log| - s.streams[h].start - Outstanding(s, h)
            && (s.streams[h].dropped == 0 ==>
                  Received(s.streams[h]) == s.log[s.streams[h].start..|s.log| - Outstanding(s, h)])
  {
    BasicAt(x, i);
    assert HandlerOk(x.states[i], h);
  }

  // A handler whose queue is never full, with 64 notifications, drops nothing.
  lemma {:induction false} NeverFullNeverDrops(x: Execution, i: nat, h: Handler)
    requires Valid(x) && i < |x.states| && h in x.states[i].streams
    requires forall j :: 0 <= j <= i && h in x.states[j].streams ==> |x.states[j].streams[h].queue| < 64
    ensures x.states[i].streams[h].dropped == 0
  {
    if i > 0 {
      StepOf(x, i - 1);
      if h in x.states[i - 1].streams {
        NeverFullNeverDrops(x, i - 1, h);
      }
    }
  }

  // Every running handler is in the session table.
  predicate AllListen(s: State) { forall h :: h in s.streams && s.streams[h].open ==> Listens(s, h) }

  // No running handler uses this session id.
  predicate SessionFree(s: State, c: Session) {
    forall h :: h in s.streams && s.streams[h].open ==> s.streams[h].id != c
  }

  lemma OpenKeepsListeningIff(s: State, h: Handler, c: Session)
    requires BroadcastInv(s) && AllListen(s) && h !in s.streams
    ensures AllListen(AfterOpen(s, h, c)) <==> SessionFree(s, c)
  {
    var s' := AfterOpen(s, h, c);
    if g :| g in s.streams && s.streams[g].open && s.streams[g].id == c {
      assert g in s'.streams && s'.streams[g].open && !Listens(s', g);
    }
  }

  // Steps that are none of a handler's business.
  lemma SessionsUntouched(s: State, e: Step, s': State)
    requires Next(s, e, s') && !e.Push? && !e.Open? && !e.Take? && !e.Close?
    ensures s'.conns == s.conns && s'.streams == s.streams
  {
  }

  // Taking from a channel and offering to it leave the table and the handler as they are.
  lemma StreamStep(s: State, e: Step, s': State)
    requires Next(s, e, s') && (e.Push? || e.Take?)
    ensures s'.conns == s.conns && e.h in s.streams && e.h in s'.streams
    ensures s'.streams == s.streams[e.h := s'.streams[e.h]]
    ensures s'.streams[e.h].id == s.streams[e.h].id && s'.streams[e.h].open == s.streams[e.h].open
    ensures e.Take? ==> Received(s'.streams[e.h]) == Received(s.streams[e.h]) && s'.streams[e.h].dropped == s.streams[e.h].dropped
  {
    if e.Take? {
      var x := s.streams[e.h];
      assert x.delivered + [x.queue[0]] + x.queue[1..] == x.delivered + x.queue;
    }
  }

  lemma CloseKeepsListening(s: State, h: Handler)
    requires AllListen(s) && h in s.streams && s.streams[h].open
    ensures AllListen(AfterClose(s, h))
  {
    assert Listens(s, h);
  }

  lemma StepKeepsListening(s: State, e: Step, s': State)
    requires BroadcastInv(s) && AllListen(s) && Next(s, e, s')
    requires e.Open? ==> SessionFree(s, e.c)
    ensures AllListen(s')
  {
    match e
    case Open(h, c) => OpenKeepsListeningIff(s, h, c);
    case Close(h) => CloseKeepsListening(s, h);
    case Take(h) => StreamStep(s, e, s');
    case Push(h) => StreamStep(s, e, s');
    case _ => SessionsUntouched(s, e, s');
  }

  // While session ids are distinct, every running handler is one that the theorem
  // above speaks about.
  lemma {:induction false} RunningHandlersListen(x: Execution, i: nat)
    requires Valid(x) && i < |x.states|
    requires forall j :: 0 <= j < i && x.steps[j].Open? ==> SessionFree(x.states[j], x.steps[j].c)
    ensures AllListen(x.states[i])
  {
    if i > 0 {
      RunningHandlersListen(x, i - 1);
      BasicAt(x, i - 1);
      StepOf(x, i - 1);
      StepKeepsListening(x.states[i - 1], x.steps[i - 1], x.states[i]);
    }
  }

  // A second handler under the id of a running one takes its place in the table, and
  // the first one's end then takes the second one out: both still run, or the
  // second does, and the reader finds neither.
  lemma DuplicateSessionOrphansBoth(s: State, first: Handler, second: Handler)
    requires BroadcastInv(s) && Listens(s, first) && second !in s.streams
    ensures var c := s.streams[first].id;
            var both := AfterOpen(s, second, c);
            var closed := AfterClose(both, first);
            && both.streams[first].open && !Listens(both, first) && Listens(both, second)
            && closed.streams[second].open && !Listens(closed, second)
            && first !in Listeners(closed) && second !in Listeners(closed)
  {
  }

  lemma OrphanStep(s: State, e: Step, s': State, h: Handler)
    requires BroadcastInv(s) && Next(s, e, s') && h in s.streams && !Listens(s, h)
    ensures h in s'.streams && !Listens(s', h)
    ensures Received(s'.streams[h]) == Received(s.streams[h]) && s'.streams[h].dropped == s.streams[h].dropped
  {
    match e
    case Take(g) => StreamStep(s, e, s');
    case Push(g) =>
      StreamStep(s, e, s');
      assert Listens(s, g);
    case Open(g, c) =>
    case Close(g) =>
    case _ => SessionsUntouched(s, e, s');
  }

  // A handler that has dropped out of the table is never offered anything again.
  lemma {:induction false} OrphanHearsNothing(x: Execution, i: nat, j: nat, h: Handler)
    requires Valid(x) && i <= j < |x.states| && h in x.states[i].streams && !Listens(x.states[i], h)
    ensures h in x.states[j].streams && !Listens(x.states[j], h)
    ensures Received(x.states[j].streams[h]) == Received(x.states[i].streams[h])
    ensures x.states[j].streams[h].dropped == x.states[i].streams[h].dropped
  {
    if i < j {
      OrphanHearsNothing(x, i, j - 1, h);
      BasicAt(x, j - 1);
      StepOf(x, j - 1);
      OrphanStep(x.states[j - 1], x.steps[j - 1], x.states[j], h);
    }
  }
}
