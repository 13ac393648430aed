// The bridge server in its imperative form: the fields its goroutines share, and
// one method per atomic action, each proved to be a step of SpawnBridge.
module SpawnServer {
  import opened Basics
  import opened SpawnBridge

  class Server {
    var pending: map<string, Sender>
    var sseConns: map<Session, Handler>
    var calls: map<Sender, Call>          // where each Send stands
    var slots: map<Sender, seq<Response>> // the one-slot channels
    var streams: map<Handler, Stream>     // the notification channels
    var reader: Reader
    ghost var answered: map<Sender, Response>
    var log: seq<int>                     // history: every notification broadcast

    constructor ()
      ensures Now() == INITIAL
    {
      pending, sseConns, calls, slots, streams := map[], map[], map[], map[], map[];
      reader, answered, log := Idle, map[], [];
    }

    ghost function Now(): State
      reads this
    {
      State(calls, slots, pending, reader, answered, sseConns, streams, log)
    }

    // ----- Send -----

    method SendRegister(t: Sender, id: string)
      requires Unlocked(Now()) && t !in calls
      modifies this
      ensures Next(old(Now()), Register(t, id), Now())
    {
      calls := calls[t := Call(id, Registered, false, None)];
      slots := slots[t := []];
      pending := pending[id := t];
    }

    method SendWrite(t: Sender, ok: bool)
      requires Unlocked(Now()) && t in calls && calls[t].stage == Registered
      modifies this
      ensures Next(old(Now()), Write(t, ok), Now())
    {
      calls := calls[t := calls[t].(stage := if ok then Waiting else Leaving, sent := ok)];
    }

    // The select of Send: a response if there is one, unless the context is done.
    method SendSelect(t: Sender, done: bool) returns (ready: bool)
      requires t in calls && calls[t].stage == Waiting && t in slots
      modifies this
      ensures ready == (done || old(slots)[t] != [])
      ensures if !ready then Now() == old(Now())
              else if done then Next(old(Now()), Cancel(t), Now())
              else Next(old(Now()), Receive(t), Now())
    {
      if done {
        calls := calls[t := calls[t].(stage := Leaving)];
        return true;
      }
      if slots[t] == [] {
        return false;
      }
      calls := calls[t := calls[t].(stage := Leaving, result := Some(slots[t][0]))];
      slots := slots[t := slots[t][1..]];
      ready := true;
    }

    method SendCleanUp(t: Sender)
      requires Unlocked(Now()) && t in calls && calls[t].stage == Leaving
      modifies this
      ensures Next(old(Now()), CleanUp(t), Now())
    {
      pending := pending - {calls[t].id};
      calls := calls[t := calls[t].(stage := Returned)];
    }

    // ----- readLoop -----

    // Look the waiter up; a response nobody waits for is dropped.
    method ReadResponse(msg: Response)
      requires reader == Idle
      modifies this
      ensures Next(old(Now()), Read(msg), Now())
    {
      answered := answered[msg.origin := msg];
      if msg.id in pending {
        reader := Holding(msg, pending[msg.id]);
      }
    }

    // The send on the one-slot channel, outside the mutex: it waits while the slot is
    // taken, which never happens where the discipline on ids is kept.
    method DeliverResponse() returns (ready: bool)
      requires reader.Holding? && reader.to in slots
      modifies this
      ensures ready == !old(Blocked(Now())) && (old(Inv(Now())) ==> ready)
      ensures if ready then Next(old(Now()), Deliver, Now()) else Now() == old(Now())
    {
      assert Inv(Now()) ==> Correlated(Now(), reader.to);
      if slots[reader.to] != [] {
        return false;
      }
      slots := slots[reader.to := slots[reader.to] + [reader.msg]];
      reader := Idle;
      ready := true;
    }

    method OfferNotification(h: Handler)
      requires reader.Broadcasting? && h in reader.remaining && h in streams
      modifies this`streams, this`reader
      ensures Next(old(Now()), Push(h), Now())
      ensures streams == old(streams)[h := Pushed(old(streams)[h], old(reader).note)]
      ensures reader == old(reader).(remaining := old(reader).remaining - {h})
    {
      var x := streams[h];
      if |x.queue| < CHANNEL_SIZE {
        streams := streams[h := x.(queue := x.queue + [reader.note])];
      } else {
        streams := streams[h := x.(dropped := x.dropped + 1)];
      }
      reader := reader.(remaining := reader.remaining - {h});
    }

    // A whole broadcast that no handler interrupts: every handler in the session
    // table is offered the notification once, in whatever order the map yields them.
    method Broadcast(note: int)
      requires reader == Idle && Listeners(Now()) <= streams.Keys
      modifies this
      ensures Now() == old(Now()).(
                log := old(log) + [note],
                streams := map h | h in old(streams) ::
                             if h in old(Listeners(Now())) then Pushed(old(streams)[h], note) else old(streams)[h])
    {
      ghost var all := streams;
      var listeners := set c | c in sseConns :: sseConns[c];
      log := log + [note];
      reader := Broadcasting(note, listeners);
      while reader.remaining != {}
        modifies this`streams, this`reader
        invariant reader.Broadcasting? && reader.note == note && reader.remaining <= listeners
        invariant streams.Keys == all.Keys
        invariant forall h :: h in all ==>
                    streams[h] == if h in listeners && h !in reader.remaining then Pushed(all[h], note) else all[h]
        decreases reader.remaining
      {
        var h :| h in reader.remaining;
        OfferNotification(h);
      }
      reader := Idle;
    }

    // ----- Sessions -----

    // Handler h makes a channel and enters it under its session id.
    method RegisterSSE(h: Handler, c: Session)
      requires Unlocked(Now()) && h !in streams
      modifies this
      ensures Next(old(Now()), Open(h, c), Now())
    {
      streams := streams[h := Stream(c, [], [], 0, |log|, true)];
      sseConns := sseConns[c := h];
    }

    // Deletes the entry of the handler's session id, as the handler ends.
    method UnregisterSSE(h: Handler)
      requires Unlocked(Now()) && h in streams && streams[h].open
      modifies this
      ensures Next(old(Now()), Close(h), Now())
    {
      sseConns := sseConns - {streams[h].id};
      streams := streams[h := streams[h].(open := false)];
    }

    // One turn of handleSSE's loop.
    method ServeSSE(h: Handler) returns (ready: bool)
      requires h in streams && streams[h].open
      modifies this
      ensures ready == (old(streams)[h].queue != [])
      ensures if ready then Next(old(Now()), Take(h), Now()) else Now() == old(Now())
    {
      var x := streams[h];
      if x.queue == [] {
        return false;
      }
      streams := streams[h := x.(queue := x.queue[1..], delivered := x.delivered + [x.queue[0]])];
      ready := true;
    }
  }
}
