/** The OKX websocket datasource of the mmm/core snapshot
    (mmm/core/datasource/okex/ws.py). Parsed frames go to the event
    dispatcher instead of a message hub. The parser factory it uses
    (mmm/core/datasource/okex/parser.py) is not part of this model: `parse`
    stands for `parser_factory.get(channel).parse(msg)`. */
module MmmCoreOkexWs {
  import opened Types
  import opened Tasks
  import opened Frames
  import opened Sessions
  import opened MmmCoreDispatcher

  /** What a parser returns: one `Event`, a list, or anything else. */
  datatype Parsed<E> = SingleEvent(event: E) | EventList(events: seq<E>) | OtherValue

  /** The events the `isinstance` branches hand to `dispatch`, in order. */
  function ToDispatch<E>(p: Parsed<E>): (r: seq<E>)
    ensures p.SingleEvent? ==> r == [p.event]
    ensures p.EventList? ==> r == p.events
    ensures p.OtherValue? ==> r == []
  {
    match p
    case SingleEvent(e) => [e]
    case EventList(es) => es
    case OtherValue => []
  }

  datatype Action<E> = MarkPong | LogOnly | DispatchAll(events: seq<E>)

  /** One turn of the receive loop before dispatching: `pong` sets the flag, a
      subscribe or error event is logged, any other document is parsed. */
  function FrameAction<E>(f: Frame, parse: (Json, Json) -> Result<Parsed<E>>): (r: Result<Action<E>>)
    ensures r == Ok(MarkPong) <==> f == PongText
    ensures r == Ok(LogOnly) <==>
              f.JsonText? && GetKey(f.doc, "event") in {Ok(Some(JStr("subscribe"))), Ok(Some(JStr("error")))}
    ensures r.Ok? && r.value.DispatchAll? ==>
              && f.JsonText? && Field(f.doc, "arg").Ok? && Field(Field(f.doc, "arg").value, "channel").Ok?
              && parse(Field(Field(f.doc, "arg").value, "channel").value, f.doc).Ok?
              && r.value.events == ToDispatch(parse(Field(Field(f.doc, "arg").value, "channel").value, f.doc).value)
  {
    if f == PongText then Ok(MarkPong)
    else
      var msg :- Decode(f);
      var event :- GetKey(msg, "event");
      if event == Some(JStr("subscribe")) || event == Some(JStr("error")) then Ok(LogOnly)
      else
        var arg :- Field(msg, "arg");
        var channel :- Field(arg, "channel");
        var parsed :- parse(channel, msg);
        Ok(DispatchAll(ToDispatch(parsed)))
  }

  /** The turn that handles `f`: the events are dispatched one by one, and the
      first without a configured source raises RuntimeError after the earlier
      ones went out. */
  function FrameTurn<E>(f: Frame, parse: (Json, Json) -> Result<Parsed<E>>,
                        typeOf: E -> string, conf: map<string, Queue<E>>): (t: Turn<E>)
    ensures t.pong <==> f == PongText
    ensures FrameAction(f, parse).Err? ==> t == Turn([], Raised(FrameAction(f, parse).exc), false)
    ensures FrameAction(f, parse).Ok? && FrameAction(f, parse).value.DispatchAll? ==>
              var es := FrameAction(f, parse).value.events;
              && t.sent == es[..Accepted(typeOf, conf, es)]
              && t.outcome == if Accepted(typeOf, conf, es) < |es| then Raised(RuntimeError) else Completed
  {
    match FrameAction(f, parse)
    case Err(e) => Turn([], Raised(e), false)
    case Ok(a) =>
      match a
      case MarkPong => Turn([], Completed, true)
      case LogOnly => Turn([], Completed, false)
      case DispatchAll(es) =>
        var n := Accepted(typeOf, conf, es);
        Turn(es[..n], if n < |es| then Raised(RuntimeError) else Completed, false)
  }

  function Turns<E>(frames: seq<Frame>, parse: (Json, Json) -> Result<Parsed<E>>,
                    typeOf: E -> string, conf: map<string, Queue<E>>): (r: seq<Turn<E>>)
    ensures |r| == |frames|
    ensures forall i :: 0 <= i < |frames| ==> r[i] == FrameTurn(frames[i], parse, typeOf, conf)
    ensures TurnsOf(r, frames, parse, typeOf, conf)
  {
    seq(|frames|, i requires 0 <= i < |frames| => FrameTurn(frames[i], parse, typeOf, conf))
  }

  /** The turn at `i`; `TurnsOf` goes through it so that a proof about a
      session unfolds a frame's turn only where it names it. */
  ghost function TurnAt<E>(turns: seq<Turn<E>>, i: nat): Turn<E>
    requires i < |turns|
  {
    turns[i]
  }

  /** `turns` are the turns handling each of `frames` makes. */
  ghost predicate TurnsOf<E>(turns: seq<Turn<E>>, frames: seq<Frame>, parse: (Json, Json) -> Result<Parsed<E>>,
                             typeOf: E -> string, conf: map<string, Queue<E>>)
  {
    && |turns| == |frames|
    && forall i {:trigger TurnAt(turns, i)} :: 0 <= i < |frames| ==> TurnAt(turns, i) == FrameTurn(frames[i], parse, typeOf, conf)
  }

  /** How one attempt of `_do_subscribe` ends: the first reply is not a
      subscribe event, or the receive loop ran and broke. */
  datatype AttemptEnd = AckFailed(exc: Exc) | StreamEnded(handled: nat, exc: Exc)

  function Attempt<E>(socket: seq<Frame>, parse: (Json, Json) -> Result<Parsed<E>>,
                      typeOf: E -> string, conf: map<string, Queue<E>>): (r: AttemptEnd)
    ensures r.AckFailed? <==> |socket| == 0 || Acknowledged(socket[0]).Raised?
  {
    if |socket| == 0 then AckFailed(ConnectionClosed)
    else match Acknowledged(socket[0])
      case Raised(e) => AckFailed(e)
      case Completed =>
        var s := Session(Turns(socket[1..], parse, typeOf, conf));
        StreamEnded(s.handled, s.exc)
  }

  /** What one attempt sends to the dispatcher, and whether it sees a pong. */
  function AttemptSession<E>(socket: seq<Frame>, parse: (Json, Json) -> Result<Parsed<E>>,
                             typeOf: E -> string, conf: map<string, Queue<E>>): SessionEnd<E>
  {
    if |socket| == 0 || Acknowledged(socket[0]).Raised? then SessionEnd(0, ConnectionClosed, false, [])
    else Session(Turns(socket[1..], parse, typeOf, conf))
  }

  /** Everything a run of attempts sends to the dispatcher, in order. */
  function SentBy<E>(attempts: seq<seq<Frame>>, parse: (Json, Json) -> Result<Parsed<E>>,
                     typeOf: E -> string, conf: map<string, Queue<E>>): seq<E>
    decreases |attempts|
  {
    if |attempts| == 0 then []
    else SentBy(attempts[..|attempts| - 1], parse, typeOf, conf)
         + AttemptSession(attempts[|attempts| - 1], parse, typeOf, conf).sent
  }

  /** Whether some attempt of the run saw a pong. */
  function PongIn<E>(attempts: seq<seq<Frame>>, parse: (Json, Json) -> Result<Parsed<E>>,
                     typeOf: E -> string, conf: map<string, Queue<E>>): bool
    decreases |attempts|
  {
    if |attempts| == 0 then false
    else PongIn(attempts[..|attempts| - 1], parse, typeOf, conf)
         || AttemptSession(attempts[|attempts| - 1], parse, typeOf, conf).pong
  }

  class OkexWsDatasource<E> {
    var receivedPong: bool
    const parse: (Json, Json) -> Result<Parsed<E>>
    const dispatcher: Dispatcher<E>

    constructor (parse: (Json, Json) -> Result<Parsed<E>>, dispatcher: Dispatcher<E>)
      ensures !receivedPong && this.parse == parse && this.dispatcher == dispatcher
    {
      receivedPong := false;
      this.parse := parse;
      this.dispatcher := dispatcher;
    }

    /** The first half of `ping`: send `ping`, then clear the flag. */
    method SendPing() returns (sent: string)
      modifies this
      ensures sent == "ping" && !receivedPong
    {
      sent := "ping";
      receivedPong := false;
    }

    /** The second half of `ping`, once the interval has passed. */
    method CheckPong() returns (r: Outcome)
      ensures r == if receivedPong then Completed else Raised(CollectionError)
    {
      r := if receivedPong then Completed else Raised(CollectionError);
    }

    /** `for each in event: await self.dispatcher.dispatch(each)`, which stops
        at the first event without a source. */
    method DispatchEach(es: seq<E>) returns (r: Outcome)
      modifies dispatcher.Sources()
      ensures var n := Accepted(dispatcher.typeOf, dispatcher.conf, es);
              && r == (if n < |es| then Raised(RuntimeError) else Completed)
              && FilledBy(dispatcher.typeOf, dispatcher.conf, old(dispatcher.Contents()), dispatcher.Contents(), es[..n])
    {
      var d := dispatcher;
      var n := Accepted(d.typeOf, d.conf, es);
      var i := 0;
      while i < n
        invariant 0 <= i <= n
        invariant FilledBy(d.typeOf, d.conf, old(d.Contents()), d.Contents(), es[..i])
      {
        assert es[..i + 1] == es[..i] + [es[i]];
        assert d.typeOf(es[i]) in d.conf;
        ghost var mid := d.Contents();
        var outcome := d.DispatchOffers(es[i]);
        FilledByTrans(d.typeOf, d.conf, old(d.Contents()), mid, d.Contents(), es[..i], [es[i]]);
        i := i + 1;
      }
      if i < |es| {
        // The first event without a source: `dispatch` raises before touching any queue.
        ghost var mid := d.Contents();
        r := d.DispatchOffers(es[i]);
        assert es[..i] + [] == es[..i];
        FilledByTrans(d.typeOf, d.conf, old(d.Contents()), mid, d.Contents(), es[..i], []);
      } else {
        r := Completed;
      }
    }

    /** One turn of the receive loop. */
    method HandleTurn(f: Frame) returns (t: Turn<E>)
      modifies this, dispatcher.Sources()
      ensures t == FrameTurn(f, parse, dispatcher.typeOf, dispatcher.conf)
      ensures receivedPong == (old(receivedPong) || t.pong)
      ensures FilledBy(dispatcher.typeOf, dispatcher.conf, old(dispatcher.Contents()), dispatcher.Contents(), t.sent)
    {
      var a := FrameAction(f, parse);
      if a.Err? {
        return Turn([], Raised(a.exc), false);
      }
      match a.value
      case MarkPong =>
        receivedPong := true;
        t := Turn([], Completed, true);
      case LogOnly =>
        t := Turn([], Completed, false);
      case DispatchAll(es) =>
        var r := DispatchEach(es);
        t := Turn(es[..Accepted(dispatcher.typeOf, dispatcher.conf, es)], r, false);
    }

    /** The `while True` receive loop of `_do_subscribe`. */
    method ReceiveLoop(frames: seq<Frame>, ghost turns: seq<Turn<E>>) returns (handled: nat, exc: Exc)
      requires TurnsOf(turns, frames, parse, dispatcher.typeOf, dispatcher.conf)
      modifies this, dispatcher.Sources()
      ensures var s := Session(turns);
              && handled == s.handled && exc == s.exc
              && receivedPong == (old(receivedPong) || s.pong)
              && FilledBy(dispatcher.typeOf, dispatcher.conf, old(dispatcher.Contents()), dispatcher.Contents(), s.sent)
    {
      ghost var pong := false;
      ghost var sent: seq<E> := [];
      ghost var start := dispatcher.Contents();
      ResumesStart(turns);
      var i := 0;
      while i < |frames|
        invariant 0 <= i <= |frames|
        invariant Resumes(turns, i, pong, sent)
        invariant receivedPong == (old(receivedPong) || pong)
        invariant FilledBy(dispatcher.typeOf, dispatcher.conf, start, dispatcher.Contents(), sent)
      {
        var t := ReceiveTurn(frames, i, turns, pong, sent, start);
        if t.outcome.Raised? {
          return i, t.outcome.exc;
        }
        pong := pong || t.pong;
        sent := sent + t.sent;
        i := i + 1;
      }
      ResumesEnd(turns, pong, sent);
      handled, exc := i, ConnectionClosed;
    }

    /** The turn of the receive loop for `frames[i]`, with what it means
        for the session of all the frames, resumed at `i` with a pong seen
        so far exactly when `pong` and `sent` dispatched, the queues having
        been `start` before the session. */
    method ReceiveTurn(frames: seq<Frame>, i: nat, ghost turns: seq<Turn<E>>, ghost pong: bool, ghost sent: seq<E>,
                       ghost start: map<Queue<E>, seq<E>>) returns (t: Turn<E>)
      requires i < |frames| && TurnsOf(turns, frames, parse, dispatcher.typeOf, dispatcher.conf)
      requires Resumes(turns, i, pong, sent)
      requires FilledBy(dispatcher.typeOf, dispatcher.conf, start, dispatcher.Contents(), sent)
      modifies this, dispatcher.Sources()
      ensures t.outcome.Raised? ==> !t.pong && Session(turns) == SessionEnd(i, t.outcome.exc, pong, sent + t.sent)
      ensures t.outcome.Completed? ==> Resumes(turns, i + 1, pong || t.pong, sent + t.sent)
      ensures receivedPong == (old(receivedPong) || t.pong)
      ensures FilledBy(dispatcher.typeOf, dispatcher.conf, start, dispatcher.Contents(), sent + t.sent)
    {
      assert TurnAt(turns, i) == FrameTurn(frames[i], parse, dispatcher.typeOf, dispatcher.conf);
      ResumesStep(turns, i, pong, sent);
      ghost var mid := dispatcher.Contents();
      t := HandleTurn(frames[i]);
      FilledByTrans(dispatcher.typeOf, dispatcher.conf, start, mid, dispatcher.Contents(), sent, t.sent);
    }

    /** `_do_subscribe(topic)` on one connection: the topic is sent, the first
        reply must be a subscribe event, then the receive loop runs. */
    method DoSubscribe(socket: seq<Frame>) returns (end: AttemptEnd)
      modifies this, dispatcher.Sources()
      ensures end == Attempt(socket, parse, dispatcher.typeOf, dispatcher.conf)
      ensures var s := AttemptSession(socket, parse, dispatcher.typeOf, dispatcher.conf);
              && receivedPong == (old(receivedPong) || s.pong)
              && FilledBy(dispatcher.typeOf, dispatcher.conf, old(dispatcher.Contents()), dispatcher.Contents(), s.sent)
    {
      if |socket| == 0 {
        return AckFailed(ConnectionClosed);
      }
      var ack := Acknowledged(socket[0]);
      if ack.Raised? {
        return AckFailed(ack.exc);
      }
      var handled, exc := ReceiveLoop(socket[1..], Turns(socket[1..], parse, dispatcher.typeOf, dispatcher.conf));
      end := StreamEnded(handled, exc);
    }

    /** The task `subscribe(topic)` starts: `_do_subscribe` again and again,
        every failure logged. `attempts` holds the frames of each connection
        in turn; every one of them is made, whatever the earlier ones did. */
    method SubscribeTask(attempts: seq<seq<Frame>>) returns (ends: seq<AttemptEnd>)
      modifies this, dispatcher.Sources()
      ensures |ends| == |attempts|
      ensures forall i :: 0 <= i < |attempts| ==> ends[i] == Attempt(attempts[i], parse, dispatcher.typeOf, dispatcher.conf)
      ensures receivedPong == (old(receivedPong) || PongIn(attempts, parse, dispatcher.typeOf, dispatcher.conf))
      ensures FilledBy(dispatcher.typeOf, dispatcher.conf, old(dispatcher.Contents()), dispatcher.Contents(),
                       SentBy(attempts, parse, dispatcher.typeOf, dispatcher.conf))
    {
      ends := [];
      ghost var start := dispatcher.Contents();
      var i := 0;
      while i < |attempts|
        invariant 0 <= i <= |attempts|
        invariant |ends| == i
        invariant forall j :: 0 <= j < i ==> ends[j] == Attempt(attempts[j], parse, dispatcher.typeOf, dispatcher.conf)
        invariant receivedPong == (old(receivedPong) || PongIn(attempts[..i], parse, dispatcher.typeOf, dispatcher.conf))
        invariant FilledBy(dispatcher.typeOf, dispatcher.conf, start, dispatcher.Contents(),
                           SentBy(attempts[..i], parse, dispatcher.typeOf, dispatcher.conf))
      {
        var end := SubscribeAttempt(attempts, i, start);
        assert attempts[..i + 1][..i] == attempts[..i];
        ends := ends + [end];
        i := i + 1;
      }
      assert attempts[..i] == attempts;
    }

    /** Attempt `i` of the subscribe task, after the first `i` attempts
        took the queues from `start`. */
    method SubscribeAttempt(attempts: seq<seq<Frame>>, i: nat, ghost start: map<Queue<E>, seq<E>>) returns (end: AttemptEnd)
      requires i < |attempts|
      requires FilledBy(dispatcher.typeOf, dispatcher.conf, start, dispatcher.Contents(),
                        SentBy(attempts[..i], parse, dispatcher.typeOf, dispatcher.conf))
      modifies this, dispatcher.Sources()
      ensures end == Attempt(attempts[i], parse, dispatcher.typeOf, dispatcher.conf)
      ensures receivedPong == (old(receivedPong) || AttemptSession(attempts[i], parse, dispatcher.typeOf, dispatcher.conf).pong)
      ensures FilledBy(dispatcher.typeOf, dispatcher.conf, start, dispatcher.Contents(),
                       SentBy(attempts[..i + 1], parse, dispatcher.typeOf, dispatcher.conf))
    {
      ghost var mid := dispatcher.Contents();
      end := DoSubscribe(attempts[i]);
      assert attempts[..i + 1][..i] == attempts[..i];
      FilledByTrans(dispatcher.typeOf, dispatcher.conf, start, mid, dispatcher.Contents(),
                    SentBy(attempts[..i], parse, dispatcher.typeOf, dispatcher.conf),
                    AttemptSession(attempts[i], parse, dispatcher.typeOf, dispatcher.conf).sent);
    }
  }

  /** The receive loop stops at the first frame that cannot be handled or
      that carries an event whose class has no source, and only then; the
      events of every earlier frame all went to the dispatcher. */
  lemma DispatchStopsAtFirstFailure<E>(frames: seq<Frame>, parse: (Json, Json) -> Result<Parsed<E>>,
                                       typeOf: E -> string, conf: map<string, Queue<E>>)
    ensures var r := Session(Turns(frames, parse, typeOf, conf));
            && r.handled <= |frames|
            && (forall i :: 0 <= i < r.handled ==>
                  && FrameAction(frames[i], parse).Ok?
                  && (FrameAction(frames[i], parse).value.DispatchAll? ==>
                        forall j :: 0 <= j < |FrameAction(frames[i], parse).value.events| ==>
                          typeOf(FrameAction(frames[i], parse).value.events[j]) in conf))
            && (r.handled < |frames| ==>
                  || FrameAction(frames[r.handled], parse) == Err(r.exc)
                  || (&& FrameAction(frames[r.handled], parse).Ok?
                      && FrameAction(frames[r.handled], parse).value.DispatchAll?
                      && r.exc == RuntimeError))
            && (r.handled == |frames| ==> r.exc == ConnectionClosed)
  {
    var turns := Turns(frames, parse, typeOf, conf);
    SessionStopsAtFirstFailure(turns);
    var r := Session(turns);
    forall i | 0 <= i < r.handled
      ensures FrameAction(frames[i], parse).Ok?
      ensures FrameAction(frames[i], parse).value.DispatchAll? ==>
                forall j :: 0 <= j < |FrameAction(frames[i], parse).value.events| ==>
                  typeOf(FrameAction(frames[i], parse).value.events[j]) in conf
    {
      assert turns[i].outcome == Completed;
    }
  }

  /** A pong handled after the ping went out lets the pong check pass. */
  method PongAfterPing<E>(ds: OkexWsDatasource<E>) returns (r: Outcome)
    modifies ds, ds.dispatcher.Sources()
    ensures r == Completed
  {
    var sent := ds.SendPing();
    var t := ds.HandleTurn(PongText);
    r := ds.CheckPong();
  }
}
