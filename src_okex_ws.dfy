/** The OKX websocket datasource of the src snapshot
    (src/mmm/core/datasource/okex/ws.py). The socket is the sequence of
    frames `ws.recv()` returns; connecting, sending and the timers are not
    modelled beyond what is sent and in which order. */
module SrcOkexWs {
  import opened Types
  import opened Dicts
  import opened MmmCoreOkexSubscription
  import opened MmmCoreParserFactory
  import opened SrcOkexParser
  import opened SrcDsMsgHub
  import opened Frames
  import opened Sessions

  /** What the datasource writes to the socket. */
  datatype Outgoing = Login(credential: Credential) | Topics(request: Request) | PingText

  /** The `args` the loop in `subscribe` collects: each subscription's topic
      args, in input order. */
  function BatchArgs(subs: seq<Subscription>): (r: seq<TopicArg>)
    ensures |r| == |subs|
    ensures forall i :: 0 <= i < |subs| ==> [r[i]] == Topic(subs[i]).args
  {
    if |subs| == 0 then [] else Topic(subs[0]).args + BatchArgs(subs[1..])
  }

  /** The one subscribe request sent for the whole batch. */
  function BatchRequest(subs: seq<Subscription>): (r: Request)
    ensures r.op == "subscribe" && |r.args| == |subs|
    ensures forall i :: 0 <= i < |subs| ==> r.args[i] == Topic(subs[i]).args[0]
  {
    Request("subscribe", BatchArgs(subs))
  }

  /** Batching two lists of subscriptions one after the other sends the
      concatenation of their args. */
  lemma {:induction false} BatchArgsConcat(a: seq<Subscription>, b: seq<Subscription>)
    ensures BatchArgs(a + b) == BatchArgs(a) + BatchArgs(b)
    decreases |a|
  {
    if |a| > 0 {
      assert (a + b)[1..] == a[1..] + b;
      BatchArgsConcat(a[1..], b);
    } else {
      assert a + b == b;
    }
  }

  /** `parser_factory.get(channel)` for a decoded channel. `startswith` is
      only called inside the loop over the keys: a non-string channel raises
      AttributeError at the first key, and with no keys the loop's `else`
      raises RuntimeError whatever the channel is. */
  function ChannelParser(keys: seq<string>, registry: map<string, Parser>, channel: Json): (r: Result<Parser>)
    requires forall i :: 0 <= i < |keys| ==> keys[i] in registry
    ensures channel.JStr? ==> r == FirstPrefix(keys, registry, channel.s)
    ensures |keys| == 0 ==> r == Err(RuntimeError)
    ensures !channel.JStr? && |keys| > 0 ==> r == Err(AttributeError)
  {
    if channel.JStr? then FirstPrefix(keys, registry, channel.s)
    else if |keys| == 0 then Err(RuntimeError)
    else Err(AttributeError)
  }

  /** What handling one received frame amounts to. */
  datatype Action = MarkPong | LogOnly | PublishAll(msgs: seq<Response>)

  function Published(a: Action): seq<Response>
  {
    if a.PublishAll? then a.msgs else []
  }

  /** One turn of the receive loop: `pong` sets the flag; a subscribe or error
      event is logged; any other document is parsed by the parser of its
      `arg.channel` and every response is published. */
  function FrameAction(f: Frame, keys: seq<string>, registry: map<string, Parser>): (r: Result<Action>)
    requires forall i :: 0 <= i < |keys| ==> keys[i] in registry
    ensures r == Ok(MarkPong) <==> f == PongText
    ensures r == Ok(LogOnly) <==>
              f.JsonText? && GetKey(f.doc, "event") in {Ok(Some(JStr("subscribe"))), Ok(Some(JStr("error")))}
    ensures r.Ok? && r.value.PublishAll? ==>
              && f.JsonText? && Field(f.doc, "arg").Ok? && Field(Field(f.doc, "arg").value, "channel").Ok?
              && var p := ChannelParser(keys, registry, Field(Field(f.doc, "arg").value, "channel").value);
                 p.Ok? && Parse(p.value, f.doc) == Ok(r.value.msgs)
  {
    if f == PongText then Ok(MarkPong)
    else
      var data :- Decode(f);
      var event :- GetKey(data, "event");
      if event == Some(JStr("subscribe")) || event == Some(JStr("error")) then Ok(LogOnly)
      else
        var arg :- Field(data, "arg");
        var channel :- Field(arg, "channel");
        var parser :- ChannelParser(keys, registry, channel);
        var msgs :- Parse(parser, data);
        Ok(PublishAll(msgs))
  }

  /** A data frame whose `arg.channel` is not a string raises, and so ends
      the receive loop: RuntimeError from the loop's `else` when no parser is
      registered, AttributeError from `startswith` otherwise. */
  lemma NonStringChannelRaises(doc: Json, keys: seq<string>, registry: map<string, Parser>)
    requires forall i :: 0 <= i < |keys| ==> keys[i] in registry
    requires GetKey(doc, "event").Ok? && GetKey(doc, "event").value !in {Some(JStr("subscribe")), Some(JStr("error"))}
    requires Field(doc, "arg").Ok? && Field(Field(doc, "arg").value, "channel").Ok?
    requires !Field(Field(doc, "arg").value, "channel").value.JStr?
    ensures FrameAction(JsonText(doc), keys, registry) == Err(if |keys| == 0 then RuntimeError else AttributeError)
  {
  }

  /** The turn of the receive loop that handles `f`. */
  function FrameTurn(f: Frame, keys: seq<string>, registry: map<string, Parser>): (t: Turn<Response>)
    requires forall i :: 0 <= i < |keys| ==> keys[i] in registry
    ensures t.pong <==> f == PongText
  {
    match FrameAction(f, keys, registry)
    case Err(e) => Turn([], Raised(e), false)
    case Ok(a) => Turn(Published(a), Completed, a == MarkPong)
  }

  /** The turns handling each of `frames` would make. */
  function Turns(frames: seq<Frame>, keys: seq<string>, registry: map<string, Parser>): (r: seq<Turn<Response>>)
    requires forall i :: 0 <= i < |keys| ==> keys[i] in registry
    ensures |r| == |frames|
    ensures forall i :: 0 <= i < |frames| ==> r[i] == FrameTurn(frames[i], keys, registry)
    ensures TurnsOf(r, frames, keys, registry)
  {
    seq(|frames|, i requires 0 <= i < |frames| => FrameTurn(frames[i], keys, registry))
  }

  /** The turn at `i`; `TurnsOf` goes through it so that a proof about a
      session unfolds a frame's turn only where it names it. */
  ghost function TurnAt(turns: seq<Turn<Response>>, i: nat): Turn<Response>
    requires i < |turns|
  {
    turns[i]
  }

  /** `turns` are the turns handling each of `frames` makes. */
  ghost predicate TurnsOf(turns: seq<Turn<Response>>, frames: seq<Frame>, keys: seq<string>, registry: map<string, Parser>)
    requires forall i :: 0 <= i < |keys| ==> keys[i] in registry
  {
    && |turns| == |frames|
    && forall i {:trigger TurnAt(turns, i)} :: 0 <= i < |frames| ==> TurnAt(turns, i) == FrameTurn(frames[i], keys, registry)
  }

  /** The receive loop stops at the first frame whose handling raises, with
      that frame's exception, and only then; it has seen a pong exactly when
      one of the handled frames is `pong`. A failing frame publishes nothing. */
  lemma ReceiveStopsAtFirstFailure(frames: seq<Frame>, keys: seq<string>, registry: map<string, Parser>)
    requires forall i :: 0 <= i < |keys| ==> keys[i] in registry
    ensures var r := Session(Turns(frames, keys, registry));
            && r.handled <= |frames|
            && (forall i :: 0 <= i < r.handled ==> FrameAction(frames[i], keys, registry).Ok?)
            && (r.handled < |frames| ==> FrameAction(frames[r.handled], keys, registry) == Err(r.exc))
            && (r.handled == |frames| ==> r.exc == ConnectionClosed)
            && (r.pong <==> exists i :: 0 <= i < r.handled && frames[i] == PongText)
  {
    var turns := Turns(frames, keys, registry);
    SessionStopsAtFirstFailure(turns);
    SessionPong(turns);
    var r := Session(turns);
    assert forall i :: 0 <= i < r.handled ==> turns[i].outcome == Completed;
    if r.pong {
      var i :| 0 <= i < r.handled && turns[i].pong;
      assert frames[i] == PongText;
    }
    if exists i :: 0 <= i < r.handled && frames[i] == PongText {
      var i :| 0 <= i < r.handled && frames[i] == PongText;
      assert turns[i].pong;
    }
  }

  /** How one call of `subscribe` gets past the opening exchange. */
  datatype Handshake =
    | LoginFailed(exc: Exc)   // the login reply could not be read
    | LoginRejected           // the login reply's code is not "0"
    | AckFailed(exc: Exc)     // the first reply to the topics is not a subscribe event
    | Opened(start: nat)      // receiving starts at frame `start`

  /** `rv['code'] != '0'` on the login reply: Ok(true) lets the subscription go on. */
  function LoginAccepted(f: Frame): (r: Result<bool>)
    ensures r == Ok(true) <==> f.JsonText? && Field(f.doc, "code") == Ok(JStr("0"))
  {
    var rv :- Decode(f);
    var code :- Field(rv, "code");
    Ok(code == JStr("0"))
  }

  function Shake(credential: Option<Credential>, socket: seq<Frame>): (r: Handshake)
    ensures r.Opened? ==> r.start == (if credential.Some? then 2 else 1) <= |socket|
    ensures r == LoginRejected <==> credential.Some? && 0 < |socket| && LoginAccepted(socket[0]) == Ok(false)
  {
    var ackAt := if credential.Some? then 1 else 0;
    if credential.Some? && |socket| == 0 then LoginFailed(ConnectionClosed)
    else if credential.Some? && LoginAccepted(socket[0]).Err? then LoginFailed(LoginAccepted(socket[0]).exc)
    else if credential.Some? && LoginAccepted(socket[0]) == Ok(false) then LoginRejected
    else if |socket| <= ackAt then AckFailed(ConnectionClosed)
    else match Acknowledged(socket[ackAt])
      case Raised(e) => AckFailed(e)
      case Completed => Opened(ackAt + 1)
  }

  /** How `subscribe` returns: it catches and logs every exception. */
  datatype SubscribeEnd = Failed(exc: Exc) | Rejected | StreamEnded(handled: nat, exc: Exc)

  /** `OkexWsDatasource`. */
  class OkexWsDatasource {
    var receivedPong: bool
    const credential: Option<Credential>
    const factory: ParserFactory<Parser>
    const hub: AsyncioQueueDsMsgHub

    ghost predicate Valid()
      reads this, factory, hub
    {
      factory.Valid() && hub.Valid()
    }

    constructor (credential: Option<Credential>, factory: ParserFactory<Parser>, hub: AsyncioQueueDsMsgHub)
      requires factory.Valid() && hub.Valid()
      ensures Valid() && !receivedPong
      ensures this.credential == credential && this.factory == factory && this.hub == hub
    {
      receivedPong := false;
      this.credential := credential;
      this.factory := factory;
      this.hub := hub;
    }

    /** The first half of `ping`: send `ping`, then clear the flag. */
    method SendPing() returns (sent: Outgoing)
      modifies this
      ensures sent == PingText && !receivedPong
    {
      sent := PingText;
      receivedPong := false;
    }

    /** The second half of `ping`, once the interval has passed. */
    method CheckPong() returns (r: Outcome)
      ensures r == if receivedPong then Completed else Raised(CollectionError)
    {
      r := if receivedPong then Completed else Raised(CollectionError);
    }

    /** `for each in msg: self.ds_msg_hub.publish(each)`. */
    method PublishEach(msgs: seq<Response>)
      requires Valid()
      modifies hub.Queues()
      ensures GrewBy(old(hub.Contents()), hub.Contents(), msgs)
    {
      var i := 0;
      while i < |msgs|
        invariant 0 <= i <= |msgs|
        invariant forall k :: k in hub.subscriptions.items ==>
                    hub.subscriptions.items[k].items == old(hub.subscriptions.items[k].items) + Delivered(msgs[..i], k.value)
      {
        hub.Publish(msgs[i]);
        assert msgs[..i + 1][..i] == msgs[..i];
        i := i + 1;
      }
      assert msgs[..i] == msgs;
      assert GrewBy(old(hub.Contents()), hub.Contents(), msgs);
    }

    /** The body of one turn of the receive loop. */
    method HandleFrame(f: Frame) returns (r: Result<Action>)
      requires Valid()
      modifies this, hub.Queues()
      ensures Valid()
      ensures r == FrameAction(f, factory.registry.keys, factory.registry.items)
      ensures receivedPong == (old(receivedPong) || f == PongText)
      ensures GrewBy(old(hub.Contents()), hub.Contents(), if r.Ok? then Published(r.value) else [])
    {
      if f == PongText {
        receivedPong := true;
        return Ok(MarkPong);
      }
      var data :- Decode(f);
      var event :- GetKey(data, "event");
      if event == Some(JStr("subscribe")) || event == Some(JStr("error")) {
        return Ok(LogOnly);
      }
      var arg :- Field(data, "arg");
      var channel :- Field(arg, "channel");
      if !channel.JStr? {
        if |factory.registry.keys| == 0 {
          return Err(RuntimeError);
        }
        return Err(AttributeError);
      }
      var parser :- factory.Get(channel.s);
      var msgs :- Parse(parser, data);
      PublishEach(msgs);
      r := Ok(PublishAll(msgs));
    }

    /** One turn of the receive loop, as the loop sees it. */
    method HandleTurn(f: Frame) returns (t: Turn<Response>)
      requires Valid()
      modifies this, hub.Queues()
      ensures Valid()
      ensures t == FrameTurn(f, factory.registry.keys, factory.registry.items)
      ensures receivedPong == (old(receivedPong) || t.pong)
      ensures GrewBy(old(hub.Contents()), hub.Contents(), t.sent)
    {
      var r := HandleFrame(f);
      t := match r
        case Err(e) => Turn([], Raised(e), false)
        case Ok(a) => Turn(Published(a), Completed, a == MarkPong);
    }

    /** The `while True` receive loop over `frames`, whose turns are `turns`:
        frames are handled in order until one raises, or the frames run out
        and `ws.recv()` raises ConnectionClosed; the exception is logged and
        ends the loop. */
    method ReceiveLoop(frames: seq<Frame>, ghost turns: seq<Turn<Response>>) returns (handled: nat, exc: Exc)
      requires Valid() && TurnsOf(turns, frames, factory.registry.keys, factory.registry.items)
      modifies this, hub.Queues()
      ensures Valid()
      ensures var s := Session(turns);
              && handled == s.handled && exc == s.exc
              && receivedPong == (old(receivedPong) || s.pong)
              && GrewBy(old(hub.Contents()), hub.Contents(), s.sent)
    {
      ghost var pong := false;
      ghost var published: seq<Response> := [];
      ResumesStart(turns);
      var i := 0;
      while i < |frames|
        invariant 0 <= i <= |frames|
        invariant Valid()
        invariant Resumes(turns, i, pong, published)
        invariant receivedPong == (old(receivedPong) || pong)
        invariant GrewBy(old(hub.Contents()), hub.Contents(), published)
      {
        ghost var mid := hub.Contents();
        var t := ReceiveTurn(frames, i, turns, pong, published);
        GrewByTrans(old(hub.Contents()), mid, hub.Contents(), published, t.sent);
        if t.outcome.Raised? {
          return i, t.outcome.exc;
        }
        pong := pong || t.pong;
        published := published + t.sent;
        i := i + 1;
      }
      ResumesEnd(turns, pong, published);
      handled, exc := i, ConnectionClosed;
    }

    /** The turn of the receive loop for `frames[i]`, with what it means
        for the session `turns` of all the frames, resumed at `i` with a
        pong seen so far exactly when `pong` and `published` sent. */
    method ReceiveTurn(frames: seq<Frame>, i: nat, ghost turns: seq<Turn<Response>>, ghost pong: bool, ghost published: seq<Response>)
      returns (t: Turn<Response>)
      requires Valid() && i < |frames| && TurnsOf(turns, frames, factory.registry.keys, factory.registry.items)
      requires Resumes(turns, i, pong, published)
      modifies this, hub.Queues()
      ensures Valid()
      ensures t.outcome.Raised? ==> !t.pong && Session(turns) == SessionEnd(i, t.outcome.exc, pong, published + t.sent)
      ensures t.outcome.Completed? ==> Resumes(turns, i + 1, pong || t.pong, published + t.sent)
      ensures receivedPong == (old(receivedPong) || t.pong)
      ensures GrewBy(old(hub.Contents()), hub.Contents(), t.sent)
    {
      assert TurnAt(turns, i) == FrameTurn(frames[i], factory.registry.keys, factory.registry.items);
      ResumesStep(turns, i, pong, published);
      t := HandleTurn(frames[i]);
    }

    /** `subscribe(subscriptions)`: one connection, no reconnect. With a
        credential the login goes first and a rejected login ends the call
        before anything is subscribed; then the batched topics are sent, the
        first reply must be a subscribe event, and the remaining frames go
        through the receive loop. */
    method Subscribe(subs: seq<Subscription>, socket: seq<Frame>) returns (end: SubscribeEnd, sent: seq<Outgoing>)
      requires Valid()
      modifies this, hub.Queues()
      ensures Valid()
      ensures var h := Shake(credential, socket);
              && sent == (if credential.Some? then [Login(credential.value)] else [])
                         + (if h.LoginFailed? || h.LoginRejected? then [] else [Topics(BatchRequest(subs))])
              && (h.LoginFailed? ==> end == Failed(h.exc))
              && (h.LoginRejected? ==> end == Rejected)
              && (h.AckFailed? ==> end == Failed(h.exc))
              && (!h.Opened? ==> receivedPong == old(receivedPong)
                                 && forall k :: k in hub.subscriptions.items ==>
                                      hub.subscriptions.items[k].items == old(hub.subscriptions.items[k].items))
              && (h.Opened? ==>
                    var s := Session(Turns(socket[h.start..], factory.registry.keys, factory.registry.items));
                    && end == StreamEnded(s.handled, s.exc)
                    && receivedPong == (old(receivedPong) || s.pong)
                    && GrewBy(old(hub.Contents()), hub.Contents(), s.sent))
    {
      var h := Shake(credential, socket);
      sent := if credential.Some? then [Login(credential.value)] else [];
      if h.LoginFailed? {
        return Failed(h.exc), sent;
      }
      if h.LoginRejected? {
        return Rejected, sent;
      }
      sent := sent + [Topics(BatchRequest(subs))];
      if h.AckFailed? {
        return Failed(h.exc), sent;
      }
      var handled, exc := ReceiveLoop(socket[h.start..], Turns(socket[h.start..], factory.registry.keys, factory.registry.items));
      end := StreamEnded(handled, exc);
    }
  }

  /** With a credential, a login reply whose code is not "0" means the topics
      are never sent, and a reply without code fails the attempt. */
  lemma LoginGate(c: Credential, socket: seq<Frame>)
    requires 0 < |socket| && socket[0].JsonText?
    ensures Field(socket[0].doc, "code").Ok? && Field(socket[0].doc, "code") != Ok(JStr("0"))
            ==> Shake(Some(c), socket) == LoginRejected
    ensures Field(socket[0].doc, "code").Err? ==> Shake(Some(c), socket) == LoginFailed(Field(socket[0].doc, "code").exc)
  {
  }

  /** A pong frame handled after the ping was sent is what lets the check pass. */
  method PongAfterPing(ds: OkexWsDatasource) returns (r: Outcome)
    requires ds.Valid()
    modifies ds, ds.hub.Queues()
    ensures r == Completed
  {
    var sent := ds.SendPing();
    var a := ds.HandleFrame(PongText);
    r := ds.CheckPong();
  }
}
