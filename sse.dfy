/**
 * The server-sent-events hub (internal/sms-gateway/modules/sse/service.go and
 * config.go): a registry from device id to its one live connection, each
 * with a bounded buffer of marshalled events and a close signal, and the
 * frames the stream handler writes. Locked methods are atomic steps; a
 * connection's buffered channel is the sequence of payloads it holds.
 */
module Sse {
  import opened Wrappers
  import opened Clock
  import opened EventStream

  /** The capacity of each connection's channel. */
  const BufferCapacity: nat := 8

  const DefaultKeepAlivePeriod: Duration := 15 * Second

  /** `Config.SetDefaults`: an unset (zero) keepalive period becomes 15s; any other value is kept. */
  function KeepAliveWithDefault(period: Duration): (r: Duration)
    ensures r != 0
    ensures period != 0 ==> r == period
    ensures period == 0 ==> r == DefaultKeepAlivePeriod
  {
    if period == 0 then DefaultKeepAlivePeriod else period
  }

  /** Per-device errors of `Send`: not connected, connection closed, or the caller's context ended while blocked. */
  datatype SendError = NotConnected | ConnectionClosed | Cancelled

  /** The comment line written on connect and on every keepalive tick. */
  const KeepaliveComment: string := ":keepalive"

  /** `writeToStream`: the payload followed by a blank line. */
  function WriteToStream(data: string): (r: string)
    ensures |r| == |data| + 2 && r[..|data|] == data
    ensures r[|data|..] == "\n\n"
  {
    data + "\n\n"
  }

  /** What the handler writes: a keepalive or one buffered event. */
  datatype Frame = Keepalive | EventData(json: string)

  function Text(f: Frame): string {
    match f
    case Keepalive => WriteToStream(KeepaliveComment)
    case EventData(json) => WriteToStream("data: " + json)
  }

  /** A stream of frames, in the order written. */
  function Render(frames: seq<Frame>): string
    decreases |frames|
  {
    if frames == [] then "" else Render(frames[..|frames| - 1]) + Text(frames[|frames| - 1])
  }

  /** The event payloads among the frames, in order. */
  function Payloads(frames: seq<Frame>): seq<string>
    decreases |frames|
  {
    if frames == [] then []
    else
      var last := frames[|frames| - 1];
      Payloads(frames[..|frames| - 1]) + (if last.EventData? then [last.json] else [])
  }

  /** Marshalled JSON never contains a raw line break, so every event frame is one line. */
  predicate OneLinePayloads(frames: seq<Frame>) {
    forall i :: 0 <= i < |frames| && frames[i].EventData? ==> NoLineBreak(frames[i].json)
  }

  /** A data line names the `data` field and carries the JSON after the one space. */
  lemma DataLineField(json: string)
    ensures FieldOf("data: " + json) == ("data", json)
  {
    var line := "data: " + json;
    ColonAfterPrefix("data", ": " + json);
    assert line == "data" + (": " + json);
    assert ColonIndex(": " + json) == Some(0);
    assert line[5..] == " " + json;
    assert line[..4] == "data";
  }

  /** A non-empty line without line breaks, then LF, is processed as one line. */
  lemma LineThenLF(st: State, body: string)
    requires st.line == "" && body != [] && NoLineBreak(body)
    ensures Parse(st, body + "\n") == ProcessLine(st, body).(afterCR := false)
  {
    ParseAppend(st, body, "\n");
    ParseWithinLine(st, body);
    assert st.line + body == body;
    var st1 := st.(line := body, afterCR := false);
    assert Parse(st1, "\n") == Feed(st1, '\n');
  }

  /** A blank line ends the message: a pending data buffer is dispatched without its final LF. */
  lemma BlankLine(st: State)
    requires st.line == "" && !st.afterCR
    ensures Parse(st, "\n") == ProcessLine(st, "").(afterCR := false)
  {
    assert Parse(st, "\n") == Parse(Feed(st, '\n'), "");
  }

  /** An event frame, read between messages, dispatches exactly its JSON payload. */
  lemma EventFrameIsOneMessage(st: State, json: string)
    requires st.line == "" && st.data == "" && NoLineBreak(json)
    ensures Parse(st, Text(EventData(json))) == st.(afterCR := false, dispatched := st.dispatched + [json])
  {
    var body := "data: " + json;
    assert Text(EventData(json)) == (body + "\n") + "\n";
    assert NoLineBreak(body) by {
      forall i | 0 <= i < |body|
        ensures body[i] != '\n' && body[i] != '\r'
      {
        if i >= 6 { assert body[i] == json[i - 6]; }
      }
    }
    ParseAppend(st, body + "\n", "\n");
    LineThenLF(st, body);
    DataLineField(json);
    var st2 := st.(data := json + "\n", afterCR := false);
    assert ProcessLine(st, body).(afterCR := false) == st2;
    BlankLine(st2);
    assert (json + "\n")[..|json|] == json;
  }

  /** A keepalive, read between messages, is a comment: it dispatches nothing. */
  lemma KeepaliveIsInvisible(st: State)
    requires st.line == "" && st.data == ""
    ensures Parse(st, Text(Keepalive)) == st.(afterCR := false)
  {
    assert Text(Keepalive) == (KeepaliveComment + "\n") + "\n";
    ParseAppend(st, KeepaliveComment + "\n", "\n");
    LineThenLF(st, KeepaliveComment);
    BlankLine(st.(afterCR := false));
  }

  /**
   * One frame, read by a client between messages: an event frame dispatches
   * exactly its JSON payload, a keepalive is a comment and dispatches nothing.
   */
  lemma FrameIsOneMessage(st: State, f: Frame)
    requires st.line == "" && st.data == ""
    requires f.EventData? ==> NoLineBreak(f.json)
    ensures Parse(st, Text(f)) ==
            st.(afterCR := false, dispatched := st.dispatched + (if f.EventData? then [f.json] else []))
  {
    match f
    case Keepalive =>
      KeepaliveIsInvisible(st);
      assert st.dispatched + [] == st.dispatched;
    case EventData(json) =>
      EventFrameIsOneMessage(st, json);
  }

  /**
   * The stream round trip: whatever sequence of keepalives and events the
   * handler writes, a conforming client dispatches exactly the event
   * payloads, in order, and keepalives are invisible.
   */
  lemma {:induction false} StreamRoundTrip(frames: seq<Frame>)
    requires OneLinePayloads(frames)
    ensures Parse(Initial, Render(frames)) == State("", "", false, Payloads(frames))
    decreases |frames|
  {
    if frames != [] {
      var init := frames[..|frames| - 1];
      var last := frames[|frames| - 1];
      assert OneLinePayloads(init);
      StreamRoundTrip(init);
      ParseAppend(Initial, Render(init), Text(last));
      FrameIsOneMessage(State("", "", false, Payloads(init)), last);
    }
  }

  /** A non-blocking offer to a buffered channel: the payload joins the buffer only when it has room. */
  function Offered(buffer: seq<string>, payload: string): seq<string> {
    if |buffer| < BufferCapacity then buffer + [payload] else buffer
  }

  /** The buffers after `Send` has handled the devices in `done`, starting from `before`. */
  function Delivered(before: map<string, seq<string>>, messages: map<string, string>, done: set<string>)
    : map<string, seq<string>>
  {
    map d | d in before :: if d in messages && d in done then Offered(before[d], messages[d]) else before[d]
  }

  /** The per-device errors `Send` reports for the devices in `done`. */
  function Refusals(before: map<string, seq<string>>, messages: map<string, string>, done: set<string>)
    : map<string, SendError>
  {
    map d | d in messages && d in done && (d !in before || |before[d]| >= BufferCapacity)
      :: if d !in before then NotConnected else Cancelled
  }

  /** Handling one more device changes its own buffer and error entry and nothing else. */
  lemma SendStep(before: map<string, seq<string>>, messages: map<string, string>, done: set<string>, d: string)
    requires d in messages && d !in done
    ensures Delivered(before, messages, done + {d}) ==
            (if d in before then Delivered(before, messages, done)[d := Offered(before[d], messages[d])]
             else Delivered(before, messages, done))
    ensures Refusals(before, messages, done + {d}) ==
            (if d !in before then Refusals(before, messages, done)[d := NotConnected]
             else if |before[d]| >= BufferCapacity then Refusals(before, messages, done)[d := Cancelled]
             else Refusals(before, messages, done))
  {
    if d in before {
      assert Delivered(before, messages, done + {d}) == Delivered(before, messages, done)[d := Offered(before[d], messages[d])];
    }
  }

  /** One pass of `Send`'s loop keeps its invariant: the buffers and errors cover one more device. */
  lemma SendLoopStep(before: map<string, seq<string>>, messages: map<string, string>, left: set<string>, d: string,
                     buffers: map<string, seq<string>>, buffers': map<string, seq<string>>,
                     errs: map<string, SendError>, errs': map<string, SendError>, e: Option<SendError>)
    requires left <= messages.Keys && d in left
    requires buffers == Delivered(before, messages, messages.Keys - left)
    requires errs == Refusals(before, messages, messages.Keys - left)
    requires buffers' == (if d in buffers then buffers[d := Offered(buffers[d], messages[d])] else buffers)
    requires e == (if d !in buffers then Some(NotConnected)
                   else if |buffers[d]| >= BufferCapacity then Some(Cancelled) else None)
    requires errs' == (if e.Some? then errs[d := e.value] else errs)
    ensures buffers' == Delivered(before, messages, messages.Keys - (left - {d}))
    ensures errs' == Refusals(before, messages, messages.Keys - (left - {d}))
  {
    var done := messages.Keys - left;
    assert messages.Keys - (left - {d}) == done + {d};
    SendStep(before, messages, done, d);
    assert d in buffers <==> d in before;
    if d in before {
      assert buffers[d] == before[d];
    }
  }

  /**
   * What `Send` promises each device: "not connected" without a connection;
   * the payload appended when the buffer has room and no error; a full
   * buffer untouched and "cancelled"; devices not addressed untouched; no
   * error for a device outside the message map.
   */
  lemma SendOutcome(before: map<string, seq<string>>, messages: map<string, string>, d: string)
    ensures Delivered(before, messages, messages.Keys).Keys == before.Keys
    ensures Refusals(before, messages, messages.Keys).Keys <= messages.Keys
    ensures d in messages && d !in before ==>
              d in Refusals(before, messages, messages.Keys) && Refusals(before, messages, messages.Keys)[d] == NotConnected
    ensures d in messages && d in before && |before[d]| < BufferCapacity ==>
              d !in Refusals(before, messages, messages.Keys) &&
              Delivered(before, messages, messages.Keys)[d] == before[d] + [messages[d]]
    ensures d in messages && d in before && |before[d]| >= BufferCapacity ==>
              d in Refusals(before, messages, messages.Keys) && Refusals(before, messages, messages.Keys)[d] == Cancelled &&
              Delivered(before, messages, messages.Keys)[d] == before[d]
    ensures d !in messages && d in before ==> Delivered(before, messages, messages.Keys)[d] == before[d]
  {
  }

  /** When every addressed device is connected with room in its buffer, `Send` reports no error at all. */
  lemma NoRefusals(before: map<string, seq<string>>, messages: map<string, string>)
    requires forall d :: d in messages ==> d in before && |before[d]| < BufferCapacity
    ensures Refusals(before, messages, messages.Keys) == map[]
  {
    var r := Refusals(before, messages, messages.Keys);
    assert forall d :: d !in r;
  }

  /** `sseConnection`: the buffered channel and whether its close signal has fired. */
  class Connection {
    var buffer: seq<string>
    var closed: bool

    constructor ()
      ensures buffer == [] && !closed
    {
      buffer := [];
      closed := false;
    }
  }

  /** What woke the handler's `select`. */
  datatype Wake = DataReady | Tick | CloseSignal

  /** `Service`: the keepalive period and the connection registry. */
  class Service {
    const keepAlivePeriod: Duration
    var connections: map<string, Connection>

    /**
     * Distinct devices own distinct connections, and every registered
     * connection is open with at most `BufferCapacity` events queued (a
     * close always comes with removal from the registry).
     */
    ghost predicate Valid()
      reads this, connections.Values
    {
      && (forall a, b :: a in connections && b in connections && a != b ==> connections[a] != connections[b])
      && (forall id :: id in connections ==> !connections[id].closed && |connections[id].buffer| <= BufferCapacity)
    }

    /** `NewService` with the configured (defaulted) keepalive period. */
    constructor (keepAlivePeriod: Duration)
      ensures Valid() && connections == map[]
      ensures this.keepAlivePeriod == KeepAliveWithDefault(keepAlivePeriod)
    {
      this.keepAlivePeriod := KeepAliveWithDefault(keepAlivePeriod);
      connections := map[];
    }

    /** `getConnection`. */
    method GetConnection(id: string) returns (c: Connection?)
      ensures id in connections ==> c == connections[id]
      ensures id !in connections ==> c == null
    {
      c := if id in connections then connections[id] else null;
    }

    /**
     * `registerConnection`: closes and drops any connection of `id`, then
     * installs a fresh open one with an empty buffer.
     */
    method RegisterConnection(id: string) returns (c: Connection)
      requires Valid()
      modifies this, if id in connections then {connections[id]} else {}
      ensures Valid() && fresh(c)
      ensures connections == old(connections)[id := c]
      ensures c.buffer == [] && !c.closed
      ensures id in old(connections) ==> old(connections[id]).closed
      ensures id in old(connections) ==> old(connections[id]).buffer == old(connections[id].buffer)
    {
      if id in connections {
        var existing := connections[id];
        existing.closed := true;
        connections := connections - {id};
      }
      c := new Connection();
      connections := connections[id := c];
    }

    /**
     * `removeConnection`: closes and drops whatever connection is registered
     * under `id`, whether or not it is the caller's own.
     */
    method RemoveConnection(id: string)
      requires Valid()
      modifies this, if id in connections then {connections[id]} else {}
      ensures Valid()
      ensures connections == old(connections) - {id}
      ensures id in old(connections) ==> old(connections[id]).closed
      ensures id in old(connections) ==> old(connections[id]).buffer == old(connections[id].buffer)
    {
      if id in connections {
        var conn := connections[id];
        conn.closed := true;
        connections := connections - {id};
      }
    }

    /**
     * Removal with the identity check the handler's deferred cleanup needs:
     * only the handler's own connection is closed and dropped.
     */
    method RemoveOwnConnection(id: string, own: Connection)
      requires Valid()
      modifies this, if id in connections && connections[id] == own then {own} else {}
      ensures Valid()
      ensures id in old(connections) && old(connections[id]) == own ==>
                connections == old(connections) - {id} && own.closed
      ensures !(id in old(connections) && old(connections[id]) == own) ==> connections == old(connections)
    {
      if id in connections && connections[id] == own {
        own.closed := true;
        connections := connections - {id};
      }
    }

    /** `Close`: closes every registered connection and empties the registry. */
    method Close()
      requires Valid()
      modifies this, connections.Values
      ensures Valid() && connections == map[]
      ensures forall c :: c in old(connections).Values ==> c.closed && c.buffer == old(c.buffer)
    {
      var ids := connections.Keys;
      ghost var buffers := map id | id in connections :: connections[id].buffer;
      while ids != {}
        invariant ids <= old(connections).Keys
        invariant connections == map id | id in ids :: old(connections)[id]
        invariant forall id :: id in old(connections) ==> old(connections)[id].buffer == buffers[id]
        invariant forall id :: id in old(connections) && id !in ids ==> old(connections)[id].closed
        invariant forall id :: id in ids ==> !old(connections)[id].closed
        decreases ids
      {
        var id :| id in ids;
        var conn := connections[id];
        conn.closed := true;
        connections := connections - {id};
        ids := ids - {id};
      }
    }

    /** The buffered payloads of every registered connection. */
    ghost function Buffers(): (r: map<string, seq<string>>)
      reads this, connections.Values
      ensures r.Keys == connections.Keys
      ensures forall d :: d in connections ==> r[d] == connections[d].buffer
    {
      map d | d in connections :: connections[d].buffer
    }

    /**
     * The body of `Send`'s loop for one device: "not connected" without a
     * connection, else a non-blocking offer to its buffer, and "cancelled"
     * when the buffer is full.
     */
    method Deliver(d: string, payload: string) returns (e: Option<SendError>)
      requires Valid()
      modifies if d in connections then {connections[d]} else {}
      ensures Valid()
      ensures Buffers() ==
              (if d in old(Buffers()) then old(Buffers())[d := Offered(old(Buffers())[d], payload)] else old(Buffers()))
      ensures e == (if d !in old(Buffers()) then Some(NotConnected)
                    else if |old(Buffers())[d]| >= BufferCapacity then Some(Cancelled) else None)
    {
      if d !in connections {
        return Some(NotConnected);
      }
      var conn := connections[d];
      if |conn.buffer| < BufferCapacity {
        conn.buffer := conn.buffer + [payload];
        e := None;
      } else {
        e := Some(Cancelled);
      }
    }

    /**
     * `Send`: for each target device, "not connected" without a connection;
     * otherwise the payload joins the connection's buffer when it has room,
     * and a full buffer blocks until the caller's context ends. The
     * top-level error is always nil. `SendOutcome` spells the result out
     * device by device.
     */
    method Send(messages: map<string, string>) returns (errs: map<string, SendError>, err: Outcome<string>)
      requires Valid()
      modifies connections.Values
      ensures Valid() && err == Pass
      ensures Buffers() == Delivered(old(Buffers()), messages, messages.Keys)
      ensures errs == Refusals(old(Buffers()), messages, messages.Keys)
    {
      errs := map[];
      var left := messages.Keys;
      ghost var before := Buffers();
      while left != {}
        invariant left <= messages.Keys
        invariant Valid()
        invariant Buffers() == Delivered(before, messages, messages.Keys - left)
        invariant errs == Refusals(before, messages, messages.Keys - left)
        decreases left
      {
        var d :| d in left;
        ghost var buffers, errs0 := Buffers(), errs;
        var e := Deliver(d, messages[d]);
        if e.Some? {
          errs := errs[d := e.value];
        }
        SendLoopStep(before, messages, left, d, buffers, Buffers(), errs0, errs, e);
        left := left - {d};
      }
      assert messages.Keys - left == messages.Keys;
      err := Pass;
    }

    /**
     * The start of `Handler`'s stream writer: register, look the connection
     * up again, and write a keepalive before anything else.
     */
    method Connect(id: string) returns (conn: Connection?, written: string)
      requires Valid()
      modifies this, if id in connections then {connections[id]} else {}
      ensures Valid() && conn != null && fresh(conn)
      ensures connections == old(connections)[id := conn]
      ensures conn.buffer == [] && !conn.closed
      ensures id in old(connections) ==> old(connections[id]).closed
      ensures written == Text(Keepalive)
    {
      var c := RegisterConnection(id);
      conn := GetConnection(id);
      written := WriteToStream(KeepaliveComment);
    }
  }

  /**
   * One turn of the handler's loop: a buffered event is written as a data
   * line, a tick as a keepalive, and the close signal ends the loop.
   */
  method ServeStep(conn: Connection, wake: Wake) returns (written: string, done: bool)
    requires wake == DataReady ==> conn.buffer != []
    requires wake == CloseSignal ==> conn.closed
    modifies conn
    ensures conn.closed == old(conn.closed)
    ensures wake == DataReady ==>
              !done && written == Text(EventData(old(conn.buffer)[0])) && conn.buffer == old(conn.buffer)[1..]
    ensures wake == Tick ==> !done && written == Text(Keepalive) && conn.buffer == old(conn.buffer)
    ensures wake == CloseSignal ==> done && written == "" && conn.buffer == old(conn.buffer)
  {
    match wake
    case DataReady =>
      var data := conn.buffer[0];
      conn.buffer := conn.buffer[1..];
      written := WriteToStream("data: " + data);
      done := false;
    case Tick =>
      written := WriteToStream(KeepaliveComment);
      done := false;
    case CloseSignal =>
      written := "";
      done := true;
  }

  /**
   * A device reconnects: the new registration closes the old stream, whose
   * handler then exits and runs its deferred `removeConnection`, which
   * closes and unregisters the NEW connection as well.
   */
  method ReconnectClosesNewStream(id: string)
    returns (oldHandlerDone: bool, newStreamClosed: bool, stillRegistered: bool)
    ensures oldHandlerDone && newStreamClosed && !stillRegistered
  {
    var hub := new Service(0);
    var first, _ := hub.Connect(id);
    var second, _ := hub.Connect(id);
    var _, done := ServeStep(first, CloseSignal);
    hub.RemoveConnection(id);
    oldHandlerDone := done;
    newStreamClosed := second.closed;
    stillRegistered := id in hub.connections;
  }

  /** With the identity check, the old handler's exit leaves the new stream open and registered. */
  method ReconnectKeepsNewStream(id: string)
    returns (oldHandlerDone: bool, newStreamClosed: bool, stillRegistered: bool)
    ensures oldHandlerDone && !newStreamClosed && stillRegistered
  {
    var hub := new Service(0);
    var first, _ := hub.Connect(id);
    var second, _ := hub.Connect(id);
    var _, done := ServeStep(first, CloseSignal);
    hub.RemoveOwnConnection(id, first);
    oldHandlerDone := done;
    newStreamClosed := second.closed;
    stillRegistered := id in hub.connections && hub.connections[id] == second;
  }

  /** Two devices with free buffers both receive the event and no error is recorded. */
  method SendReachesEveryConnectedDevice(a: string, b: string, payload: string)
    returns (errs: map<string, SendError>, bufferA: seq<string>, bufferB: seq<string>)
    requires a != b
    ensures errs == map[]
    ensures bufferA == [payload] && bufferB == [payload]
  {
    var hub := new Service(0);
    var ca, _ := hub.Connect(a);
    var cb, _ := hub.Connect(b);
    var messages := map[a := payload, b := payload];
    assert hub.connections == map[a := ca, b := cb];
    ghost var before := hub.Buffers();
    var err;
    errs, err := hub.Send(messages);
    NoRefusals(before, messages);
    SendOutcome(before, messages, a);
    SendOutcome(before, messages, b);
    bufferA := ca.buffer;
    bufferB := cb.buffer;
  }
}
