/**
  `handle_terminal_session`: one connection's life. The connection id is
  registered, a PTY is created, and then a loop takes one event at a time,
  either a message from the client or output from the PTY, until one of
  them ends the session. Cleanup always runs afterwards.

  The `select!` race between the two sources is modelled by a script: the
  events in the order the race delivers them. Each event also carries the
  outcome of the one call it triggers (a PTY write or a send), since those
  outcomes come from the outside world. A script that runs out is the client
  going away (`receive()` yielding `None`).
*/
module SessionHandler {
  import opened Utf8
  import opened PtyTypes

  /** `TerminalMessage`: what a client sends. */
  datatype Message =
    | Text(text: string)
    | Binary(data: Bytes)
    | Ping(payload: Bytes)
    | Pong(payload: Bytes)
    | Close

  /** What the `select!` delivers next, with the outcome of the call it triggers. */
  datatype Event =
      /** `receive()` gave `Some(Ok(msg))`; `ok` is the outcome of the write or send it triggers */
    | Received(msg: Message, ok: bool)
      /** `receive()` gave `Some(Err(_))` */
    | ReceiveError
      /** `receive()` gave `None` */
    | EndOfStream
      /** `pty.read` returned these bytes (none means end of file); `ok` is the outcome of forwarding them */
    | PtyOutput(chunk: Bytes, ok: bool)
      /** `pty.read` failed */
    | PtyReadError

  /** The calls the handler makes on the connection and the PTY, in order. */
  datatype Call =
    | WritePty(data: Bytes)
    | SendText(text: string)
    | SendBinary(data: Bytes)
    | CloseConnection
    | KillPty

  /** The size of the read buffer, `[0u8; 4096]`. */
  const BufferSize := 4096

  /** What one event does: the calls it makes and whether the loop goes on. */
  datatype Step = Step(calls: seq<Call>, continues: bool)

  /** The bytes one read delivers: what the PTY has, up to the buffer's size. */
  function ReadBytes(chunk: Bytes): (data: Bytes)
    ensures |data| <= BufferSize && |data| <= |chunk| && data == chunk[..|data|]
    ensures |chunk| <= BufferSize ==> data == chunk
  {
    if |chunk| <= BufferSize then chunk else chunk[..BufferSize]
  }

  /** The call that forwards PTY output: text when it is UTF-8, binary otherwise. */
  function Forward(data: Bytes): Call {
    match Decode(data)
    case Some(text) => SendText(text)
    case None => SendBinary(data)
  }

  /** The arm of the loop body that handles one event. */
  function Dispatch(ev: Event): (s: Step)
    ensures |s.calls| <= 1
  {
    match ev
    case Received(Text(text), ok) => Step([WritePty(Encode(text))], ok)
    case Received(Binary(data), ok) => Step([WritePty(data)], ok)
    case Received(Ping(_), ok) => Step([SendText("Pong")], ok)
    case Received(Pong(_), _) => Step([], true)
    case Received(Close, _) => Step([], false)
    case ReceiveError => Step([], false)
    case EndOfStream => Step([], false)
    case PtyOutput(chunk, ok) =>
      var data := ReadBytes(chunk);
      if data == [] then Step([], false) else Step([Forward(data)], ok)
    case PtyReadError => Step([], false)
  }

  /** The calls the loop makes on a script, up to and including the event that ends it. */
  function LoopCalls(events: seq<Event>): (calls: seq<Call>)
    ensures |calls| <= |events|
  {
    if events == [] then []
    else
      var s := Dispatch(events[0]);
      s.calls + (if s.continues then LoopCalls(events[1..]) else [])
  }

  /** The text sent when the PTY cannot be created. */
  function CreateErrorText(reason: string): string {
    "Error: Failed to create terminal session: " + reason
  }

  /** Every call of a session; `created` is the outcome of `create_pty`. */
  function SessionCalls(created: Result<(), string>, events: seq<Event>): seq<Call> {
    match created
    case Err(reason) => [SendText(CreateErrorText(reason)), CloseConnection]
    case Ok(_) => LoopCalls(events) + [CloseConnection, KillPty]
  }

  /** `ids` with every occurrence of `id` removed, the rest kept in order (`retain(|x| x != id)`). */
  function Without(ids: seq<string>, id: string): (r: seq<string>)
    ensures |r| <= |ids|
  {
    if ids == [] then []
    else Without(ids[..|ids| - 1], id) + (if ids[|ids| - 1] == id then [] else [ids[|ids| - 1]])
  }

  /** The registry of live connection ids (`AppState::sessions`). */
  class Registry {
    var ids: seq<string>

    constructor ()
      ensures ids == []
    {
      ids := [];
    }

    /** `push`: add an id at the end. */
    method Push(id: string)
      modifies this
      ensures ids == old(ids) + [id]
    {
      ids := ids + [id];
    }

    /** `retain(|x| x != id)`: drop every occurrence of `id`, keeping the others in order. */
    method RemoveAll(id: string)
      modifies this
      ensures ids == Without(old(ids), id)
    {
      var kept: seq<string> := [];
      var i := 0;
      while i < |ids|
        invariant 0 <= i <= |ids|
        invariant kept == Without(ids[..i], id)
      {
        assert ids[..i + 1][..i] == ids[..i];
        if ids[i] != id {
          kept := kept + [ids[i]];
        }
        i := i + 1;
      }
      assert ids[..i] == ids;
      ids := kept;
    }
  }

  /**
    `handle_terminal_session`: register `id`, create the PTY (its outcome is
    `created`), run the loop over `events`, then clean up. Returns the calls
    made, in order.
  */
  method HandleTerminalSession(id: string, registry: Registry, created: Result<(), string>,
                               events: seq<Event>) returns (calls: seq<Call>)
    modifies registry
    ensures calls == SessionCalls(created, events)
    ensures registry.ids == Without(old(registry.ids) + [id], id)
  {
    registry.Push(id);
    if created.Err? {
      calls := [SendText(CreateErrorText(created.error)), CloseConnection];
      registry.RemoveAll(id);
      return;
    }
    var buffer := new byte[BufferSize];
    calls := RunLoop(buffer, events);
    calls := calls + [CloseConnection, KillPty];
    registry.RemoveAll(id);
  }

  /** The `loop` of the session: handle events until one of them breaks out. */
  method RunLoop(buffer: array<byte>, events: seq<Event>) returns (calls: seq<Call>)
    requires buffer.Length == BufferSize
    modifies buffer
    ensures calls == LoopCalls(events)
  {
    calls := [];
    var i := 0;
    while i < |events|
      invariant 0 <= i <= |events|
      invariant calls + LoopCalls(events[i..]) == LoopCalls(events)
    {
      var made, stop := HandleEvent(buffer, events[i]);
      LoopCallsAt(events, i);
      if stop {
        assert LoopCalls(events[i..]) == made;
        calls := calls + made;
        break;
      }
      var rest := LoopCalls(events[i + 1..]);
      assert LoopCalls(events[i..]) == made + rest;
      assert (calls + made) + rest == calls + (made + rest);
      calls := calls + made;
      i := i + 1;
    }
  }

  /** The body of the loop: handle one event, returning the calls made and whether to `break`. */
  method HandleEvent(buffer: array<byte>, ev: Event) returns (made: seq<Call>, stop: bool)
    requires buffer.Length == BufferSize
    modifies buffer
    ensures made == Dispatch(ev).calls && stop == !Dispatch(ev).continues
  {
    made := [];
    stop := false;
    match ev {
      case Received(msg, ok) =>
        match msg {
          case Text(text) =>
            made := [WritePty(Encode(text))];
            stop := !ok;
          case Binary(data) =>
            made := [WritePty(data)];
            stop := !ok;
          case Ping(_) =>
            made := [SendText("Pong")];
            stop := !ok;
          case Pong(_) =>
          case Close =>
            stop := true;
        }
      case ReceiveError =>
        stop := true;
      case EndOfStream =>
        stop := true;
      case PtyOutput(chunk, ok) =>
        var n := ReadInto(buffer, chunk);
        if n == 0 {
          stop := true;
        } else {
          var data := buffer[..n];
          match Decode(data) {
            case Some(text) =>
              made := [SendText(text)];
            case None =>
              made := [SendBinary(data)];
          }
          stop := !ok;
        }
      case PtyReadError =>
        stop := true;
    }
  }

  /** One turn of the loop, in terms of `LoopCalls`. */
  lemma LoopCallsAt(events: seq<Event>, i: nat)
    requires i < |events|
    ensures var s := Dispatch(events[i]);
      LoopCalls(events[i..]) == s.calls + (if s.continues then LoopCalls(events[i + 1..]) else [])
  {
    assert events[i..][0] == events[i] && events[i..][1..] == events[i + 1..];
  }

  /** `pty.read(&mut buffer)`: copy what the PTY delivers into the front of the buffer. */
  method ReadInto(buffer: array<byte>, chunk: Bytes) returns (n: nat)
    requires buffer.Length == BufferSize
    modifies buffer
    ensures n == |ReadBytes(chunk)| && buffer[..n] == ReadBytes(chunk)
  {
    var data := ReadBytes(chunk);
    n := |data|;
    forall k | 0 <= k < n {
      buffer[k] := data[k];
    }
  }

  // ---------------------------------------------------------------------
  // Properties
  // ---------------------------------------------------------------------

  /** The bytes a call carries to its destination. */
  function Payload(c: Call): Bytes {
    match c
    case WritePty(data) => data
    case SendText(text) => Encode(text)
    case SendBinary(data) => data
    case CloseConnection => []
    case KillPty => []
  }

  /**
    PTY output reaches the client byte for byte: a read that fits the buffer is
    sent whole, as text exactly when it is well-formed UTF-8.
  */
  lemma OutputForwardedVerbatim(chunk: Bytes, ok: bool)
    requires 0 < |chunk| <= BufferSize
    ensures Dispatch(PtyOutput(chunk, ok)).calls == [Forward(chunk)]
    ensures Payload(Forward(chunk)) == chunk
    ensures Forward(chunk).SendText? <==> IsValid(chunk)
  {
    DecodeSucceedsIffValid(chunk);
    if Decode(chunk).Some? {
      EncodeDecode(chunk);
    }
  }

  /** A read larger than the buffer delivers only its first 4096 bytes. */
  lemma LongReadIsCut(chunk: Bytes, ok: bool)
    requires |chunk| > BufferSize
    ensures Payload(Dispatch(PtyOutput(chunk, ok)).calls[0]) == chunk[..BufferSize]
  {
    var data := chunk[..BufferSize];
    if Decode(data).Some? {
      EncodeDecode(data);
    }
  }

  /** Client text and binary messages reach the PTY unchanged. */
  lemma InboundWrittenUnchanged(msg: Message, ok: bool)
    requires msg.Text? || msg.Binary?
    ensures Dispatch(Received(msg, ok)).calls == [WritePty(if msg.Text? then Encode(msg.text) else msg.data)]
    ensures Dispatch(Received(msg, ok)).continues <==> ok
  {
  }

  /** Which events end the loop: Close, errors, end of stream, end of file, and failed calls. */
  lemma StopConditions(ev: Event)
    ensures !Dispatch(ev).continues <==>
      match ev
      case Received(Pong(_), _) => false
      case Received(Close, _) => true
      case Received(_, ok) => !ok
      case PtyOutput(chunk, ok) => chunk == [] || !ok
      case _ => true
  {
  }

  /** The calls of a run are the calls of the events up to the first that stops it; later events do nothing. */
  lemma {:induction false} NothingAfterStop(events: seq<Event>, k: nat)
    requires k < |events| && !Dispatch(events[k]).continues
    requires forall j :: 0 <= j < k ==> Dispatch(events[j]).continues
    ensures LoopCalls(events) == LoopCalls(events[..k + 1])
  {
    if k > 0 {
      assert events[1..][..k] == events[..k + 1][1..];
      NothingAfterStop(events[1..], k - 1);
    }
  }

  /** While every event continues, the loop's calls are the events' calls one after another. */
  lemma {:induction false} LoopCallsAppend(a: seq<Event>, b: seq<Event>)
    requires forall j :: 0 <= j < |a| ==> Dispatch(a[j]).continues
    ensures LoopCalls(a + b) == LoopCalls(a) + LoopCalls(b)
  {
    if a != [] {
      assert (a + b)[0] == a[0] && (a + b)[1..] == a[1..] + b;
      LoopCallsAppend(a[1..], b);
    } else {
      assert a + b == b;
    }
  }

  /** A session that was set up always ends with closing the connection and then killing the PTY. */
  lemma CleanupRunsLast(events: seq<Event>)
    ensures var calls := SessionCalls(Ok(()), events);
      |calls| >= 2 && calls[|calls| - 2..] == [CloseConnection, KillPty]
      && CloseConnection !in calls[..|calls| - 2] && KillPty !in calls[..|calls| - 2]
  {
    LoopHasNoCleanup(events);
    var calls := SessionCalls(Ok(()), events);
    assert calls[..|calls| - 2] == LoopCalls(events);
  }

  /** The loop itself never closes the connection or kills the PTY. */
  lemma {:induction false} LoopHasNoCleanup(events: seq<Event>)
    ensures CloseConnection !in LoopCalls(events) && KillPty !in LoopCalls(events)
  {
    if events != [] {
      LoopHasNoCleanup(events[1..]);
      DispatchNoCleanup(events[0]);
    }
  }

  /** No single event closes the connection or kills the PTY. */
  lemma DispatchNoCleanup(ev: Event)
    ensures CloseConnection !in Dispatch(ev).calls && KillPty !in Dispatch(ev).calls
  {
  }

  /** When the PTY cannot be created, the client is told why and the connection closed; the PTY is never touched. */
  lemma CreateFailureReported(reason: string, events: seq<Event>)
    ensures SessionCalls(Err(reason), events) == [SendText(CreateErrorText(reason)), CloseConnection]
    ensures forall c :: c in SessionCalls(Err(reason), events) ==> !c.WritePty? && c != KillPty
  {
  }

  /** Pings are answered one for one while the client keeps pinging and the pongs go out. */
  lemma {:induction false} PingsAnswered(events: seq<Event>)
    requires forall j :: 0 <= j < |events| ==> events[j].Received? && events[j].msg.Ping? && events[j].ok
    ensures LoopCalls(events) == seq(|events|, _ => SendText("Pong"))
  {
    if events != [] {
      PingsAnswered(events[1..]);
    }
  }

  /** After a session the id is gone from the registry, and every other id is as it was. */
  lemma RegistryAfterSession(before: seq<string>, id: string)
    ensures id !in Without(before + [id], id)
    ensures Without(before + [id], id) == Without(before, id)
    ensures forall other :: other != id ==> (other in Without(before, id) <==> other in before)
  {
    WithoutRemoves(before + [id], id);
    assert (before + [id])[..|before|] == before;
    WithoutKeeps(before, id);
  }

  /** `Without` leaves no occurrence of the id. */
  lemma {:induction false} WithoutRemoves(ids: seq<string>, id: string)
    ensures id !in Without(ids, id)
  {
    if ids != [] {
      WithoutRemoves(ids[..|ids| - 1], id);
    }
  }

  /** `Without` keeps every other id. */
  lemma {:induction false} WithoutKeeps(ids: seq<string>, id: string)
    ensures forall other :: other != id ==> (other in Without(ids, id) <==> other in ids)
  {
    if ids != [] {
      var init := ids[..|ids| - 1];
      WithoutKeeps(init, id);
      assert ids == init + [ids[|ids| - 1]];
    }
  }
}
