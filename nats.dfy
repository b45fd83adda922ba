/** The change-event wire format and its NATS reader and writer
    (internal/good/log/nats: model.go, reader.go, writer.go). */
module Nats {

  import opened Wrappers
  import opened Domain

  type Bytes = seq<bv8>

  /** The wire shape of a change event (model.go). */
  datatype NLog = NLog(
    id: Int64,
    projectId: Int64,
    name: string,
    description: string,
    priority: Int32,
    removed: bool,
    eventTime: Time)

  /** The zero value `nlog{}`. */
  const ZeroNLog := NLog(0, 0, "", "", 0, false, 0)

  // ---------------------------------------------------------------------------
  // writer.go
  // ---------------------------------------------------------------------------

  /** toNLog: all seven fields, Removed included. */
  function ToNLog(l: Log): (n: NLog)
    ensures n.removed == l.Removed
  {
    NLog(l.ID, l.ProjectID, l.Name, l.Description, l.Priority, l.Removed, l.EventTime)
  }

  /** A message as published: the subject and the payload. */
  datatype Publication = Publication(subject: string, data: Bytes)

  /** A NATS connection, seen as the messages published through it. */
  class Conn {
    var published: seq<Publication>

    constructor ()
      ensures published == []
    {
      published := [];
    }
  }

  class LogWriter {
    var conn: Conn?
    var subject: string

    /** NewLogWriter sets the subject and leaves the connection unset. */
    constructor (subject: string)
      ensures this.subject == subject && conn == null
    {
      this.subject := subject;
      conn := null;
    }

    /** SendLog: encode toNLog(log), then publish it on the writer's subject.
        `encode` is encoding/json, `fault` the publish error the server or
        client reports. */
    method SendLog(log: Log, encode: NLog -> Result<Bytes, Error>, fault: Option<Error>)
      returns (err: Option<Error>)
      modifies conn
      ensures conn == old(conn) && subject == old(subject)
      ensures encode(ToNLog(log)).Err? ==>
                err == Some(Wrap("json marshal", encode(ToNLog(log)).error)) &&
                (conn != null ==> conn.published == old(conn.published))
      ensures encode(ToNLog(log)).Ok? && conn == null ==>
                err.Some? && DriverError(err.value)
      ensures encode(ToNLog(log)).Ok? && conn != null && fault.Some? ==>
                err == Some(Wrap("publish log", fault.value)) && conn.published == old(conn.published)
      ensures encode(ToNLog(log)).Ok? && conn != null && fault.None? ==>
                err.None? &&
                conn.published == old(conn.published) + [Publication(subject, encode(ToNLog(log)).value)]
    {
      var encoded := encode(ToNLog(log));
      if encoded.Err? {
        return Some(Wrap("json marshal", encoded.error));
      }
      if conn == null {
        return Some(Wrap("publish log", Leaf("nats: invalid connection")));
      }
      if fault.Some? {
        return Some(Wrap("publish log", fault.value));
      }
      conn.published := conn.published + [Publication(subject, encoded.value)];
      return None;
    }
  }

  // ---------------------------------------------------------------------------
  // reader.go
  // ---------------------------------------------------------------------------

  /** toLogs: the append loop copying six fields; Removed keeps its zero value. */
  function ToLogs(nlogs: seq<NLog>): (logs: seq<Log>)
    ensures |logs| == |nlogs|
  {
    if nlogs == [] then []
    else
      var n := nlogs[|nlogs| - 1];
      ToLogs(nlogs[..|nlogs| - 1]) + [Log(n.id, n.projectId, n.name, n.description, n.priority, false, n.eventTime)]
  }

  lemma {:induction false} ToLogsAt(nlogs: seq<NLog>, i: nat)
    requires i < |nlogs|
    ensures var n := nlogs[i];
            ToLogs(nlogs)[i] == Log(n.id, n.projectId, n.name, n.description, n.priority, false, n.eventTime)
  {
    if i < |nlogs| - 1 {
      ToLogsAt(nlogs[..|nlogs| - 1], i);
    }
  }

  /** What a consumer receives for a sequence of sent logs is those logs with
      Removed cleared: toLogs after toNLog loses exactly that field. */
  lemma WireRoundTrip(logs: seq<Log>)
    ensures ToLogs(seq(|logs|, i requires 0 <= i < |logs| => ToNLog(logs[i])))
            == seq(|logs|, i requires 0 <= i < |logs| => LogWithoutRemoved(logs[i]))
  {
    var sent := seq(|logs|, i requires 0 <= i < |logs| => ToNLog(logs[i]));
    forall i | 0 <= i < |logs|
      ensures ToLogs(sent)[i] == LogWithoutRemoved(logs[i])
    {
      ToLogsAt(sent, i);
    }
  }

  /** A fetched message: its stream sequence number and payload. */
  datatype Message = Message(seqNo: nat, data: Bytes)

  /** The closure FetchLogs returns: it acknowledges `messages[len - 1]`. */
  datatype AckBatch = AckBatch(messages: seq<Message>)

  /** What invoking the closure does. */
  datatype AckOutcome =
    | Acked(seqNo: nat, err: Option<Error>)   // Ack() on that one message, with its error
    | IndexPanic                              // messages[-1] on an empty batch

  function InvokeAck(a: AckBatch, ackErr: Option<Error>): (o: AckOutcome)
    ensures o.IndexPanic? <==> a.messages == []
    ensures o.Acked? ==> o.seqNo == a.messages[|a.messages| - 1].seqNo && o.err == ackErr
  {
    if a.messages == [] then IndexPanic
    else Acked(a.messages[|a.messages| - 1].seqNo, ackErr)
  }

  /** A successful fetch: the decoded logs and the acknowledgement closure. */
  datatype Fetched = Fetched(logs: seq<Log>, ack: AckBatch)

  /** The index of the first message the decoder rejects, if any. */
  function FirstRejected(messages: seq<Message>, decode: Bytes -> Option<Error>): (r: Option<nat>)
    ensures r.Some? ==> r.value < |messages| && decode(messages[r.value].data).Some? &&
                        forall j :: 0 <= j < r.value ==> decode(messages[j].data).None?
    ensures r.None? ==> forall j :: 0 <= j < |messages| ==> decode(messages[j].data).None?
  {
    if messages == [] then None
    else if decode(messages[0].data).Some? then Some(0)
    else
      var rest := FirstRejected(messages[1..], decode);
      if rest.Some? then Some(rest.value + 1) else None
  }

  /** FetchLogs. `fetched` is what subscription.Fetch(batchSize) returns;
      `decode` is the error json.Unmarshal reports for a payload. The decode
      target `nlog` is passed by value, so the decoder can never fill it: the
      value appended is the zero nlog whatever the payload. The slice is made
      with length len(messages) and then appended to, so a batch of n
      messages gives 2n logs. */
  method FetchLogs(fetched: Result<seq<Message>, Error>, decode: Bytes -> Option<Error>)
    returns (r: Result<Fetched, Error>)
    ensures fetched.Err? ==> r == Err(Wrap("subscription fetch", fetched.error))
    ensures fetched.Ok? && FirstRejected(fetched.value, decode).Some? ==>
              r == Err(Wrap("json unmarshal",
                            decode(fetched.value[FirstRejected(fetched.value, decode).value].data).value))
    ensures r.Ok? <==> fetched.Ok? && FirstRejected(fetched.value, decode).None?
    ensures r.Ok? ==> |r.value.logs| == 2 * |fetched.value|
    ensures r.Ok? ==> forall i :: 0 <= i < |r.value.logs| ==> r.value.logs[i] == ZeroLog
    ensures r.Ok? ==> r.value.ack == AckBatch(fetched.value)
  {
    if fetched.Err? {
      return Err(Wrap("subscription fetch", fetched.error));
    }
    var messages := fetched.value;
    var nlogs := seq(|messages|, _ => ZeroNLog);
    var i := 0;
    while i < |messages|
      invariant 0 <= i <= |messages|
      invariant |nlogs| == |messages| + i
      invariant forall j :: 0 <= j < |nlogs| ==> nlogs[j] == ZeroNLog
      invariant forall j :: 0 <= j < i ==> decode(messages[j].data).None?
    {
      var nlog := ZeroNLog;
      var err := decode(messages[i].data);
      if err.Some? {
        assert FirstRejected(messages, decode) == Some(i) by { FirstRejectedIs(messages, decode, i); }
        return Err(Wrap("json unmarshal", err.value));
      }
      nlogs := nlogs + [nlog];
      i := i + 1;
    }
    var logs := ToLogs(nlogs);
    forall j | 0 <= j < |logs| ensures logs[j] == ZeroLog {
      ToLogsAt(nlogs, j);
    }
    r := Ok(Fetched(logs, AckBatch(messages)));
  }

  /** The first rejection is the one a left-to-right scan meets first. */
  lemma {:induction false} FirstRejectedIs(messages: seq<Message>, decode: Bytes -> Option<Error>, i: nat)
    requires i < |messages| && decode(messages[i].data).Some?
    requires forall j :: 0 <= j < i ==> decode(messages[j].data).None?
    ensures FirstRejected(messages, decode) == Some(i)
  {
    if i > 0 {
      FirstRejectedIs(messages[1..], decode, i - 1);
    }
  }

  /** encoding/json rejects a non-pointer decode target whatever the payload.
      With such a decoder every non-empty batch fails at its first message,
      and the one fetch that succeeds, the empty batch, hands back an ack
      closure that panics on `messages[-1]`. */
  lemma {:induction false} NonPointerTargetRejectsEveryBatch(messages: seq<Message>,
                                                            decode: Bytes -> Option<Error>,
                                                            ackErr: Option<Error>)
    requires forall data :: decode(data).Some?
    ensures messages != [] ==> FirstRejected(messages, decode) == Some(0)
    ensures FirstRejected(messages, decode).None? ==> InvokeAck(AckBatch(messages), ackErr) == IndexPanic
  {
    if messages != [] {
      FirstRejectedIs(messages, decode, 0);
    }
  }
}
