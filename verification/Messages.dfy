/**
 Messages on the wire: the eight-element record that `writeToStream` appends to a stream and that
 `deserializeMessageArray` reads back (packages/core/src/datasource/streamable.ts).
 */
module Messages {
  import opened Wrappers

  datatype Json =
    | JNull
    | JBool(b: bool)
    | JNumber(n: int)
    | JString(s: string)
    | JArray(items: seq<Json>)
    | JObject(fields: seq<(string, Json)>)

  predicate Truthy(j: Json) {
    j !in {JNull, JBool(false), JNumber(0), JString("")}
  }

  /** `typeof j === 'object'`. */
  predicate IsObjectType(j: Json) {
    j.JNull? || j.JArray? || j.JObject?
  }

  /** JSON text, as far as the source relies on it: `parse` fails on text that is not JSON. */
  datatype Codec = Codec(stringify: Json -> string, parse: string -> Option<Json>)

  ghost predicate Faithful(c: Codec) {
    forall j: Json :: c.parse(c.stringify(j)) == Some(j)
  }

  /** The fields of one stream entry, in wire order. */
  datatype Record = Record(
    messageId: string,
    messageType: string,
    destination: string,
    headers: string,
    contentType: string,
    sourceId: string,
    unused: string,
    payload: string)

  /** One entry of a stream's log: its id, unique and increasing within the log, and its fields. */
  datatype Entry = Entry(id: nat, record: Record)

  datatype Event = Event(
    streamId: string,
    streamMessageId: nat,
    messageId: string,
    messageType: string,
    messageDestination: string,
    messageProtocol: string,
    messageSourceId: string,
    headers: Option<Json>,
    payload: Json)

  /**
   The record that `writeToStream` appends.  The channel's own response type, when it is set,
   takes the place of the caller's message type.
   */
  function WireRecord(responseType: Option<string>, incomingStream: Option<string>, messageType: string,
                      messageId: string, message: string, sourceId: string): Record {
    Record(messageId,
           match responseType { case Some(t) => t case None => messageType },
           match incomingStream { case Some(s) => s case None => "" },
           "nil", "json", sourceId, "UnoccupiedField", message)
  }

  /** The event an entry decodes to; None where the source throws. */
  function Decode(c: Codec, streamId: string, e: Entry): Option<Event> {
    var r := e.record;
    var withHeaders := r.headers != "" && r.headers != "nil";
    var headers := if withHeaders then c.parse(r.headers) else None;
    var payload := if r.contentType == "json" then c.parse(r.payload) else Some(JString(r.payload));
    if (withHeaders && headers.None?) || payload.None? || r.messageId == "" then None
    else Some(Event(streamId, e.id, r.messageId, r.messageType, r.destination, r.contentType, r.sourceId, headers,
                    payload.value))
  }

  function DecodeAll(c: Codec, streamId: string, es: seq<Entry>): Option<seq<Event>> {
    if es == [] then Some([])
    else
      match (Decode(c, streamId, es[0]), DecodeAll(c, streamId, es[1..]))
      case (Some(e), Some(rest)) => Some([e] + rest)
      case _ => None
  }

  lemma {:induction false} DecodeAllConcat(c: Codec, streamId: string, a: seq<Entry>, b: seq<Entry>)
    ensures DecodeAll(c, streamId, a + b) ==
            (match (DecodeAll(c, streamId, a), DecodeAll(c, streamId, b))
             case (Some(x), Some(y)) => Some(x + y)
             case _ => None)
  {
    hide Decode;
    if a == [] {
      assert a + b == b;
      assert forall y: seq<Event> :: [] + y == y;
    } else {
      assert (a + b)[1..] == a[1..] + b;
      DecodeAllConcat(c, streamId, a[1..], b);
      match (Decode(c, streamId, a[0]), DecodeAll(c, streamId, a[1..]), DecodeAll(c, streamId, b))
      case (Some(e), Some(x), Some(y)) => assert [e] + (x + y) == [e] + x + y;
      case _ =>
    }
  }

  /** What was written is what is read: nothing in the record is lost or swapped. */
  lemma WireRoundTrip(c: Codec, responseType: Option<string>, incomingStream: Option<string>, messageType: string,
                      messageId: string, payload: Json, sourceId: string, streamId: string, id: nat)
    requires Faithful(c) && messageId != ""
    ensures var r := WireRecord(responseType, incomingStream, messageType, messageId, c.stringify(payload), sourceId);
            && r.headers == "nil" && r.contentType == "json" && r.unused == "UnoccupiedField"
            && Decode(c, streamId, Entry(id, r)) ==
            Some(Event(streamId, id, messageId,
                       match responseType { case Some(t) => t case None => messageType },
                       match incomingStream { case Some(s) => s case None => "" },
                       "json", sourceId, None, payload))
  {
  }

  /**
   Any record, whoever wrote it: it is readable exactly if it has an id and its texts parse, and then
   the event has its fields; a payload that is not called JSON is text, headers are parsed unless absent.
   */
  lemma AnyRecordReadsAs(c: Codec, streamId: string, e: Entry)
    ensures var r, ev := e.record, Decode(c, streamId, e);
            var hasHeaders := r.headers != "" && r.headers != "nil";
            && (ev.None? <==> r.messageId == "" || (hasHeaders && c.parse(r.headers).None?)
                              || (r.contentType == "json" && c.parse(r.payload).None?))
            && (ev.Some? ==>
                  && ev.value.streamId == streamId && ev.value.streamMessageId == e.id
                  && ev.value.messageId == r.messageId && ev.value.messageType == r.messageType
                  && ev.value.messageDestination == r.destination && ev.value.messageProtocol == r.contentType
                  && ev.value.messageSourceId == r.sourceId
                  && ev.value.headers == (if hasHeaders then c.parse(r.headers) else None)
                  && (r.contentType == "json" ==> c.parse(r.payload) == Some(ev.value.payload))
                  && (r.contentType != "json" ==> ev.value.payload == JString(r.payload)))
  {
  }
}
