/**
 * Domain events about the identity lifecycle and the producer that sends them. The broker
 * writer is kept abstract: the producer records the messages it handed to it.
 */
module Kafka {
  import opened Wrappers
  import opened Json
  import opened AppErrors

  /** The one topic every authentication event goes to. */
  const TopicUserEvents := "user-auth-events"

  newtype byte = x: int | 0 <= x < 256

  datatype EventKind = Login | Register | Update

  /** The event_type tag of each kind of event. */
  function EventType(k: EventKind): string
  {
    match k
    case Login => "user_login"
    case Register => "user_register"
    case Update => "user_update"
  }

  /** An AuthEvent; the network and agent metadata are omitempty. */
  datatype AuthEvent = AuthEvent(
    eventType: string,
    userID: int,
    email: string,
    name: string,
    role: string,
    timestamp: int,
    ipAddress: string,
    userAgent: string)

  /** The record PublishLoginEvent, PublishRegisterEvent and PublishUpdateEvent build at clock value `now`. */
  function EventRecord(k: EventKind, userID: int, email: string, name: string, role: string, now: int): (e: AuthEvent)
    ensures e.eventType == EventType(k) && e.timestamp == now
    ensures e.userID == userID && e.email == email && e.name == name && e.role == role
    ensures e.ipAddress == "" && e.userAgent == ""
  {
    AuthEvent(EventType(k), userID, email, name, role, now, "", "")
  }

  function EventJson(e: AuthEvent): Json
  {
    JObj([Field("event_type", JStr(e.eventType)), Field("user_id", JInt(e.userID)), Field("email", JStr(e.email)),
          Field("name", JStr(e.name)), Field("role", JStr(e.role)), Field("timestamp", JTime(e.timestamp))]
         + (if e.ipAddress != "" then [Field("ip_address", JStr(e.ipAddress))] else [])
         + (if e.userAgent != "" then [Field("user_agent", JStr(e.userAgent))] else []))
  }

  /** The events this service builds carry no network or agent metadata in their encoding. */
  lemma EventRecordJsonShape(k: EventKind, userID: int, email: string, name: string, role: string, now: int)
    ensures var j := EventJson(EventRecord(k, userID, email, name, role, now));
      Keys(j.fields) == ["event_type", "user_id", "email", "name", "role", "timestamp"]
      && !HasKey(j, "ip_address") && !HasKey(j, "user_agent")
  {
  }

  /** The three event kinds are told apart by their tag alone. */
  lemma EventTypesDistinct(k1: EventKind, k2: EventKind)
    ensures EventType(k1) == EventType(k2) <==> k1 == k2
  {
  }

  /** The number of bytes of a UTF-8 sequence, read off its lead byte. */
  function Utf8Width(lead: byte): nat
  {
    if lead < 0x80 then 1 else if lead < 0xE0 then 2 else if lead < 0xF0 then 3 else 4
  }

  /** The UTF-8 encoding of one character: []byte of a Go string is its UTF-8 bytes. */
  function Utf8Char(c: char): (bs: seq<byte>)
    ensures |bs| >= 1 && |bs| == Utf8Width(bs[0])
    ensures (|bs| == 1) <==> (c as int < 0x80)
    ensures |bs| == 1 ==> bs[0] as int == c as int
    ensures |bs| == 2 <==> 0x80 <= c as int < 0x800
    ensures |bs| == 3 <==> 0x800 <= c as int < 0x10000
    ensures |bs| > 1 ==> 0xC0 <= bs[0] as int
    ensures forall i | 1 <= i < |bs| :: 0x80 <= bs[i] as int < 0xC0
  {
    var n := c as int;
    if n < 0x80 then [n as byte]
    else if n < 0x800 then [(0xC0 + n / 64) as byte, (0x80 + n % 64) as byte]
    else if n < 0x10000 then [(0xE0 + n / 4096) as byte, (0x80 + (n / 64) % 64) as byte, (0x80 + n % 64) as byte]
    else [(0xF0 + n / 262144) as byte, (0x80 + (n / 4096) % 64) as byte, (0x80 + (n / 64) % 64) as byte,
          (0x80 + n % 64) as byte]
  }

  function Utf8(s: string): seq<byte>
  {
    if s == [] then [] else Utf8Char(s[0]) + Utf8(s[1..])
  }

  /** The code point of one sequence: the payload bits of the lead byte, then six bits per continuation byte. */
  function CodePoint(bs: seq<byte>): int
    requires |bs| >= 1 && |bs| >= Utf8Width(bs[0])
  {
    var w := Utf8Width(bs[0]);
    if w == 1 then bs[0] as int
    else if w == 2 then (bs[0] as int - 0xC0) * 64 + (bs[1] as int - 0x80)
    else if w == 3 then (bs[0] as int - 0xE0) * 4096 + (bs[1] as int - 0x80) * 64 + (bs[2] as int - 0x80)
    else (bs[0] as int - 0xF0) * 262144 + (bs[1] as int - 0x80) * 4096 + (bs[2] as int - 0x80) * 64
         + (bs[3] as int - 0x80)
  }

  /** A UTF-8 decoder: None for a truncated sequence or a code point that is not a character. */
  function Utf8Decode(bs: seq<byte>): Option<string>
    decreases |bs|
  {
    if bs == [] then Some([])
    else
      var w := Utf8Width(bs[0]);
      if |bs| < w then None
      else
        var n := CodePoint(bs[..w]);
        if !(0 <= n < 0xD800 || 0xE000 <= n < 0x11_0000) then None
        else match Utf8Decode(bs[w..])
          case None => None
          case Some(rest) => Some([n as char] + rest)
  }

  /** Each character's bytes decode back to its code point. */
  lemma Utf8CharDecodes(c: char)
    ensures CodePoint(Utf8Char(c)) == c as int
  {
    var n := c as int;
    if n < 0x800 {
    } else if n < 0x10000 {
      assert n == (n / 4096) * 4096 + ((n / 64) % 64) * 64 + n % 64;
    } else {
      assert n == (n / 4096) * 4096 + ((n / 64) % 64) * 64 + n % 64;
      assert n / 4096 == (n / 262144) * 64 + (n / 4096) % 64;
    }
  }

  /** Decoding undoes the encoding: the message key's bytes determine the email they came from. */
  lemma {:induction false} Utf8RoundTrip(s: string)
    ensures Utf8Decode(Utf8(s)) == Some(s)
  {
    if s != [] {
      var head := Utf8Char(s[0]);
      var bs := Utf8(s);
      assert bs == head + Utf8(s[1..]);
      assert bs[0] == head[0];
      assert bs[..|head|] == head;
      assert bs[|head|..] == Utf8(s[1..]);
      Utf8CharDecodes(s[0]);
      Utf8RoundTrip(s[1..]);
      assert [s[0]] + s[1..] == s;
    }
  }

  /** Distinct strings have distinct UTF-8 encodings. */
  lemma Utf8Injective(s: string, t: string)
    ensures Utf8(s) == Utf8(t) ==> s == t
  {
    Utf8RoundTrip(s);
    Utf8RoundTrip(t);
  }

  /** An ASCII string's bytes are its character codes, one byte per character. */
  lemma {:induction false} Utf8Ascii(s: string)
    requires forall i :: 0 <= i < |s| ==> s[i] as int < 0x80
    ensures |Utf8(s)| == |s|
    ensures forall i :: 0 <= i < |s| ==> Utf8(s)[i] as int == s[i] as int
  {
    if s != [] {
      Utf8Ascii(s[1..]);
      assert Utf8(s) == [s[0] as int as byte] + Utf8(s[1..]);
    }
  }

  /** A message as handed to the writer. */
  datatype Message = Message(topic: string, key: seq<byte>, value: Json, time: int)

  class KafkaProducer {
    /** The messages accepted by the writer so far. */
    var written: seq<Message>

    constructor ()
      ensures written == []
    {
      written := [];
    }

    /**
     * PublishMessage. `marshalError` is json.Marshal's failure, if any (then nothing is sent);
     * `writeError` is what the writer returns; `now` is the message time.
     */
    method PublishMessage(topic: string, key: string, value: Json, marshalError: Option<string>, now: int,
                          writeError: Option<string>) returns (err: Option<GoError>)
      modifies this
      ensures marshalError.Some? ==>
        err == Some(Plain("failed to marshal message: " + marshalError.value)) && written == old(written)
      ensures marshalError.None? && writeError.Some? ==> err == Some(Plain(writeError.value)) && written == old(written)
      ensures marshalError.None? && writeError.None? ==>
        err.None? && written == old(written) + [Message(topic, Utf8(key), value, now)]
    {
      if marshalError.Some? {
        return Some(Plain("failed to marshal message: " + marshalError.value));
      }
      var message := Message(topic, Utf8(key), value, now);
      if writeError.Some? {
        return Some(Plain(writeError.value));
      }
      written := written + [message];
      err := None;
    }

    /** The three Publish*Event operations: build the record at `eventTime` and send it keyed by the email. */
    method PublishEvent(k: EventKind, userID: int, email: string, name: string, role: string, eventTime: int,
                        marshalError: Option<string>, messageTime: int, writeError: Option<string>)
      returns (err: Option<GoError>)
      modifies this
      ensures err.None? <==> marshalError.None? && writeError.None?
      ensures err.None? ==>
        written == old(written) + [Message(TopicUserEvents, Utf8(email), EventJson(EventRecord(k, userID, email, name, role, eventTime)), messageTime)]
      ensures err.Some? ==> written == old(written)
    {
      var event := EventRecord(k, userID, email, name, role, eventTime);
      err := PublishMessage(TopicUserEvents, email, EventJson(event), marshalError, messageTime, writeError);
    }

    method PublishLoginEvent(userID: int, email: string, name: string, role: string, eventTime: int,
                             marshalError: Option<string>, messageTime: int, writeError: Option<string>)
      returns (err: Option<GoError>)
      modifies this
      ensures err.None? <==> marshalError.None? && writeError.None?
      ensures err.None? ==>
        written == old(written) + [Message(TopicUserEvents, Utf8(email), EventJson(EventRecord(Login, userID, email, name, role, eventTime)), messageTime)]
      ensures err.Some? ==> written == old(written)
    {
      err := PublishEvent(Login, userID, email, name, role, eventTime, marshalError, messageTime, writeError);
    }

    method PublishRegisterEvent(userID: int, email: string, name: string, role: string, eventTime: int,
                                marshalError: Option<string>, messageTime: int, writeError: Option<string>)
      returns (err: Option<GoError>)
      modifies this
      ensures err.None? <==> marshalError.None? && writeError.None?
      ensures err.None? ==>
        written == old(written) + [Message(TopicUserEvents, Utf8(email), EventJson(EventRecord(Register, userID, email, name, role, eventTime)), messageTime)]
      ensures err.Some? ==> written == old(written)
    {
      err := PublishEvent(Register, userID, email, name, role, eventTime, marshalError, messageTime, writeError);
    }

    method PublishUpdateEvent(userID: int, email: string, name: string, role: string, eventTime: int,
                              marshalError: Option<string>, messageTime: int, writeError: Option<string>)
      returns (err: Option<GoError>)
      modifies this
      ensures err.None? <==> marshalError.None? && writeError.None?
      ensures err.None? ==>
        written == old(written) + [Message(TopicUserEvents, Utf8(email), EventJson(EventRecord(Update, userID, email, name, role, eventTime)), messageTime)]
      ensures err.Some? ==> written == old(written)
    {
      err := PublishEvent(Update, userID, email, name, role, eventTime, marshalError, messageTime, writeError);
    }
  }
}
