/**
  The reader goroutine: splitting a TCP byte stream into messages. The stream is the
  finite sequence of octets the connection yields before it fails or ends.
  */
module Framing {
  import opened Bytes
  import opened Notifications
  import opened Packet
  import opened PacketProofs

  const MAX_MESSAGE_LENGTH: nat := 4096

  datatype Frame = Frame(message: Message, rest: seq<byte>)

  predicate Synchronized(header: seq<byte>)
    requires |header| >= 16
  {
    forall i :: 0 <= i < 16 ==> header[i] == 0xFF
  }

  /** One round of the reader's loop. A failed read is an error without a notification. */
  function NextMessage(s: seq<byte>): (r: Outcome<Frame>)
    ensures r.Ok? ==> |r.value.rest| < |s|
  {
    if |s| < HEADER_LENGTH then Err(OtherError)
    else if !Synchronized(s) then
      Err(Refuse(NOTIF_CODE_MESSAGE_HEADER_ERR, NOTIF_SUBCODE_CONN_NOT_SYNCHRONIZED, []))
    else
      var length := GetU16(s[16..18]);
      if length < HEADER_LENGTH || length > MAX_MESSAGE_LENGTH then
        Err(Refuse(NOTIF_CODE_MESSAGE_HEADER_ERR, NOTIF_SUBCODE_BAD_MESSAGE_LEN, []))
      else if |s| < length then Err(OtherError)
      else
        var m :- MessageFromBytes(s[HEADER_LENGTH..length], s[18]);
        Ok(Frame(m, s[length..]))
  }

  /** What the reader delivers, the error it stops with and the octets not consumed. */
  datatype Reading = Reading(messages: seq<Message>, error: Error, unread: seq<byte>)

  function ReadStream(s: seq<byte>): Reading
    decreases |s|
  {
    var next := NextMessage(s);
    if next.Ok? then
      var more := ReadStream(next.value.rest);
      Reading([next.value.message] + more.messages, more.error, more.unread)
    else Reading([], if next.Err? then next.error else OtherError, s)
  }

  lemma MessageDecodeNeverPanics(b: seq<byte>, messageType: byte)
    ensures !MessageFromBytes(b, messageType).Panic?
  {
    OpenDecodeNeverPanics(b);
  }

  /** Messages delivered before the rest of a stream is read. */
  function Before(ms: seq<Message>, r: Reading): Reading {
    Reading(ms + r.messages, r.error, r.unread)
  }

  lemma ReadOneMore(ms: seq<Message>, s: seq<byte>)
    requires NextMessage(s).Ok?
    ensures Before(ms, ReadStream(s))
         == Before(ms + [NextMessage(s).value.message], ReadStream(NextMessage(s).value.rest))
  {
    var m, more := NextMessage(s).value.message, ReadStream(NextMessage(s).value.rest).messages;
    assert ms + ([m] + more) == ms + [m] + more;
  }

  /** The reader itself: it stops only by reporting an error, never by a panic. */
  method Read(stream: seq<byte>) returns (delivered: seq<Message>, error: Error, unread: seq<byte>)
    ensures Reading(delivered, error, unread) == ReadStream(stream)
  {
    delivered, unread := [], stream;
    assert [] + ReadStream(stream).messages == ReadStream(stream).messages;
    while true
      invariant ReadStream(stream) == Before(delivered, ReadStream(unread))
      decreases |unread|
    {
      if |unread| < HEADER_LENGTH {
        return delivered, OtherError, unread;
      }
      var header := unread[..HEADER_LENGTH];
      for i := 0 to 16
        invariant forall j :: 0 <= j < i ==> header[j] == 0xFF
      {
        if header[i] != 0xFF {
          assert !Synchronized(unread);
          return delivered,
                 Refuse(NOTIF_CODE_MESSAGE_HEADER_ERR, NOTIF_SUBCODE_CONN_NOT_SYNCHRONIZED, []), unread;
        }
      }
      assert Synchronized(unread) && header[16..18] == unread[16..18];
      var bodyLen := GetU16(header[16..18]) - HEADER_LENGTH;
      if bodyLen < 0 || bodyLen + HEADER_LENGTH > MAX_MESSAGE_LENGTH {
        return delivered, Refuse(NOTIF_CODE_MESSAGE_HEADER_ERR, NOTIF_SUBCODE_BAD_MESSAGE_LEN, []), unread;
      }
      if |unread| < HEADER_LENGTH + bodyLen {
        return delivered, OtherError, unread;
      }
      var body := unread[HEADER_LENGTH..HEADER_LENGTH + bodyLen];
      var m := MessageFromBytes(body, header[18]);
      MessageDecodeNeverPanics(body, header[18]);
      if m.Err? {
        return delivered, m.error, unread;
      }
      ReadOneMore(delivered, unread);
      unread := unread[HEADER_LENGTH + bodyLen..];
      delivered := delivered + [m.value];
    }
  }

  // ----- the reader inverts the encoder

  /** The messages the wire carries faithfully. */
  predicate Sendable(m: Message) {
    && Encode(m).Ok?
    && |Encode(m).value| <= MAX_MESSAGE_LENGTH
    && (m.Open? ==> Describable(m.open))
    && (m.Notify? ==> |m.notification.data| != 1)
  }

  lemma BodyRoundTripsIff(m: Message)
    requires EncodeBody(m).Ok?
    ensures MessageFromBytes(EncodeBody(m).value, MessageType(m)) == Ok(m) <==>
            (m.Open? ==> Describable(m.open)) && (m.Notify? ==> |m.notification.data| != 1)
  {
    match m
    case Open(o) => OpenRoundTripsIff(o);
    case Notify(n) => NotificationRoundTripsIff(n);
    case Update(_) =>
    case KeepAlive =>
  }

  lemma HeaderFields(body: seq<byte>, messageType: byte, rest: seq<byte>)
    ensures var s := PrependHeader(body, messageType) + rest;
            && |s| >= HEADER_LENGTH && Synchronized(s) && s[18] == messageType
            && GetU16(s[16..18]) == ToU16(|body| + HEADER_LENGTH)
            && s[HEADER_LENGTH..] == body + rest
  {
    var s := PrependHeader(body, messageType) + rest;
    GetPutU16(ToU16(|body| + HEADER_LENGTH), []);
    assert s[16..18] == PutU16(ToU16(|body| + HEADER_LENGTH)) + [];
  }

  lemma BodyOf(s: seq<byte>, body: seq<byte>, rest: seq<byte>)
    requires |s| >= HEADER_LENGTH && s[HEADER_LENGTH..] == body + rest
    ensures s[HEADER_LENGTH..HEADER_LENGTH + |body|] == body && s[HEADER_LENGTH + |body|..] == rest
  {
    assert s[HEADER_LENGTH..HEADER_LENGTH + |body|] == s[HEADER_LENGTH..][..|body|];
    assert s[HEADER_LENGTH + |body|..] == s[HEADER_LENGTH..][|body|..];
  }

  /** The reader's round, seen from the parts of the frame. */
  lemma NextMessageFrom(s: seq<byte>, body: seq<byte>, messageType: byte, rest: seq<byte>)
    requires |s| >= HEADER_LENGTH && Synchronized(s) && s[18] == messageType
    requires GetU16(s[16..18]) == ToU16(|body| + HEADER_LENGTH) && s[HEADER_LENGTH..] == body + rest
    ensures |body| + HEADER_LENGTH <= MAX_MESSAGE_LENGTH && MessageFromBytes(body, messageType).Ok? ==>
              NextMessage(s) == Ok(Frame(MessageFromBytes(body, messageType).value, rest))
    ensures |body| + HEADER_LENGTH <= MAX_MESSAGE_LENGTH && !MessageFromBytes(body, messageType).Ok? ==>
              !NextMessage(s).Ok?
    ensures |body| + HEADER_LENGTH > MAX_MESSAGE_LENGTH && NextMessage(s).Ok? ==>
              |NextMessage(s).value.rest| > |rest|
  {
    var n := |body| + HEADER_LENGTH;
    assert |s| == n + |rest|;
    if n <= MAX_MESSAGE_LENGTH {
      BodyOf(s, body, rest);
      assert ToU16(n) == n;
    }
  }

  /** One encoded message in front of any octets is read back iff it is sendable. */
  lemma FrameRoundTripsIff(m: Message, rest: seq<byte>)
    requires Encode(m).Ok?
    ensures NextMessage(Encode(m).value + rest) == Ok(Frame(m, rest)) <==> Sendable(m)
  {
    var body := EncodeBody(m).value;
    HeaderFields(body, MessageType(m), rest);
    NextMessageFrom(Encode(m).value + rest, body, MessageType(m), rest);
    BodyRoundTripsIff(m);
  }

  predicate AllSendable(ms: seq<Message>) {
    forall i :: 0 <= i < |ms| ==> Sendable(ms[i])
  }

  /** The concatenation of the encodings. */
  function EncodeAll(ms: seq<Message>): seq<byte>
    requires AllSendable(ms)
  {
    if ms == [] then [] else Encode(ms[0]).value + EncodeAll(ms[1..])
  }

  lemma ReadSendableFirst(m: Message, rest: seq<byte>)
    requires Sendable(m)
    ensures ReadStream(Encode(m).value + rest) == Before([m], ReadStream(rest))
  {
    FrameRoundTripsIff(m, rest);
  }

  lemma BeforeBefore(m: Message, ms: seq<Message>, r: Reading)
    ensures Before([m], Before(ms, r)) == Before([m] + ms, r)
    ensures Before([], r) == r
  {
    assert [m] + (ms + r.messages) == [m] + ms + r.messages;
    assert [] + r.messages == r.messages;
  }

  lemma FirstOfAll(m: Message, rest: seq<Message>, tail: seq<byte>)
    requires Sendable(m) && AllSendable(rest) && AllSendable([m] + rest)
    ensures EncodeAll([m] + rest) + tail == Encode(m).value + (EncodeAll(rest) + tail)
  {
    var ms := [m] + rest;
    assert ms[0] == m && ms[1..] == rest;
  }

  /**
    De-framing inverts encoding: for any sendable messages followed by any octets, the
    reader delivers exactly those messages and then what it makes of the rest.
    */
  lemma {:induction false} StreamRoundTrip(ms: seq<Message>, tail: seq<byte>)
    requires AllSendable(ms)
    ensures ReadStream(EncodeAll(ms) + tail) == Before(ms, ReadStream(tail))
  {
    if ms == [] {
      assert EncodeAll(ms) + tail == tail;
      assert ms + ReadStream(tail).messages == ReadStream(tail).messages;
    } else {
      var m, rest := ms[0], ms[1..];
      FirstOfAll(m, rest, tail);
      ReadSendableFirst(m, EncodeAll(rest) + tail);
      StreamRoundTrip(rest, tail);
      BeforeBefore(m, rest, ReadStream(tail));
      assert [m] + rest == ms;
    }
  }

  /** A stream of whole messages is delivered as sent, and every octet is consumed. */
  lemma WholeStreamDelivered(ms: seq<Message>)
    requires AllSendable(ms)
    ensures ReadStream(EncodeAll(ms)) == Reading(ms, OtherError, [])
  {
    StreamRoundTrip(ms, []);
    assert EncodeAll(ms) + [] == EncodeAll(ms);
    assert ms + [] == ms;
  }

  /** Hence two different sequences of messages never share an encoding. */
  lemma StreamsAreUnambiguous(ms: seq<Message>, ms': seq<Message>)
    requires AllSendable(ms)
    requires AllSendable(ms')
    requires EncodeAll(ms) == EncodeAll(ms')
    ensures ms == ms'
  {
    WholeStreamDelivered(ms);
    WholeStreamDelivered(ms');
  }

  lemma BodyReencodesIff(body: seq<byte>, messageType: byte)
    requires MessageFromBytes(body, messageType).Ok?
    ensures var m := MessageFromBytes(body, messageType).value;
            && EncodeBody(m).Ok? && MessageType(m) == messageType
            && (|EncodeBody(m).value| == |body| ==> EncodeBody(m).value == body)
            && (EncodeBody(m).value == body <==>
                (m.KeepAlive? ==> body == []) && (m.Notify? ==> |m.notification.data| != 1))
  {
    if messageType == OPEN_MESSAGE_TYPE {
      OpenReencodes(body);
    }
  }

  lemma LengthOctets(b: seq<byte>)
    requires |b| == 2
    ensures PutU16(ToU16(GetU16(b))) == b
  {
    PutGetU16(b);
    assert b[..2] == b;
  }

  lemma HeaderOf(h: seq<byte>)
    requires |h| == HEADER_LENGTH && Synchronized(h)
    ensures h == Header(GetU16(h[16..18]), h[18])
  {
    var octets := PutU16(ToU16(GetU16(h[16..18])));
    assert octets == h[16..18] by {
      LengthOctets(h[16..18]);
    }
    assert h[..16] == Marker(16);
    assert h == h[..16] + h[16..18] + [h[18]];
  }

  lemma HeaderAndBody(s: seq<byte>, length: nat)
    requires HEADER_LENGTH <= length <= |s| && Synchronized(s) && length == GetU16(s[16..18])
    ensures s == PrependHeader(s[HEADER_LENGTH..length], s[18]) + s[length..]
  {
    var h := s[..HEADER_LENGTH];
    assert h == Header(length, s[18]) by {
      assert h[16..18] == s[16..18] && h[18] == s[18];
      HeaderOf(h);
    }
    assert s == h + s[HEADER_LENGTH..length] + s[length..];
  }

  /**
    Conversely, the octets of a frame that was read are the encoding of its message,
    except that a KEEPALIVE drops its body and one octet of NOTIFICATION data is lost.
    */
  lemma FrameReencodesIff(s: seq<byte>)
    requires NextMessage(s).Ok?
    ensures var f := NextMessage(s).value;
            var length := GetU16(s[16..18]);
            && Encode(f.message).Ok?
            && (Encode(f.message).value + f.rest == s <==>
                && (f.message.KeepAlive? ==> length == HEADER_LENGTH)
                && (f.message.Notify? ==> |f.message.notification.data| != 1))
  {
    var f, length := NextMessage(s).value, GetU16(s[16..18]);
    var body := s[HEADER_LENGTH..length];
    assert s == PrependHeader(body, s[18]) + f.rest by {
      HeaderAndBody(s, length);
    }
    BodyReencodesIff(body, s[18]);
    var encoded := Encode(f.message).value;
    if encoded + f.rest == s {
      assert |encoded| == |PrependHeader(body, s[18])|;
    }
  }
}
