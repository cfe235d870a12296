/**
 From one end of a connection to the other: messages encoded, written in pieces, delivered in
 other pieces, read by lines and decoded.
 */
module Framing {
  import opened Basics
  import opened Messages
  import opened Codec
  import opened RoundTrip
  import opened Rio

  /** A line read into a character array and taken as a C string ends at its first NUL. */
  function CString(s: string): string {
    if s == [] || s[0] == NUL then [] else [s[0]] + CString(s[1..])
  }

  /** What becomes of one request: a message, or an exception. CommFailure is the CommException
      raised when the reader returns no bytes. */
  datatype Incoming = Request(decoded: Decoded) | CommFailure

  function Received(t: Taken): Incoming {
    if t.ending.Broken? || t.bytes == [] then CommFailure else Request(Decoding(CString(t.bytes)))
  }

  /** The next request of a stream, read into a buffer of 1025 characters. */
  function Receiving(s: seq<Item>): (Incoming, seq<Item>) {
    var t := Line(s, MAX_ENCODED_LEN);
    (Received(t), t.rest)
  }

  /** The next n requests of a stream. */
  function ReceivingAll(s: seq<Item>, n: nat): (seq<Incoming>, seq<Item>)
    decreases n
  {
    if n == 0 then ([], s)
    else
      var (r, rest) := Receiving(s);
      var (rs, end) := ReceivingAll(rest, n - 1);
      ([r] + rs, end)
  }

  function EncodedAll(ms: seq<Message>): string {
    if ms == [] then "" else Encoded(ms[0]) + EncodedAll(ms[1..])
  }

  predicate NulFree(s: string) {
    forall i :: 0 <= i < |s| ==> s[i] != NUL
  }

  // ---------------------------------------------------------------- one message

  lemma {:induction false} CStringOf(s: string)
    ensures NulFree(s) ==> CString(s) == s
    ensures !NulFree(s) ==> |CString(s)| < |s| && CString(s) == s[..|CString(s)|]
  {
    if s != [] && s[0] != NUL {
      CStringOf(s[1..]);
      assert NulFree(s) <==> NulFree(s[1..]) by {
        assert forall i :: 0 <= i < |s[1..]| ==> s[1..][i] == s[i + 1];
      }
      assert s == [s[0]] + s[1..];
    }
  }

  lemma {:induction false} LineOfBytes(w: string, rest: seq<Item>, room: nat)
    requires NEWLINE !in w && |w| < room
    ensures Line(Bytes(w + "\n") + rest, room) == Taken(w + "\n", Newline, rest)
  {
    var s := w + "\n";
    BytesFirst(s, rest);
    if w == "" {
      assert s[1..] == [] && Bytes(s[1..]) + rest == rest;
    } else {
      assert s[1..] == w[1..] + "\n";
      LineOfBytes(w[1..], rest, room - 1);
      assert ([Byte(w[0])] + (Bytes(s[1..]) + rest))[1..] == Bytes(s[1..]) + rest;
    }
  }

  lemma {:induction false} JoinedHasNoNewline(args: seq<string>)
    requires AllClean(args)
    ensures NEWLINE !in Joined(args)
  {
    if args != [] {
      JoinedHasNoNewline(args[1..]);
      assert Clean(args[0]);
    }
  }

  /** An encoded message of the first class is one line. */
  lemma EncodedIsLine(m: Message) returns (w: string)
    requires AllClean(m.args)
    ensures Encoded(m) == w + "\n" && NEWLINE !in w
  {
    w := TypeName(m.kind) + Joined(m.args);
    JoinedHasNoNewline(m.args);
    TypeNameShape(m.kind);
    forall i | 0 <= i < |w| ensures w[i] != NEWLINE {
      if i < |TypeName(m.kind)| { assert IsLetter(TypeName(m.kind)[i]); }
    }
  }

  /** Written and read back, a message that decoding gives back arrives, and leaves the rest of the
      stream for the next, exactly when no argument holds a NUL. */
  lemma OneMessageArrives(m: Message, rest: seq<Item>)
    requires Valid(m) && AllClean(m.args) && |Encoded(m)| <= MAX_ENCODED_LEN
    ensures Receiving(Bytes(Encoded(m)) + rest) == (Request(Decoded.Ok(m)), rest) <==> NulFree(Encoded(m))
    ensures Receiving(Bytes(Encoded(m)) + rest).1 == rest
  {
    var w := EncodedIsLine(m);
    var s := Encoded(m);
    LineOfBytes(w, rest, MAX_ENCODED_LEN);
    CStringOf(s);
    DecodeInvertsEncode(m);
    if !NulFree(s) {
      var c := CString(s);
      assert c != [] ==> c[|c| - 1] == w[|c| - 1];
      assert !Decoding(c).Ok?;
    }
  }

  // ---------------------------------------------------------------- any number of messages

  function Requests(ms: seq<Message>): seq<Incoming> {
    if ms == [] then [] else [Request(Decoded.Ok(ms[0]))] + Requests(ms[1..])
  }

  predicate Sendable(m: Message) {
    Valid(m) && AllClean(m.args) && |Encoded(m)| <= MAX_ENCODED_LEN && NulFree(Encoded(m))
  }

  /** Messages sent one after the other arrive one after the other, and nothing else with them. */
  lemma {:induction false} MessagesArrive(ms: seq<Message>, rest: seq<Item>)
    requires forall i :: 0 <= i < |ms| ==> Sendable(ms[i])
    ensures ReceivingAll(Bytes(EncodedAll(ms)) + rest, |ms|) == (Requests(ms), rest)
  {
    if ms == [] {
      assert Bytes("") + rest == rest;
    } else {
      var tail := Bytes(EncodedAll(ms[1..])) + rest;
      BytesConcat(Encoded(ms[0]), EncodedAll(ms[1..]));
      Assoc(Bytes(Encoded(ms[0])), Bytes(EncodedAll(ms[1..])), rest);
      assert Sendable(ms[0]);
      OneMessageArrives(ms[0], tail);
      MessagesArrive(ms[1..], rest);
    }
  }

  /** The bytes of a schedule without errors. */
  function Data(schedule: seq<Arrival>): string {
    if schedule == [] then ""
    else (match schedule[0] case Chunk(data) => data case _ => "") + Data(schedule[1..])
  }

  predicate Faultless(schedule: seq<Arrival>) {
    forall i :: 0 <= i < |schedule| ==> !schedule[i].Failure?
  }

  lemma {:induction false} ItemsOfData(schedule: seq<Arrival>)
    requires Faultless(schedule)
    ensures Items(schedule) == Bytes(Data(schedule))
  {
    if schedule != [] {
      ItemsOfData(schedule[1..]);
      var rest := schedule[1..];
      if schedule[0].Chunk? {
        BytesConcat(schedule[0].data, Data(rest));
      } else {
        assert [] + Items(rest) == Items(rest) && "" + Data(rest) == Data(rest);
      }
    }
  }

  /** However the bytes of the messages were cut up on the way, and however often reading was
      interrupted, the receiver decodes the messages that were sent. */
  lemma {:induction false} EndToEnd(ms: seq<Message>, schedule: seq<Arrival>)
    requires forall i :: 0 <= i < |ms| ==> Sendable(ms[i])
    requires Faultless(schedule) && Data(schedule) == EncodedAll(ms)
    ensures ReceivingAll(Items(schedule), |ms|) == (Requests(ms), [])
  {
    ItemsOfData(schedule);
    MessagesArrive(ms, []);
    assert Bytes(EncodedAll(ms)) + [] == Bytes(EncodedAll(ms));
  }

  // ---------------------------------------------------------------- the two ends

  /** Sends one message. False when it is too long to encode, or when a write was refused. */
  method Send(fd: Sink, m: Message) returns (ok: bool)
    modifies fd
    ensures ok ==> fd.written == old(fd.written) + Encoded(m)
    ensures |Encoded(m)| > MAX_ENCODED_LEN ==> !ok && fd.written == old(fd.written)
    ensures old(fd.NeverRefuses()) ==> fd.NeverRefuses() && (ok <==> |Encoded(m)| <= MAX_ENCODED_LEN)
  {
    var text := Encode(m);
    if text.None? {
      return false;
    }
    var ret := WriteN(fd, text.value);
    return ret >= 0;
  }

  method SendAll(fd: Sink, ms: seq<Message>)
    requires fd.NeverRefuses() && forall i :: 0 <= i < |ms| ==> |Encoded(ms[i])| <= MAX_ENCODED_LEN
    modifies fd
    ensures fd.written == old(fd.written) + EncodedAll(ms) && fd.NeverRefuses()
  {
    assert EncodedAll(ms[..0]) == "";
    hide EncodedAll;
    hide Encoded;
    for i := 0 to |ms|
      invariant fd.NeverRefuses() && fd.written == old(fd.written) + EncodedAll(ms[..i])
    {
      EncodedAllNext(ms, i);
      var ok := Send(fd, ms[i]);
      Associate(old(fd.written), EncodedAll(ms[..i]), Encoded(ms[i]));
    }
    assert ms[..|ms|] == ms;
  }

  lemma {:induction false} EncodedAllAppend(ms: seq<Message>, m: Message)
    ensures EncodedAll(ms + [m]) == EncodedAll(ms) + Encoded(m)
  {
    if ms == [] {
      assert [] + [m] == [m] && [m][1..] == [];
    } else {
      EncodedAllAppend(ms[1..], m);
      assert (ms + [m])[1..] == ms[1..] + [m];
    }
  }

  lemma EncodedAllNext(ms: seq<Message>, i: nat)
    requires i < |ms|
    ensures EncodedAll(ms[..i + 1]) == EncodedAll(ms[..i]) + Encoded(ms[i])
  {
    EncodedAllAppend(ms[..i], ms[i]);
    assert ms[..i + 1] == ms[..i] + [ms[i]];
  }

  lemma Associate(a: string, b: string, c: string)
    ensures (a + b) + c == a + (b + c)
  {
  }

  /** std::string(buf): the characters of an array up to the first NUL. */
  method FromCharArray(buf: array<char>, n: nat) returns (s: string)
    requires n < buf.Length && buf[n] == NUL
    ensures s == CString(buf[..n])
  {
    s := "";
    var i := 0;
    assert "" + CString(buf[0..n]) == CString(buf[..n]) by { assert buf[0..n] == buf[..n]; }
    while buf[i] != NUL
      invariant i <= n && s + CString(buf[i..n]) == CString(buf[..n])
      decreases n - i
    {
      assert buf[i..n][1..] == buf[i + 1..n];
      s := s + [buf[i]];
      i := i + 1;
    }
    assert CString(buf[i..n]) == [];
    assert s + [] == s;
  }

  /** Reads and decodes one request. */
  method Receive(rp: Reader, msg: MessageBuffer) returns (result: Incoming)
    requires rp.Valid()
    modifies rp, rp.fd, rp.buf, msg
    ensures rp.Valid() && (result, rp.Stream()) == Receiving(old(rp.Stream()))
    ensures result.Request? && result.decoded.Ok? ==> msg.Contents() == result.decoded.m
  {
    var buf := new char[MAX_ENCODED_LEN + 1];
    ghost var t := Line(rp.Stream(), MAX_ENCODED_LEN);
    var ret := rp.ReadLineB(buf, MAX_ENCODED_LEN + 1);
    if ret <= 0 {
      return CommFailure;
    }
    var line := FromCharArray(buf, ret);
    var decoded := Decode(line, msg);
    return Request(decoded);
  }

  // ---------------------------------------------------------------- both ends and the wire between them

  /** How the wire delivers data: in chunks of the sizes given, with an interrupted read for each zero,
      and the rest at once. */
  function Chopped(data: string, sizes: seq<nat>): seq<Arrival>
    decreases |sizes|
  {
    if sizes == [] then if data == "" then [] else [Chunk(data)]
    else if sizes[0] == 0 then [Interrupted] + Chopped(data, sizes[1..])
    else if data == "" then Chopped(data, sizes[1..])
    else
      var k := if sizes[0] < |data| then sizes[0] else |data|;
      [Chunk(data[..k])] + Chopped(data[k..], sizes[1..])
  }

  predicate Delivers(schedule: seq<Arrival>, data: string) {
    Faultless(schedule) && Proper(schedule) && Data(schedule) == data
  }

  lemma DeliversNext(a: Arrival, schedule: seq<Arrival>, data: string)
    requires Delivers(schedule, data) && !a.Failure? && (a.Chunk? ==> a.data != "")
    ensures Delivers([a] + schedule, (if a.Chunk? then a.data else "") + data)
  {
    assert ([a] + schedule)[1..] == schedule;
    assert forall i :: 0 < i < |[a] + schedule| ==> ([a] + schedule)[i] == schedule[i - 1];
  }

  lemma {:induction false} ChoppedData(data: string, sizes: seq<nat>)
    ensures Delivers(Chopped(data, sizes), data)
    decreases |sizes|
  {
    hide Delivers;
    assert "" + data == data && data + "" == data;
    if sizes == [] {
      NothingDelivered();
      if data != "" {
        DeliversNext(Chunk(data), [], "");
        assert [Chunk(data)] + [] == [Chunk(data)];
      }
    } else if sizes[0] == 0 {
      ChoppedData(data, sizes[1..]);
      DeliversNext(Interrupted, Chopped(data, sizes[1..]), data);
    } else if data == "" {
      ChoppedData(data, sizes[1..]);
    } else {
      var k := if sizes[0] < |data| then sizes[0] else |data|;
      ChoppedData(data[k..], sizes[1..]);
      DeliversNext(Chunk(data[..k]), Chopped(data[k..], sizes[1..]), data[k..]);
      assert data[..k] + data[k..] == data;
    }
  }

  lemma NothingDelivered()
    ensures Delivers([], "")
  {
  }

  /** Every way to deliver data without an error is one of these. */
  lemma {:induction false} EveryDeliveryChops(schedule: seq<Arrival>) returns (sizes: seq<nat>)
    requires Faultless(schedule) && Proper(schedule)
    ensures Chopped(Data(schedule), sizes) == schedule
  {
    sizes := [];
    if schedule != [] {
      var rest := schedule[1..];
      var later := EveryDeliveryChops(rest);
      var k := if schedule[0].Chunk? then |schedule[0].data| else 0;
      sizes := [k] + later;
      assert sizes[1..] == later && schedule == [schedule[0]] + rest;
      if schedule[0].Chunk? {
        var data := Data(schedule);
        assert data[..k] == schedule[0].data && data[k..] == Data(rest);
      } else {
        assert "" + Data(rest) == Data(rest);
      }
    }
  }

  lemma ReceivingNext(s: seq<Item>, n: nat)
    requires n > 0
    ensures ReceivingAll(s, n).0 == [Receiving(s).0] + ReceivingAll(Receiving(s).1, n - 1).0
    ensures ReceivingAll(s, n).1 == ReceivingAll(Receiving(s).1, n - 1).1
  {
  }

  /** The next n requests read from a reader. */
  method ReceiveAll(rp: Reader, n: nat) returns (received: seq<Incoming>)
    requires rp.Valid()
    modifies rp, rp.fd, rp.buf
    ensures rp.Valid() && (received, rp.Stream()) == ReceivingAll(old(rp.Stream()), n)
  {
    ghost var s := rp.Stream();
    received := [];
    assert [] + ReceivingAll(s, n).0 == ReceivingAll(s, n).0;
    var left := n;
    hide *;
    while left > 0
      invariant rp.Valid()
      invariant received + ReceivingAll(rp.Stream(), left).0 == ReceivingAll(s, n).0
      invariant ReceivingAll(rp.Stream(), left).1 == ReceivingAll(s, n).1
    {
      ReceivingNext(rp.Stream(), left);
      ghost var later := ReceivingAll(Receiving(rp.Stream()).1, left - 1).0;
      var request := new MessageBuffer();
      var one := Receive(rp, request);
      ResultsMoved(received, one, later);
      received := received + [one];
      left := left - 1;
    }
    ReceivingNone(received, rp.Stream());
  }

  lemma ResultsMoved(received: seq<Incoming>, one: Incoming, later: seq<Incoming>)
    ensures received + ([one] + later) == (received + [one]) + later
  {
  }

  lemma ReceivingNone(received: seq<Incoming>, s: seq<Item>)
    ensures received + ReceivingAll(s, 0).0 == received && ReceivingAll(s, 0).1 == s
  {
  }

  /** Messages written to a descriptor under any pattern of short and interrupted writes, delivered in
      chunks of any sizes with any interruptions, and read through a reader: exactly the messages sent
      arrive, in order, and the stream is then at its end. */
  method Exchange(ms: seq<Message>, fd: Sink, sizes: seq<nat>) returns (received: seq<Incoming>, rp: Reader)
    requires forall i :: 0 <= i < |ms| ==> Sendable(ms[i])
    requires fd.written == "" && fd.NeverRefuses()
    modifies fd
    ensures fd.written == EncodedAll(ms)
    ensures received == Requests(ms)
    ensures rp.Valid() && rp.Stream() == []
  {
    SendAll(fd, ms);
    assert "" + EncodedAll(ms) == EncodedAll(ms);
    var schedule := Chopped(fd.written, sizes);
    ChoppedData(fd.written, sizes);
    EndToEnd(ms, schedule);
    hide *;
    var source := new Source(schedule);
    rp := new Reader(source);
    received := ReceiveAll(rp, |ms|);
  }
}
