/**
 The buffered reader and the robust writer of csapp.c. What the kernel does is a schedule:
 bytes arrive in chunks, calls are interrupted or fail. What a reader delivers is proved to be
 a function of the flattened stream, in which chunks have no borders and interruptions no place.
 */
module Rio {
  import opened Basics

  // ---------------------------------------------------------------- what arrives

  /** What a call of read may meet: an interruption, an error, or some bytes. */
  datatype Arrival = Interrupted | Failure | Chunk(data: seq<char>)

  datatype Item = Byte(c: char) | Fault

  function Bytes(s: seq<char>): seq<Item> {
    if s == [] then [] else [Byte(s[0])] + Bytes(s[1..])
  }

  function Items(schedule: seq<Arrival>): seq<Item> {
    if schedule == [] then []
    else
      (match schedule[0]
       case Interrupted => []
       case Failure => [Fault]
       case Chunk(data) => Bytes(data)) + Items(schedule[1..])
  }

  /** read returns 0 only at the end of the stream, so a chunk is never empty. */
  predicate Proper(schedule: seq<Arrival>) {
    forall i :: 0 <= i < |schedule| && schedule[i].Chunk? ==> schedule[i].data != []
  }

  lemma {:induction false} BytesAt(s: seq<char>)
    ensures |Bytes(s)| == |s| && forall i :: 0 <= i < |s| ==> Bytes(s)[i] == Byte(s[i])
  {
    if s != [] {
      BytesAt(s[1..]);
      forall i | 0 <= i < |s| ensures Bytes(s)[i] == Byte(s[i]) {
        if i > 0 { assert Bytes(s)[i] == Bytes(s[1..])[i - 1]; }
      }
    }
  }

  lemma BytesConcat(a: seq<char>, b: seq<char>)
    ensures Bytes(a + b) == Bytes(a) + Bytes(b)
  {
    BytesAt(a);
    BytesAt(b);
    BytesAt(a + b);
  }

  /** Taking the first k bytes of a chunk leaves the others as a chunk, or no chunk. */
  lemma ChunkSplits(data: seq<char>, rest: seq<Arrival>, k: nat)
    requires k <= |data|
    ensures Items([Chunk(data)] + rest) ==
            Bytes(data[..k]) + Items((if k == |data| then [] else [Chunk(data[k..])]) + rest)
  {
    assert data == data[..k] + data[k..];
    BytesConcat(data[..k], data[k..]);
    assert ([Chunk(data)] + rest)[1..] == rest;
    if k == |data| {
      assert [] + rest == rest && data[k..] == [];
    } else {
      assert ([Chunk(data[k..])] + rest)[1..] == rest;
    }
  }

  /** A descriptor to read from. */
  class Source {
    var schedule: seq<Arrival>

    constructor (arrivals: seq<Arrival>)
      requires Proper(arrivals)
      ensures schedule == arrivals
    {
      schedule := arrivals;
    }

    /** One call of read: at most as many bytes as fit. */
    method Read(buf: array<char>) returns (count: int, interrupted: bool)
      requires Proper(schedule) && buf.Length > 0
      modifies this, buf
      ensures Proper(schedule) && |schedule| <= |old(schedule)|
      ensures count < 0 ==> |schedule| < |old(schedule)|
      ensures count <= buf.Length && count >= -1
      ensures interrupted ==> count < 0 && Items(schedule) == Items(old(schedule))
      ensures count < 0 && !interrupted ==> Items(old(schedule)) == [Fault] + Items(schedule)
      ensures count == 0 ==> Items(old(schedule)) == [] == Items(schedule)
      ensures count > 0 ==> Items(old(schedule)) == Bytes(buf[..count]) + Items(schedule)
    {
      if schedule == [] {
        return 0, false;
      }
      assert schedule == [schedule[0]] + schedule[1..];
      match schedule[0] {
        case Interrupted =>
          schedule := schedule[1..];
          return -1, true;
        case Failure =>
          schedule := schedule[1..];
          return -1, false;
        case Chunk(data) =>
          count := if |data| <= buf.Length then |data| else buf.Length;
          for i := 0 to count
            invariant buf[..i] == data[..i]
            modifies buf
          {
            buf[i] := data[i];
          }
          ChunkSplits(data, schedule[1..], count);
          schedule := (if count == |data| then [] else [Chunk(data[count..])]) + schedule[1..];
          return count, false;
      }
    }
  }

  // ---------------------------------------------------------------- what a reader delivers

  datatype Ending = Full | Newline | EndOfInput | Broken

  datatype Taken = Taken(bytes: seq<char>, ending: Ending, rest: seq<Item>)

  /** The next line of a stream: up to a newline, the room, the end of input or an error. */
  function Line(s: seq<Item>, room: nat): Taken {
    if room == 0 then Taken([], Full, s)
    else if s == [] then Taken([], EndOfInput, s)
    else if s[0].Fault? then Taken([], Broken, s[1..])
    else if s[0].c == NEWLINE then Taken([NEWLINE], Newline, s[1..])
    else
      var t := Line(s[1..], room - 1);
      t.(bytes := [s[0].c] + t.bytes)
  }

  /** The next n bytes of a stream, or what there is before the end of input or an error. */
  function Block(s: seq<Item>, n: nat): Taken {
    if n == 0 then Taken([], Full, s)
    else if s == [] then Taken([], EndOfInput, s)
    else if s[0].Fault? then Taken([], Broken, s[1..])
    else
      var t := Block(s[1..], n - 1);
      t.(bytes := [s[0].c] + t.bytes)
  }

  function With(bytes: seq<char>, t: Taken): Taken { t.(bytes := bytes + t.bytes) }

  lemma LineStep(bytes: seq<char>, c: char, s: seq<Item>, room: nat)
    requires room > 0
    ensures With(bytes, Line([Byte(c)] + s, room)) ==
            if c == NEWLINE then Taken(bytes + [c], Newline, s) else With(bytes + [c], Line(s, room - 1))
  {
    assert ([Byte(c)] + s)[1..] == s;
    assert bytes + ([c] + Line(s, room - 1).bytes) == (bytes + [c]) + Line(s, room - 1).bytes;
  }

  lemma LineFault(bytes: seq<char>, s: seq<Item>, room: nat)
    requires room > 0
    ensures With(bytes, Line([Fault] + s, room)) == Taken(bytes, Broken, s)
    ensures With(bytes, Block([Fault] + s, room)) == Taken(bytes, Broken, s)
  {
    assert ([Fault] + s)[1..] == s && bytes + [] == bytes;
  }

  lemma BlockOne(bytes: seq<char>, c: char, s: seq<Item>, n: nat)
    requires n > 0
    ensures With(bytes, Block([Byte(c)] + s, n)) == With(bytes + [c], Block(s, n - 1))
  {
    assert ([Byte(c)] + s)[1..] == s;
    assert bytes + ([c] + Block(s, n - 1).bytes) == (bytes + [c]) + Block(s, n - 1).bytes;
  }

  lemma BytesFirst(got: seq<char>, s: seq<Item>)
    requires got != []
    ensures Bytes(got) + s == [Byte(got[0])] + (Bytes(got[1..]) + s)
  {
  }

  lemma {:induction false} BlockStep(bytes: seq<char>, got: seq<char>, s: seq<Item>, n: nat)
    requires |got| <= n
    ensures With(bytes, Block(Bytes(got) + s, n)) == With(bytes + got, Block(s, n - |got|))
    decreases |got|
  {
    if got == [] {
      assert Bytes(got) + s == s && bytes + got == bytes;
      hide Block, With;
    } else {
      hide Block, Bytes, With;
      BytesFirst(got, s);
      BlockOne(bytes, got[0], Bytes(got[1..]) + s, n);
      BlockStep(bytes + [got[0]], got[1..], s, n - 1);
      FirstMoved(bytes, got);
    }
  }

  lemma FirstMoved(bytes: seq<char>, got: seq<char>)
    requires got != []
    ensures (bytes + [got[0]]) + got[1..] == bytes + got
  {
  }

  /** The items a call used up. */
  function Used(t: Taken): seq<Item> {
    if t.ending.Broken? then Bytes(t.bytes) + [Fault] else Bytes(t.bytes)
  }

  lemma UsedFirst(c: char, t: Taken)
    ensures Used(t.(bytes := [c] + t.bytes)) + t.rest == [Byte(c)] + (Used(t) + t.rest)
  {
    assert ([c] + t.bytes)[1..] == t.bytes;
  }

  /** Nothing is lost and nothing invented, and a line respects its room. */
  lemma {:induction false} LineConserves(s: seq<Item>, room: nat)
    ensures Used(Line(s, room)) + Line(s, room).rest == s
    ensures |Line(s, room).bytes| <= room
  {
    if room > 0 && s != [] && s[0] == Byte(NEWLINE) {
      OneByte([NEWLINE]);
      assert s == [s[0]] + s[1..];
    } else if room > 0 && s != [] && s[0].Byte? {
      LineConserves(s[1..], room - 1);
      UsedFirst(s[0].c, Line(s[1..], room - 1));
    }
  }

  lemma {:induction false} BlockConserves(s: seq<Item>, n: nat)
    ensures Used(Block(s, n)) + Block(s, n).rest == s
    ensures |Block(s, n).bytes| <= n
    ensures Block(s, n).ending.Full? <==> |Block(s, n).bytes| == n
  {
    if n > 0 && s != [] && s[0].Byte? {
      BlockConserves(s[1..], n - 1);
      UsedFirst(s[0].c, Block(s[1..], n - 1));
    }
  }

  /** A call of the reader. */
  datatype Call = ReadLine(maxlen: nat) | ReadBlock(n: nat)

  function Answer(s: seq<Item>, call: Call): Taken {
    match call
    case ReadLine(maxlen) => Line(s, if maxlen == 0 then 0 else maxlen - 1)
    case ReadBlock(n) => Block(s, n)
  }

  /** What a mix of calls uses up, and what it leaves. */
  function Session(s: seq<Item>, calls: seq<Call>): (seq<Item>, seq<Item>)
    decreases |calls|
  {
    if calls == [] then ([], s)
    else
      var t := Answer(s, calls[0]);
      var (used, rest) := Session(t.rest, calls[1..]);
      (Used(t) + used, rest)
  }

  /** After any mix of calls, what was delivered followed by what is left is the stream. */
  lemma {:induction false} SessionsConserve(s: seq<Item>, calls: seq<Call>)
    ensures Session(s, calls).0 + Session(s, calls).1 == s
    decreases |calls|
  {
    if calls != [] {
      var t := Answer(s, calls[0]);
      match calls[0] {
        case ReadLine(maxlen) => LineConserves(s, if maxlen == 0 then 0 else maxlen - 1);
        case ReadBlock(n) => BlockConserves(s, n);
      }
      SessionsConserve(t.rest, calls[1..]);
      var (used, rest) := Session(t.rest, calls[1..]);
      assert (Used(t) + used) + rest == Used(t) + (used + rest);
    }
  }

  // ---------------------------------------------------------------- the reader

  const RIO_BUFSIZE: nat := 8192

  lemma NothingUnread(later: seq<Item>)
    ensures Bytes([]) + later == later
  {
  }

  /** The buffered descriptor: cnt unread bytes from ptr on. */
  class Reader {
    const fd: Source
    const buf: array<char>
    var cnt: int
    var ptr: nat

    constructor (fd: Source)
      requires Proper(fd.schedule)
      ensures Valid() && this.fd == fd && fresh(buf)
      ensures Stream() == Items(fd.schedule)
    {
      this.fd := fd;
      buf := new char[RIO_BUFSIZE];
      cnt, ptr := 0, 0;
    }

    ghost predicate Valid()
      reads this, fd
    {
      buf.Length == RIO_BUFSIZE && (cnt > 0 ==> ptr + cnt <= buf.Length) && Proper(fd.schedule)
    }

    /** Everything still to be delivered: the unread buffer, then what is still to arrive. */
    ghost function Stream(): seq<Item>
      requires Valid()
      reads this, fd, buf
    {
      Bytes(if cnt > 0 then buf[ptr..ptr + cnt] else []) + Items(fd.schedule)
    }

    /** The first half of rio_read: refill an empty buffer. 1 when there are bytes to take. */
    method Refill() returns (ret: int)
      requires Valid()
      modifies this, fd, buf
      ensures Valid() && -1 <= ret <= 1 && (ret > 0 <==> cnt > 0)
      ensures ret == 0 ==> old(Stream()) == [] == Stream()
      ensures ret < 0 ==> old(Stream()) == [Fault] + Stream()
      ensures ret > 0 ==> old(Stream()) == Stream()
    {
      hide Bytes, Items, Proper;
      while cnt <= 0
        invariant Valid() && Stream() == old(Stream())
        decreases |fd.schedule|, cnt <= 0
      {
        NothingUnread(Items(fd.schedule));
        var count, interrupted := fd.Read(buf);
        NothingUnread(Items(fd.schedule));
        cnt := count;
        if cnt < 0 {
          if !interrupted {
            return -1;
          }
        } else if cnt == 0 {
          return 0;
        } else {
          ptr := 0;
          assert buf[ptr..ptr + cnt] == buf[..count];
        }
      }
      return 1;
    }

    /** The second half of rio_read: min(n, cnt) unread bytes go to the user's buffer. */
    method TakeUnread(usr: array<char>, off: nat, n: nat) returns (k: nat)
      requires Valid() && cnt > 0 && usr != buf && n > 0 && off + n <= usr.Length
      modifies this, usr
      ensures Valid() && 0 < k <= n
      ensures old(Stream()) == Bytes(usr[off..off + k]) + Stream()
      ensures usr[..off] == old(usr[..off])
    {
      hide Bytes;
      hide Items;
      k := if cnt < n then cnt else n;
      ghost var unread := buf[ptr..ptr + cnt];
      MemCpy(usr, off, buf, ptr, k);
      ptr := ptr + k;
      cnt := cnt - k;
      assert usr[off..off + k] == unread[..k];
      assert (if cnt > 0 then buf[ptr..ptr + cnt] else []) == unread[k..];
      SplitBytes(unread, k);
      Assoc(Bytes(unread[..k]), Bytes(unread[k..]), Items(fd.schedule));
    }

    /** rio_read: up to n bytes to usr from off on. How many depends on the arrivals. */
    method RioRead(usr: array<char>, off: nat, n: nat) returns (ret: int)
      requires Valid() && usr != buf && n > 0 && off + n <= usr.Length
      modifies this, fd, buf, usr
      ensures Valid() && -1 <= ret <= n
      ensures ret == 0 ==> old(Stream()) == [] == Stream()
      ensures ret < 0 ==> old(Stream()) == [Fault] + Stream()
      ensures ret > 0 ==> old(Stream()) == Bytes(usr[off..off + ret]) + Stream()
      ensures usr[..off] == old(usr[..off])
    {
      hide Bytes, Items, Proper;
      ret := Refill();
      assert usr[..off] == old(usr[..off]);
      if ret > 0 {
        ret := TakeUnread(usr, off, n);
      }
    }

    /** rio_readlineb: the result and what is left depend on the stream alone. */
    method ReadLineB(usr: array<char>, maxlen: nat) returns (ret: int)
      requires Valid() && usr != buf && 1 <= maxlen <= usr.Length
      modifies this, fd, buf, usr
      ensures Valid()
      ensures var t := Line(old(Stream()), maxlen - 1);
              && Stream() == t.rest
              && if t.ending.Broken? then ret == -1
                 else ret == |t.bytes| && ret < maxlen && usr[..ret] == t.bytes &&
                      (usr[ret] == NUL || (ret == 0 && t.ending.EndOfInput?))
    {
      hide Line;
      hide Bytes;
      hide Items;
      var c := new char[1];
      var n := 1;
      ghost var whole := Line(Stream(), maxlen - 1);
      assert [] + whole.bytes == whole.bytes;
      LineBasics(Stream());
      while n < maxlen
        invariant Valid() && 1 <= n <= maxlen && fresh(c) && c.Length == 1
        invariant whole == With(usr[..n - 1], Line(Stream(), maxlen - n))
      {
        ghost var before, room := Stream(), maxlen - n;
        ghost var stored := usr[..n - 1];
        var rc := RioRead(c, 0, 1);
        if rc == 1 {
          OneByte(c[0..1]);
          LineStep(stored, c[0], Stream(), room);
          usr[n - 1] := c[0];
          assert usr[..n] == stored + [c[0]];
          if c[0] == NEWLINE {
            n := n + 1;
            break;
          }
        } else if rc == 0 {
          LineBasics(before);
          assert stored + [] == stored;
          if n == 1 {
            return 0;
          }
          break;
        } else {
          LineFault(stored, Stream(), room);
          return -1;
        }
        n := n + 1;
      }
      LineBasics(Stream());
      usr[n - 1] := NUL;
      return n - 1;
    }

    /** rio_readnb: likewise for n bytes. */
    method ReadNB(usr: array<char>, n: nat) returns (ret: int)
      requires Valid() && usr != buf && n <= usr.Length
      modifies this, fd, buf, usr
      ensures Valid()
      ensures var t := Block(old(Stream()), n);
              && Stream() == t.rest
              && if t.ending.Broken? then ret == -1 else ret == |t.bytes| && ret <= n && usr[..ret] == t.bytes
    {
      hide Block;
      hide Bytes;
      hide Items;
      var nleft := n;
      ghost var whole := Block(Stream(), n);
      assert [] + whole.bytes == whole.bytes;
      LineBasics(Stream());
      while nleft > 0
        invariant Valid() && 0 <= nleft <= n
        invariant whole == With(usr[..n - nleft], Block(Stream(), nleft))
      {
        ghost var before, done := Stream(), n - nleft;
        ghost var stored := usr[..done];
        var nread := RioRead(usr, n - nleft, nleft);
        if nread < 0 {
          LineFault(stored, Stream(), nleft);
          return -1;
        } else if nread == 0 {
          LineBasics(before);
          assert stored + [] == stored;
          break;
        }
        BlockStep(stored, usr[done..done + nread], Stream(), nleft);
        assert usr[..done + nread] == stored + usr[done..done + nread];
        nleft := nleft - nread;
      }
      LineBasics(Stream());
      return n - nleft;
    }
  }

  lemma OneByte(s: seq<char>)
    requires |s| == 1
    ensures Bytes(s) == [Byte(s[0])]
  {
    assert s[1..] == [];
  }

  lemma LineBasics(s: seq<Item>)
    ensures Line(s, 0) == Taken([], Full, s) && Block(s, 0) == Taken([], Full, s)
    ensures forall room :: room > 0 ==> Line([], room) == Taken([], EndOfInput, []) && Block([], room) == Taken([], EndOfInput, [])
  {
  }

  lemma Assoc(a: seq<Item>, b: seq<Item>, c: seq<Item>)
    ensures (a + b) + c == a + (b + c)
  {
  }

  lemma SplitBytes(s: seq<char>, k: nat)
    requires k <= |s|
    ensures Bytes(s) == Bytes(s[..k]) + Bytes(s[k..])
  {
    assert s == s[..k] + s[k..];
    BytesConcat(s[..k], s[k..]);
  }

  method MemCpy(dst: array<char>, to: nat, src: array<char>, from: nat, n: nat)
    requires dst != src && to + n <= dst.Length && from + n <= src.Length
    modifies dst
    ensures dst[to..to + n] == src[from..from + n]
    ensures dst[..to] == old(dst[..to]) && dst[to + n..] == old(dst[to + n..])
  {
    for i := 0 to n
      invariant forall j :: to <= j < to + i ==> dst[j] == src[from + (j - to)]
      invariant forall j :: 0 <= j < to || to + i <= j < dst.Length ==> dst[j] == old(dst[j])
    {
      dst[to + i] := src[from + i];
    }
  }

  // ---------------------------------------------------------------- a mix of calls

  /** What each of the calls takes. */
  function Answers(s: seq<Item>, calls: seq<Call>): (ts: seq<Taken>)
    ensures |ts| == |calls|
    decreases |calls|
  {
    if calls == [] then [] else [Answer(s, calls[0])] + Answers(Answer(s, calls[0]).rest, calls[1..])
  }

  lemma {:induction false} CallsAppend(s: seq<Item>, calls: seq<Call>, call: Call)
    ensures Session(s, calls + [call]).1 == Answer(Session(s, calls).1, call).rest
    ensures Answers(s, calls + [call]) == Answers(s, calls) + [Answer(Session(s, calls).1, call)]
    decreases |calls|
  {
    hide Answer;
    if calls == [] {
      assert [] + [call] == [call] && [call][1..] == [];
    } else {
      CallsAppend(Answer(s, calls[0]).rest, calls[1..], call);
      assert (calls + [call])[1..] == calls[1..] + [call];
    }
  }

  /** What a caller sees of a call: the count returned and the bytes stored. */
  datatype Seen = Seen(ret: int, stored: string)

  function Shown(t: Taken): Seen {
    if t.ending.Broken? then Seen(-1, "") else Seen(|t.bytes|, t.bytes)
  }

  function ShownAll(ts: seq<Taken>): (r: seq<Seen>)
    ensures |r| == |ts|
  {
    seq(|ts|, i requires 0 <= i < |ts| => Shown(ts[i]))
  }

  method RunCall(rp: Reader, call: Call) returns (seen: Seen)
    requires rp.Valid() && (call.ReadLine? ==> call.maxlen >= 1)
    modifies rp, rp.fd, rp.buf
    ensures rp.Valid()
    ensures var t := Answer(old(rp.Stream()), call); rp.Stream() == t.rest && seen == Shown(t)
  {
    hide Line, Block;
    var size := if call.ReadLine? then call.maxlen else call.n;
    var usr := new char[size];
    var ret;
    if call.ReadLine? {
      ret := rp.ReadLineB(usr, call.maxlen);
    } else {
      ret := rp.ReadNB(usr, call.n);
    }
    seen := if ret < 0 then Seen(-1, "") else Seen(ret, usr[..ret]);
  }

  /** Any mix of calls on one reader: each result is a function of the stream alone, and what they
      took followed by what is left is the stream. */
  method RunCalls(rp: Reader, calls: seq<Call>) returns (seen: seq<Seen>)
    requires rp.Valid() && forall i :: 0 <= i < |calls| && calls[i].ReadLine? ==> calls[i].maxlen >= 1
    modifies rp, rp.fd, rp.buf
    ensures rp.Valid() && rp.Stream() == Session(old(rp.Stream()), calls).1
    ensures seen == ShownAll(Answers(old(rp.Stream()), calls))
    ensures Session(old(rp.Stream()), calls).0 + rp.Stream() == old(rp.Stream())
  {
    ghost var s := rp.Stream();
    SessionsConserve(s, calls);
    NoCalls(s, calls);
    hide *;
    seen := [];
    for i := 0 to |calls|
      invariant rp.Valid() && rp.Stream() == Session(s, calls[..i]).1
      invariant seen == ShownAll(Answers(s, calls[..i]))
    {
      OneMoreCall(s, calls, i);
      var one := RunCall(rp, calls[i]);
      seen := seen + [one];
    }
    assert calls[..|calls|] == calls;
  }

  lemma NoCalls(s: seq<Item>, calls: seq<Call>)
    ensures Session(s, calls[..0]).1 == s && ShownAll(Answers(s, calls[..0])) == []
  {
  }

  lemma OneMoreCall(s: seq<Item>, calls: seq<Call>, i: nat)
    requires i < |calls|
    ensures var t := Answer(Session(s, calls[..i]).1, calls[i]);
            && Session(s, calls[..i + 1]).1 == t.rest
            && ShownAll(Answers(s, calls[..i + 1])) == ShownAll(Answers(s, calls[..i])) + [Shown(t)]
  {
    hide Session, Answers, Answer, Shown;
    CallsAppend(s, calls[..i], calls[i]);
    assert calls[..i + 1] == calls[..i] + [calls[i]];
  }

  // ---------------------------------------------------------------- the writer

  /** What a call of write may meet: an interruption, an error, room for some bytes, or none taken without
      an error, when errno holds what an earlier call left in it. */
  datatype Room = Busy | Refused | Takes(bytes: nat) | Nothing(errnoIsEINTR: bool)

  /** A descriptor to write to. When the schedule is used up it takes everything. */
  class Sink {
    var schedule: seq<Room>
    var written: seq<char>

    constructor (rooms: seq<Room>)
      ensures schedule == rooms && written == []
    {
      schedule, written := rooms, [];
    }

    /** One call of write. */
    method Write(data: seq<char>) returns (count: int, interrupted: bool)
      requires data != []
      modifies this
      ensures -1 <= count <= |data| && (interrupted ==> count <= 0)
      ensures written == old(written) + data[..if count < 0 then 0 else count]
      ensures |schedule| <= |old(schedule)| && (count <= 0 ==> |schedule| < |old(schedule)|)
      ensures old(NeverRefuses()) ==> NeverRefuses() && (count <= 0 ==> interrupted)
    {
      if schedule == [] {
        written := written + data;
        return |data|, false;
      }
      var first := schedule[0];
      schedule := schedule[1..];
      match first {
        case Busy => return -1, true;
        case Refused => return -1, false;
        case Nothing(stale) => return 0, stale;
        case Takes(k) =>
          count := if k == 0 then 1 else if k < |data| then k else |data|;
          written := written + data[..count];
          return count, false;
      }
    }

    predicate NeverRefuses()
      reads this
    {
      forall i :: 0 <= i < |schedule| ==> !schedule[i].Refused? && schedule[i] != Nothing(false)
    }
  }

  /** rio_writen: all of the data, in order, however little each write takes; or -1 after a prefix,
      which only a write that is refused or takes nothing can cause. */
  method WriteN(fd: Sink, data: seq<char>) returns (ret: int)
    modifies fd
    ensures ret == |data| || ret == -1
    ensures ret >= 0 ==> fd.written == old(fd.written) + data
    ensures ret < 0 ==> exists k :: 0 <= k < |data| && fd.written == old(fd.written) + data[..k]
    ensures old(fd.NeverRefuses()) ==> ret == |data| && fd.NeverRefuses()
  {
    var nleft := |data|;
    while nleft > 0
      invariant 0 <= nleft <= |data| && fd.written == old(fd.written) + data[..|data| - nleft]
      invariant old(fd.NeverRefuses()) ==> fd.NeverRefuses()
      decreases nleft + |fd.schedule|
    {
      ghost var done := |data| - nleft;
      var nwritten, interrupted := fd.Write(data[|data| - nleft..]);
      if nwritten <= 0 {
        if interrupted {
          nwritten := 0;
        } else {
          assert fd.written == old(fd.written) + data[..done];
          return -1;
        }
      }
      assert data[..done] + data[done..][..nwritten] == data[..done + nwritten];
      nleft := nleft - nwritten;
    }
    return |data|;
  }
}
