/** The per-connection protocol: registration, line/raw mode switching and the
    byte accounting of a file upload. The pure step functions below say what one
    incoming message or raw chunk does to a session; the `Connection` class and
    the factory methods in module Server update the same state in place and are
    proved to follow them. */
module Protocol {
  import opened Wrappers
  import opened Text
  import Queue

  newtype byte = x: int | 0 <= x < 256

  /** `protocol.state`: 'New' until the first message, then 'Reg'. */
  datatype RegState = New | Reg

  /** The LineReceiver mode: framed control messages or raw upload bytes. */
  datatype Mode = Line | Raw

  /** An unpickled control message: one optional field per dictionary key the
      server reads (an absent key is None). */
  datatype Message = Message(
    name: Option<string>,
    macId: Option<string>,
    func: Option<string>,
    filename: Option<string>,
    size: Option<int>)

  /** Python exceptions that escape a handler. */
  datatype Fault = MissingKey(key: string) | ZeroDivision | IndexOutOfRange

  /** What the server pickles back to the client. */
  datatype Reply = Progress(percent: int) | QueueInfo(info: Queue.Info) | Position(text: string)

  /** What one step does besides changing the session, in the order it does it. */
  datatype Effect =
    | Send(reply: Reply)
    | CreateUser(name: string, macId: string)  // catalog call, an external collaborator
    | StageFile(path: string, data: seq<byte>)  // write of the staging copy
    | FileReceived                              // `factory.onFile(self)`
    | Abort(fault: Fault)                       // an exception escapes the handler (on a
                                                // connection, the transport then closes it)

  /** The protocol fields of one connection. `fname` and the staging path start
      as None in Python and are modelled as empty strings. */
  datatype Session = Session(
    state: RegState,
    mode: Mode,
    sizeTotal: int,
    oldPercent: int,
    buffer: seq<byte>,
    fname: string,
    tempFileName: string)

  const Initial := Session(New, Line, 0, 0, [], "", "")

  /** Raw mode is only ever entered by a registered session. */
  predicate WellFormed(s: Session)
  {
    s.mode == Raw ==> s.state == Reg
  }

  /** Python 2 integer `/`, which floors (also for a negative divisor). */
  function FloorDiv(a: int, b: int): (q: int)
    requires b != 0
    ensures b > 0 ==> q * b <= a < q * b + b
    ensures b < 0 ==> q * b + b < a <= q * b
  {
    if b > 0 then a / b else (-a) / (-b)
  }

  /** `buffer.len * 100 / sizeTotal`. */
  function Percent(received: nat, sizeTotal: int): int
    requires sizeTotal != 0
  {
    FloorDiv(received * 100, sizeTotal)
  }

  /** With a positive declared size, the integer percentage reaches 100 exactly
      when the whole declared size has arrived. */
  lemma PercentComplete(received: nat, sizeTotal: int)
    requires sizeTotal > 0
    ensures Percent(received, sizeTotal) >= 100 <==> received >= sizeTotal
  {
    var q := Percent(received, sizeTotal);
    FloorAtLeast(received * 100, sizeTotal, q, 100);
    assert received * 100 >= 100 * sizeTotal <==> received >= sizeTotal;
  }

  /** For a positive divisor, the floor quotient `q` of `a` is at least `k`
      exactly when `a` is at least `k` times the divisor. */
  lemma FloorAtLeast(a: int, b: int, q: int, k: int)
    requires b > 0 && q * b <= a < q * b + b
    ensures q >= k <==> a >= k * b
  {
    if q >= k {
      MulNonNegative(q - k, b);
      assert (q - k) * b == q * b - k * b;
    } else {
      MulNonNegative(k - 1 - q, b);
      assert (k - 1 - q) * b == k * b - q * b - b;
    }
  }

  lemma MulNonNegative(x: int, y: int)
    requires x >= 0 && y >= 0
    ensures x * y >= 0
  {
  }

  /** With a negative declared size the percentage never becomes positive, so
      such an upload never completes. */
  lemma PercentNegativeSize(received: nat, sizeTotal: int)
    requires sizeTotal < 0
    ensures Percent(received, sizeTotal) <= 0
  {
  }

  /** `factory.register(protocol, data)`: read the client's name and hardware id,
      create its catalog record, mark the session registered. A missing key raises
      before anything changes. */
  function RegisterStep(s: Session, msg: Message): (r: (Session, seq<Effect>))
    ensures r.0 == s.(state := r.0.state)
    ensures r.0.state == Reg <==> s.state == Reg || (msg.name.Some? && msg.macId.Some?)
    ensures msg.name.Some? && msg.macId.Some? ==> r.1 == [CreateUser(msg.name.value, msg.macId.value)]
    ensures msg.name.None? || msg.macId.None? ==> r.0 == s && |r.1| == 1 && r.1[0].Abort?
  {
    if msg.name.None? then (s, [Abort(MissingKey("name"))])
    else if msg.macId.None? then (s, [Abort(MissingKey("mac_id"))])
    else (s.(state := Reg), [CreateUser(msg.name.value, msg.macId.value)])
  }

  /** `factory.process(protocol, data)` for a registered session: an announce
      (`func == 'file'`) records the file's basename and declared size, switches to
      raw mode and installs an empty buffer; a query replies with the queue's info;
      any other `func` does nothing. A missing key raises; `fname` is assigned
      before `size` is read. */
  function ProcessStep(s: Session, msg: Message, info: Queue.Info): (r: (Session, seq<Effect>))
    requires s.mode == Line
    ensures r.0.state == s.state
    ensures r.0.mode == Raw <==> msg.func == Some("file") && msg.filename.Some? && msg.size.Some?
    ensures r.0.mode == Raw ==>
      && r.0 == s.(fname := r.0.fname, sizeTotal := msg.size.value, mode := Raw, buffer := [])
      && r.0.fname == Basename(msg.filename.value)
      && r.1 == []
    ensures msg.func == Some("file") && msg.filename.None? ==> r == (s, [Abort(MissingKey("filename"))])
    ensures msg.func == Some("file") && msg.filename.Some? && msg.size.None? ==>
      r == (s.(fname := Basename(msg.filename.value)), [Abort(MissingKey("size"))])
    ensures msg.func == Some("query") ==> r == (s, [Send(QueueInfo(info))])
    ensures msg.func.Some? && msg.func.value != "file" && msg.func.value != "query" ==> r == (s, [])
    ensures msg.func.None? ==> r == (s, [Abort(MissingKey("func"))])
  {
    match msg.func
    case None => (s, [Abort(MissingKey("func"))])
    case Some(f) =>
      if f == "file" then
        if msg.filename.None? then (s, [Abort(MissingKey("filename"))])
        else
          var name := Basename(msg.filename.value);
          if msg.size.None? then (s.(fname := name), [Abort(MissingKey("size"))])
          else (s.(fname := name, sizeTotal := msg.size.value, mode := Raw, buffer := []), [])
      else if f == "query" then (s, [Send(QueueInfo(info))])
      else (s, [])
  }

  /** `factory.onData(protocol, data)`: the first message goes to registration,
      every later one to processing. */
  function OnDataStep(s: Session, msg: Message, info: Queue.Info): (r: (Session, seq<Effect>))
    requires s.mode == Line
    ensures s.state == New ==> r == RegisterStep(s, msg)
    ensures s.state == Reg ==> r == ProcessStep(s, msg, info)
    ensures s.state == Reg ==> r.0.state == Reg
    ensures s.state == New ==> r.0.mode == Line && (r.0.state == Reg <==> msg.name.Some? && msg.macId.Some?)
    ensures s.state == New ==> forall e :: e in r.1 ==> !e.Send?
    ensures WellFormed(r.0)
  {
    if s.state == New then RegisterStep(s, msg) else ProcessStep(s, msg, info)
  }

  /** `bufferFile(chunk)`: append, recompute the percentage, stage the file once
      complete, send one progress reply. A zero declared size raises before anything
      is sent. */
  function BufferStep(s: Session, tempDir: string, chunk: seq<byte>): (r: (Session, seq<Effect>))
    ensures r.0 == s.(buffer := s.buffer + chunk, oldPercent := r.0.oldPercent, tempFileName := r.0.tempFileName)
    ensures s.sizeTotal == 0 ==> r == (s.(buffer := s.buffer + chunk), [Abort(ZeroDivision)])
    ensures s.sizeTotal != 0 ==>
      && r.0.oldPercent == Percent(|r.0.buffer|, s.sizeTotal)
      && |r.1| > 0 && r.1[|r.1| - 1] == Send(Progress(r.0.oldPercent + 1))
      && (|r.1| == 2 <==> r.0.oldPercent >= 100)
      && |r.1| <= 2
    ensures |r.1| == 2 ==>
      && r.0.tempFileName == PathJoin(tempDir, s.fname)
      && r.1[0] == StageFile(r.0.tempFileName, r.0.buffer)
    ensures |r.1| < 2 ==> r.0.tempFileName == s.tempFileName
  {
    var buffer := s.buffer + chunk;
    if s.sizeTotal == 0 then
      (s.(buffer := buffer), [Abort(ZeroDivision)])
    else
      var p := Percent(|buffer|, s.sizeTotal);
      var s1 := s.(buffer := buffer, oldPercent := p);
      if p >= 100 then
        var path := PathJoin(tempDir, s.fname);
        (s1.(tempFileName := path), [StageFile(path, buffer), Send(Progress(p + 1))])
      else
        (s1, [Send(Progress(p + 1))])
  }

  /** `rawDataReceived(chunk)`: buffer the chunk; once the percentage reaches 100,
      switch back to line mode and hand the file to the factory. */
  function ChunkStep(s: Session, tempDir: string, chunk: seq<byte>): (r: (Session, seq<Effect>))
    requires s.mode == Raw
    ensures r.0.buffer == s.buffer + chunk
    ensures r.0.state == s.state && r.0.sizeTotal == s.sizeTotal && r.0.fname == s.fname
    ensures s.sizeTotal == 0 ==> r.0.mode == Raw && r.1 == [Abort(ZeroDivision)]
    ensures s.sizeTotal != 0 ==> r.0.oldPercent == Percent(|r.0.buffer|, s.sizeTotal)
    ensures s.sizeTotal != 0 ==> Progresses(r.1) == [r.0.oldPercent + 1]
    ensures s.sizeTotal > 0 ==> (r.0.mode == Line <==> |r.0.buffer| >= s.sizeTotal)
    ensures s.sizeTotal > 0 && |r.0.buffer| >= s.sizeTotal ==>
      Milestones(r.1) == [StageFile(PathJoin(tempDir, s.fname), r.0.buffer), FileReceived]
    // On completion: stage under temp/fname, reply, and only then hand the file over.
    ensures s.sizeTotal > 0 && |r.0.buffer| >= s.sizeTotal ==>
      && r.0.tempFileName == PathJoin(tempDir, s.fname)
      && r.1 == [StageFile(PathJoin(tempDir, s.fname), r.0.buffer), Send(Progress(r.0.oldPercent + 1)), FileReceived]
    ensures s.sizeTotal > 0 && |r.0.buffer| < s.sizeTotal ==> Milestones(r.1) == []
    ensures s.sizeTotal != 0 && r.0.mode == Raw ==> r.0 == s.(buffer := r.0.buffer, oldPercent := r.0.oldPercent)
    ensures s.sizeTotal < 0 ==> r.0.mode == Raw && Milestones(r.1) == []
  {
    var (s1, effects) := BufferStep(s, tempDir, chunk);
    if s.sizeTotal == 0 then (s1, effects)
    else
      MilestonesAppend(effects, [FileReceived]);
      var r := if s1.oldPercent < 100 then (s1, effects)
               else (s1.(mode := Line), effects + [FileReceived]);
      if s.sizeTotal > 0 then PercentComplete(|s1.buffer|, s.sizeTotal); r
      else PercentNegativeSize(|s1.buffer|, s.sizeTotal); r
  }

  /** The percentages carried by the progress replies among `effects`. */
  function Progresses(effects: seq<Effect>): seq<int>
  {
    if effects == [] then []
    else
      var rest := Progresses(effects[1..]);
      if effects[0].Send? && effects[0].reply.Progress? then [effects[0].reply.percent] + rest
      else rest
  }

  /** `effects` without its progress replies. */
  function Milestones(effects: seq<Effect>): seq<Effect>
  {
    if effects == [] then []
    else
      var rest := Milestones(effects[1..]);
      if effects[0].Send? && effects[0].reply.Progress? then rest
      else [effects[0]] + rest
  }

  lemma {:induction false} MilestonesAppend(a: seq<Effect>, b: seq<Effect>)
    ensures Milestones(a + b) == Milestones(a) + Milestones(b)
    ensures Progresses(a + b) == Progresses(a) + Progresses(b)
    decreases |a|
  {
    if a != [] {
      assert (a + b)[1..] == a[1..] + b;
      MilestonesAppend(a[1..], b);
    } else {
      assert a + b == b;
    }
  }

  /** Raw chunks delivered one after another while the session stays in raw mode;
      a zero-size upload aborts the connection at its first chunk. */
  function Feed(s: Session, tempDir: string, chunks: seq<seq<byte>>): (Session, seq<Effect>)
    decreases |chunks|
  {
    if chunks == [] || s.mode != Raw then (s, [])
    else
      var (s1, e1) := ChunkStep(s, tempDir, chunks[0]);
      if s.sizeTotal == 0 then (s1, e1)
      else
        var (s2, e2) := Feed(s1, tempDir, chunks[1..]);
        (s2, e1 + e2)
  }

  /** All the bytes of a list of chunks, in order. */
  function Flatten(chunks: seq<seq<byte>>): seq<byte>
  {
    if chunks == [] then [] else chunks[0] + Flatten(chunks[1..])
  }

  /** The session after an upload of `data` that started from `s`. */
  function Completed(s: Session, tempDir: string, data: seq<byte>): Session
  {
    s.(mode := Line, buffer := s.buffer + data, oldPercent := 100,
       tempFileName := PathJoin(tempDir, s.fname))
  }

  /** Exactly the declared number of bytes, in any split into non-empty chunks:
      the buffer ends as all those bytes, the session is back in line mode, the
      staging file is written once with those bytes and the factory is told once;
      every chunk gets exactly one progress reply. */
  lemma {:induction false} UploadExact(s: Session, tempDir: string, chunks: seq<seq<byte>>)
    requires s.mode == Raw && s.sizeTotal > 0
    requires chunks != [] && forall i :: 0 <= i < |chunks| ==> chunks[i] != []
    requires |s.buffer| + |Flatten(chunks)| == s.sizeTotal
    ensures Feed(s, tempDir, chunks).0 == Completed(s, tempDir, Flatten(chunks))
    ensures Milestones(Feed(s, tempDir, chunks).1)
         == [StageFile(PathJoin(tempDir, s.fname), s.buffer + Flatten(chunks)), FileReceived]
    ensures |Progresses(Feed(s, tempDir, chunks).1)| == |chunks|
    decreases |chunks|
  {
    var r1 := ChunkStep(s, tempDir, chunks[0]);
    var rest := chunks[1..];
    FeedFirst(s, tempDir, chunks);
    assert Flatten(chunks) == chunks[0] + Flatten(rest);
    if rest == [] {
      LastChunk(s, tempDir, chunks[0]);
      assert r1.1 + [] == r1.1;
    } else {
      TailChunks(chunks);
      MidChunk(s, tempDir, chunks[0], |Flatten(rest)|);
      UploadExact(r1.0, tempDir, rest);
      var r2 := Feed(r1.0, tempDir, rest);
      MilestonesAppend(r1.1, r2.1);
      assert r1.0.buffer + Flatten(rest) == s.buffer + Flatten(chunks);
    }
  }

  /** A chunk that leaves some of the declared size still to come keeps the session
      in raw mode, changes only the buffer and the percentage, and sends one
      progress reply and nothing else. */
  lemma MidChunk(s: Session, tempDir: string, chunk: seq<byte>, more: nat)
    requires s.mode == Raw && s.sizeTotal > 0 && more > 0
    requires |s.buffer| + |chunk| + more == s.sizeTotal
    ensures var r := ChunkStep(s, tempDir, chunk);
      && r.0 == s.(buffer := s.buffer + chunk, oldPercent := r.0.oldPercent)
      && Milestones(r.1) == []
      && |Progresses(r.1)| == 1
  {
  }

  /** The chunks after the first are all non-empty and, if there are any, carry
      at least one byte. */
  lemma TailChunks(chunks: seq<seq<byte>>)
    requires chunks != [] && forall i :: 0 <= i < |chunks| ==> chunks[i] != []
    ensures forall i :: 0 <= i < |chunks| - 1 ==> chunks[1..][i] != []
    ensures |chunks| > 1 ==> |Flatten(chunks[1..])| > 0
  {
    if |chunks| > 1 {
      NonEmptyFlatten(chunks[1..]);
    }
  }

  /** Feeding a non-empty list of chunks to a raw session with a non-zero size is
      the first chunk's step followed by feeding the rest. */
  lemma FeedFirst(s: Session, tempDir: string, chunks: seq<seq<byte>>)
    requires s.mode == Raw && s.sizeTotal != 0 && chunks != []
    ensures
      var r1 := ChunkStep(s, tempDir, chunks[0]);
      var r2 := Feed(r1.0, tempDir, chunks[1..]);
      Feed(s, tempDir, chunks) == (r2.0, r1.1 + r2.1)
  {
  }

  /** The chunk that brings the buffer to exactly the declared size completes it. */
  lemma LastChunk(s: Session, tempDir: string, chunk: seq<byte>)
    requires s.mode == Raw && s.sizeTotal > 0
    requires |s.buffer| + |chunk| == s.sizeTotal
    ensures ChunkStep(s, tempDir, chunk).0 == Completed(s, tempDir, chunk)
    ensures Milestones(ChunkStep(s, tempDir, chunk).1)
         == [StageFile(PathJoin(tempDir, s.fname), s.buffer + chunk), FileReceived]
    ensures |Progresses(ChunkStep(s, tempDir, chunk).1)| == 1
  {
    var r := ChunkStep(s, tempDir, chunk);
    FloorAtLeast(|r.0.buffer| * 100, s.sizeTotal, r.0.oldPercent, 101);
  }

  lemma NonEmptyFlatten(chunks: seq<seq<byte>>)
    requires chunks != [] && chunks[0] != []
    ensures |Flatten(chunks)| > 0
  {
  }

  /** How an upload is split into chunks does not matter: two splits of the same
      bytes end in the same session and the same staging write and completion. */
  lemma ChunkingIrrelevant(s: Session, tempDir: string, a: seq<seq<byte>>, b: seq<seq<byte>>)
    requires s.mode == Raw && s.sizeTotal > 0
    requires a != [] && forall i :: 0 <= i < |a| ==> a[i] != []
    requires b != [] && forall i :: 0 <= i < |b| ==> b[i] != []
    requires Flatten(a) == Flatten(b)
    requires |s.buffer| + |Flatten(a)| == s.sizeTotal
    ensures Feed(s, tempDir, a).0 == Feed(s, tempDir, b).0
    ensures Milestones(Feed(s, tempDir, a).1) == Milestones(Feed(s, tempDir, b).1)
  {
    UploadExact(s, tempDir, a);
    UploadExact(s, tempDir, b);
  }

  /** Declared size 1000: after 250 bytes the reply carries 26 (the percentage
      plus one); the chunk bringing the total to 1000 stages the file, replies 101
      and completes. */
  lemma ProgressScenario(tempDir: string, fname: string, quarter: seq<byte>, rest: seq<byte>)
    requires |quarter| == 250 && |rest| == 750
    ensures
      var s := Session(Reg, Raw, 1000, 0, [], fname, "");
      var r1 := ChunkStep(s, tempDir, quarter);
      var r2 := ChunkStep(r1.0, tempDir, rest);
      && r1.1 == [Send(Progress(26))] && r1.0.mode == Raw
      && r2.1 == [StageFile(PathJoin(tempDir, fname), quarter + rest), Send(Progress(101)), FileReceived]
      && r2.0.mode == Line
  {
    var s := Session(Reg, Raw, 1000, 0, [], fname, "");
    assert Percent(250, 1000) == 25;
    assert Percent(1000, 1000) == 100;
    var r1 := ChunkStep(s, tempDir, quarter);
    assert r1.0.buffer == quarter;
  }

  /** One client connection (`NukeBoxProtocol`). `tempDir` is the factory's staging
      directory and `ip` the server address seen on this connection; both are
      fixed for its lifetime. */
  class Connection {
    const tempDir: string
    const ip: string
    var state: RegState
    var mode: Mode
    var sizeTotal: int
    var oldPercent: int
    var buffer: seq<byte>
    var fname: string
    var tempFileName: string

    function Snapshot(): Session
      reads this
    {
      Session(state, mode, sizeTotal, oldPercent, buffer, fname, tempFileName)
    }

    constructor (tempDir: string, ip: string)
      ensures Snapshot() == Initial
      ensures this.tempDir == tempDir && this.ip == ip
    {
      this.tempDir := tempDir;
      this.ip := ip;
      state := New;
      mode := Line;
      sizeTotal := 0;
      oldPercent := 0;
      buffer := [];
      fname := "";
      tempFileName := "";
    }

    /** `rawDataReceived(data)`. */
    method RawDataReceived(chunk: seq<byte>) returns (effects: seq<Effect>)
      requires mode == Raw
      modifies this
      ensures (Snapshot(), effects) == ChunkStep(old(Snapshot()), tempDir, chunk)
    {
      effects := BufferFile(chunk);
      if sizeTotal == 0 {
        return;
      }
      if oldPercent < 100 {
        return;
      }
      mode := Line;
      effects := effects + [FileReceived];
    }

    /** `bufferFile(chunk)`. */
    method BufferFile(chunk: seq<byte>) returns (effects: seq<Effect>)
      modifies this
      ensures (Snapshot(), effects) == BufferStep(old(Snapshot()), tempDir, chunk)
    {
      buffer := buffer + chunk;
      if sizeTotal == 0 {
        effects := [Abort(ZeroDivision)];
        return;
      }
      var currentPercent := Percent(|buffer|, sizeTotal);
      if oldPercent != currentPercent {
        oldPercent := currentPercent;
      }
      if currentPercent >= 100 {
        tempFileName := PathJoin(tempDir, fname);
        effects := [StageFile(tempFileName, buffer), Send(Progress(currentPercent + 1))];
      } else {
        effects := [Send(Progress(currentPercent + 1))];
      }
    }
  }
}
