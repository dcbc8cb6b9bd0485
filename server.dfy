/** The server side of ingest and playback: the factory that owns the queue and
    routes each connection's messages, the per-upload `NewFile` that files a
    received track and queues it, and one iteration of the playback loop. */
module Server {
  import opened Wrappers
  import opened Text
  import Queue
  import opened Protocol

  /** The characters the pattern `[\w\-_\.]` keeps on a Python 2 byte string:
      ASCII letters and digits, '_', '-' and '.'. */
  predicate IsAllowed(c: char)
  {
    ('a' <= c <= 'z') || ('A' <= c <= 'Z') || ('0' <= c <= '9') || c == '_' || c == '-' || c == '.'
  }

  predicate AllAllowed(s: string)
  {
    forall i :: 0 <= i < |s| ==> IsAllowed(s[i])
  }

  /** `re.sub('[^\w\-_\.]', '-', s)`: every character outside the allowed set
      becomes '-', in place. */
  function Sanitize(s: string): (r: string)
    ensures |r| == |s|
    ensures forall i :: 0 <= i < |s| ==> r[i] == (if IsAllowed(s[i]) then s[i] else '-')
    ensures AllAllowed(r)
    ensures '/' !in r
  {
    if s == [] then [] else [if IsAllowed(s[0]) then s[0] else '-'] + Sanitize(s[1..])
  }

  /** A string made only of allowed characters is left as it is; in particular
      sanitising twice is the same as sanitising once. */
  lemma {:induction false} SanitizeIdempotent(s: string)
    ensures AllAllowed(s) ==> Sanitize(s) == s
    ensures Sanitize(Sanitize(s)) == Sanitize(s)
  {
    if AllAllowed(s) {
      assert forall i :: 0 <= i < |s| ==> Sanitize(s)[i] == s[i];
    }
    var t := Sanitize(s);
    assert forall i :: 0 <= i < |t| ==> Sanitize(t)[i] == t[i];
  }

  /** `os.path.join(dir, name + ext)` with the sanitised name: a path under `dir`
      whose file name is the sanitised name followed by the extension. */
  function SanitizedPath(dir: string, name: string, ext: string): (p: string)
    requires ext != [] && '/' !in ext
    ensures p == DirPrefix(dir) + Sanitize(name) + ext
    ensures Basename(p) == Sanitize(name) + ext
    ensures |dir| <= |p| && p[..|dir|] == dir
  {
    var file := Sanitize(name) + ext;
    assert '/' !in file;
    JoinPlainName(dir, file);
    PathJoin(dir, file)
  }

  /** Where an upload is moved: `os.path.join(self.factory.dir, track + '.mp3')`. */
  function DestinationPath(dir: string, track: string): string
  {
    SanitizedPath(dir, track, ".mp3")
  }

  /** Where embedded cover art is written:
      `os.path.join(self.factory.art_dir, album + '.jpeg')`. */
  function ArtFile(artDir: string, album: string): string
  {
    SanitizedPath(artDir, album, ".jpeg")
  }

  /** `'http://{}:8888/'.format(ip)`: the root of the cover-art web server. */
  function BaseUrl(ip: string): string
  {
    "http://" + ip + ":8888/"
  }

  /** The URL stored as a track's art once its embedded cover has been written. */
  function ArtUrl(ip: string, album: string): string
  {
    BaseUrl(ip) + Sanitize(album) + ".jpeg"
  }

  /** The art server publishes the art directory at its root, so the URL handed to
      clients names exactly the file written into that directory. */
  lemma ArtUrlNamesArtFile(ip: string, artDir: string, album: string)
    ensures Basename(ArtUrl(ip, album)) == Basename(ArtFile(artDir, album))
    ensures ArtUrl(ip, album)[..|BaseUrl(ip)|] == BaseUrl(ip)
  {
    var base := BaseUrl(ip);
    var name := Sanitize(album) + ".jpeg";
    assert '/' !in name;
    assert base[|base| - 1] == '/';
    JoinBasename(base, name);
    assert ArtUrl(ip, album) == base + name;
  }

  const PositionPrefix := "\nPosition: "

  /** `'Track {}\nPosition: {}'.format(track, n)`. */
  function PositionText(track: string, n: nat): string
  {
    "Track " + track + PositionPrefix + NatToString(n)
  }

  /** The position reply names the track and ends in the decimal digits of `n`,
      which read back as `n`. */
  lemma PositionNumber(track: string, n: nat)
    ensures var t := PositionText(track, n);
      var k := |"Track " + track + PositionPrefix|;
      && k <= |t|
      && t[6..6 + |track|] == track
      && (forall i :: k <= i < |t| ==> IsDigit(t[i]))
      && DecimalValue(t[k..]) == n
  {
    var t := PositionText(track, n);
    var k := |"Track " + track + PositionPrefix|;
    assert t[k..] == NatToString(n);
    assert t[6..6 + |track|] == track;
    DecimalRoundTrip(n);
  }

  /** The `file_data` dictionary of one upload, as far as the server reads it:
      title and artist from the tags, optional album and genre, the art (embedded
      image data, later a URL) and the final path once the file has been moved. */
  datatype FileData = FileData(
    track: string,
    artist: string,
    art: Option<string>,
    album: Option<string>,
    genre: Option<string>,
    path: Option<string>)

  /** The dictionary as the queue receives it. It has no catalog id yet. */
  function ToEntry(fd: FileData): (e: Queue.Entry)
    requires fd.art.Some?
    ensures Queue.Summarize(e) == Queue.Summary(fd.track, fd.artist, fd.art.value)
    ensures e.path == fd.path && e.album == fd.album && e.id == None
  {
    Queue.Entry(fd.track, fd.artist, fd.art.value, fd.album, fd.genre, fd.path, None)
  }

  /** What one iteration of the playback loop ends with. */
  datatype Loop =
    | Continue           // the loop goes round again
    | Stopped            // the reactor stopped while a track was playing: the function returns
    | Crashed(fault: Fault)  // an exception ends the playback thread

  /** `NukeBoxFactory`: owns the queue and the storage directories, counts live
      connections and routes every decoded message. */
  class Factory {
    const q: Queue.NukeBoxQueue
    const dir: string
    const temp: string
    const artDir: string
    var running: bool
    var numProtos: int
    var numThreads: int
    var threads: seq<NewFile>
    var playing: bool
    /** The connections built and not yet lost. */
    ghost var live: set<Connection>

    ghost predicate Valid()
      reads this, q
    {
      q.Valid() && numProtos == |live| && numThreads == |threads|
    }

    constructor (q: Queue.NukeBoxQueue, dir: string, temp: string, artDir: string)
      requires q.Valid()
      ensures Valid()
      ensures this.q == q && this.dir == dir && this.temp == temp && this.artDir == artDir
      ensures running && !playing
      ensures numProtos == 0 && live == {} && numThreads == 0 && threads == []
    {
      this.q := q;
      this.dir := dir;
      this.temp := temp;
      this.artDir := artDir;
      running := true;
      numProtos := 0;
      numThreads := 0;
      threads := [];
      playing := false;
      live := {};
    }

    /** `buildProtocol`: a new connection in its initial state, counted as live.
        `ip` is the local address the transport reports once connected. */
    method BuildProtocol(ip: string) returns (c: Connection)
      requires Valid()
      modifies this`numProtos, this`live
      ensures Valid()
      ensures fresh(c) && c.Snapshot() == Initial && c.tempDir == temp && c.ip == ip
      ensures live == old(live) + {c} && numProtos == old(numProtos) + 1
    {
      c := new Connection(temp, ip);
      numProtos := numProtos + 1;
      live := live + {c};
    }

    /** `connectionLost`, which the transport calls once per connection. */
    method ConnectionLost(c: Connection)
      requires Valid() && c in live
      modifies this`numProtos, this`live
      ensures Valid()
      ensures live == old(live) - {c} && numProtos == old(numProtos) - 1
    {
      numProtos := numProtos - 1;
      live := live - {c};
    }

    /** `register(protocol, data)`. */
    method Register(c: Connection, msg: Message) returns (effects: seq<Effect>)
      modifies c`state
      ensures (c.Snapshot(), effects) == RegisterStep(old(c.Snapshot()), msg)
    {
      if msg.name.None? {
        return [Abort(MissingKey("name"))];
      }
      if msg.macId.None? {
        return [Abort(MissingKey("mac_id"))];
      }
      effects := [CreateUser(msg.name.value, msg.macId.value)];
      c.state := Reg;
    }

    /** `process(protocol, data)`. */
    method Process(c: Connection, msg: Message) returns (effects: seq<Effect>)
      requires c.mode == Line
      modifies c
      ensures (c.Snapshot(), effects) == ProcessStep(old(c.Snapshot()), msg, q.info)
    {
      if msg.func.None? {
        return [Abort(MissingKey("func"))];
      }
      if msg.func.value == "file" {
        if msg.filename.None? {
          return [Abort(MissingKey("filename"))];
        }
        c.fname := Basename(msg.filename.value);
        if msg.size.None? {
          return [Abort(MissingKey("size"))];
        }
        c.sizeTotal := msg.size.value;
        c.mode := Raw;
        c.buffer := [];
        effects := [];
      } else if msg.func.value == "query" {
        effects := [Send(QueueInfo(q.info))];
      } else {
        effects := [];
      }
    }

    /** `onData(protocol, data)`, reached from `lineReceived` once the line is
        unpickled. */
    method OnData(c: Connection, msg: Message) returns (effects: seq<Effect>)
      requires c.mode == Line
      modifies c
      ensures (c.Snapshot(), effects) == OnDataStep(old(c.Snapshot()), msg, q.info)
    {
      if c.state == New {
        effects := Register(c, msg);
      } else {
        effects := Process(c, msg);
      }
    }

    /** `onFile(protocol)`: wrap the staged file in a `NewFile` and, while the
        server is running, hand it to a worker thread. `tags` are the values the
        worker reads from the file's ID3 frames, and `meta` tells whether it found
        no embedded cover and so takes the lookup route. */
    method OnFile(c: Connection, tags: FileData, meta: bool) returns (nf: NewFile)
      requires Valid()
      modifies this`threads, this`numThreads
      ensures Valid()
      ensures fresh(nf) && nf.factory == this && nf.conn == c
      ensures nf.file == c.tempFileName && nf.ip == c.ip && nf.fileData == tags && nf.meta == meta
      ensures running ==> threads == old(threads) + [nf] && numThreads == old(numThreads) + 1
      ensures !running ==> threads == old(threads) && numThreads == old(numThreads)
    {
      nf := new NewFile(this, c, c.tempFileName, c.ip, tags, meta);
      if running {
        numThreads := numThreads + 1;
        threads := threads + [nf];
      }
    }

    /** One pass of `playBack`'s `while reactor.running` loop. `onDisk` is the set
        of paths `os.path.isfile` accepts, and `stopsDuringPlay` says whether the
        reactor stops while the track plays. The player itself is left out: a
        track that starts is played to its end inside the pass. */
    method PlayBackStep(onDisk: set<string>, stopsDuringPlay: bool) returns (outcome: Loop, played: Option<string>)
      requires Valid()
      modifies this`playing, q
      ensures Valid()
      ensures q.appended == old(q.appended)
      // Dequeue only when something is queued and nothing is playing.
      ensures var dequeued := old(q.items) != [] && !old(playing);
        && (dequeued ==> q.items == old(q.items)[1..] && q.removed == old(q.removed) + [old(q.items)[0]])
        && (!dequeued ==> q.items == old(q.items) && q.removed == old(q.removed)
                          && playing == old(playing) && outcome == Continue && played == None)
      // A dequeued entry without a path ends the thread; one whose file is missing is skipped.
      ensures outcome.Crashed? <==>
        old(q.items) != [] && !old(playing) && old(q.items)[0].path.None?
      ensures outcome.Crashed? ==> outcome.fault == MissingKey("path") && playing == old(playing)
      ensures played.Some? <==>
        && old(q.items) != [] && !old(playing) && old(q.items)[0].path.Some?
        && old(q.items)[0].path.value in onDisk && !stopsDuringPlay
      ensures played.Some? ==> played.value == old(q.items)[0].path.value && outcome == Continue
      ensures outcome == Stopped <==>
        && old(q.items) != [] && !old(playing) && old(q.items)[0].path.Some?
        && old(q.items)[0].path.value in onDisk && stopsDuringPlay
      ensures outcome == Stopped ==> playing
      ensures outcome == Continue && !old(playing) ==> !playing
      // The summary changes only through popleft and through the reset that runs
      // once the queue is empty, nothing plays and a pop has happened.
      ensures old(playing) ==> q.Snapshot() == old(q.Snapshot())
      ensures old(q.items) == [] && !old(playing) ==>
        q.Snapshot() == (if old(q.pop) then Queue.ResetState(old(q.Snapshot())) else old(q.Snapshot()))
      ensures old(q.items) != [] && !old(playing) ==>
        var popped := Queue.PopLeftState(old(q.Snapshot())).0;
        q.Snapshot() == (if outcome == Continue && popped.items == [] then Queue.ResetState(popped) else popped)
    {
      outcome := Continue;
      played := None;
      if |q.items| > 0 && !playing {
        var next := q.PopLeft();
        var path := next.value.path;
        if path.None? {
          return Crashed(MissingKey("path")), None;
        }
        if path.value in onDisk {
          playing := true;
          if stopsDuringPlay {
            return Stopped, None;
          }
          playing := false;
          played := path;
        }
      }
      if |q.items| == 0 && !playing && q.pop {
        q.Reset();
      }
    }
  }

  /** `NewFile`: one received upload on its way into the library and the queue. */
  class NewFile {
    const factory: Factory
    const conn: Connection
    /** The staged copy. */
    const file: string
    const ip: string
    const baseUrl: string := BaseUrl(ip)
    var fileData: FileData
    /** True when the cover comes from the lookup services rather than the tags. */
    var meta: bool

    constructor (factory: Factory, conn: Connection, file: string, ip: string, tags: FileData, meta: bool)
      ensures this.factory == factory && this.conn == conn && this.file == file && this.ip == ip
      ensures fileData == tags && this.meta == meta
    {
      this.factory := factory;
      this.conn := conn;
      this.file := file;
      this.ip := ip;
      fileData := tags;
      this.meta := meta;
    }

    /** `moveFile`: compute the library path; with an embedded cover, replace the
        art by its URL; record the path only if the move succeeded. A missing album
        raises before anything changes. */
    method MoveFile(moveSucceeds: bool) returns (r: Result<string, Fault>)
      modifies this`fileData
      ensures old(fileData).album.None? ==> r == Failure(MissingKey("album")) && fileData == old(fileData)
      ensures old(fileData).album.Some? ==>
        && r == Success(DestinationPath(factory.dir, old(fileData).track))
        && fileData == old(fileData).(
             art := if meta then old(fileData).art else Some(ArtUrl(ip, old(fileData).album.value)),
             path := if moveSucceeds then Some(r.value) else old(fileData).path)
    {
      if fileData.album.None? {
        return Failure(MissingKey("album"));
      }
      var track := Sanitize(fileData.track);
      var album := Sanitize(fileData.album.value);
      var dst := PathJoin(factory.dir, track + ".mp3");
      if !meta {
        fileData := fileData.(art := Some(baseUrl + album + ".jpeg"));
      }
      if moveSucceeds {
        fileData := fileData.(path := Some(dst));
      }
      r := Success(dst);
    }

    /** `metaProcess`: move the file, queue it with the factory's `playing` flag and
        tell the sender its 1-based place in the queue. */
    method MetaProcess(moveSucceeds: bool) returns (effects: seq<Effect>)
      requires factory.q.Valid()
      requires meta ==> fileData.art.Some?
      modifies this`fileData, factory.q
      ensures factory.q.Valid()
      ensures old(fileData).album.None? ==>
        && effects == [Abort(MissingKey("album"))]
        && fileData == old(fileData)
        && unchanged(factory.q)
      ensures old(fileData).album.Some? ==>
        && fileData == old(fileData).(
             art := if meta then old(fileData).art else Some(ArtUrl(ip, old(fileData).album.value)),
             path := if moveSucceeds then Some(DestinationPath(factory.dir, old(fileData).track)) else old(fileData).path)
        && factory.q.Snapshot() == Queue.AppendState(old(factory.q.Snapshot()), ToEntry(fileData), factory.playing)
        && factory.q.appended == old(factory.q.appended) + [ToEntry(fileData)]
        && effects == [Send(Position(PositionText(fileData.track, |factory.q.items|)))]
    {
      var moved := MoveFile(moveSucceeds);
      if moved.Failure? {
        return [Abort(moved.error)];
      }
      var position := PositionText(fileData.track, |factory.q.items| + 1);
      factory.q.Append(ToEntry(fileData), factory.playing);
      effects := [Send(Position(position))];
    }

    /** `metaResult(result)`: take the first cover URL the lookup returned, then
        proceed as `metaProcess`. An empty list raises. */
    method MetaResult(covers: seq<string>, moveSucceeds: bool) returns (effects: seq<Effect>)
      requires factory.q.Valid()
      modifies this`fileData, factory.q
      ensures factory.q.Valid()
      ensures covers == [] ==> effects == [Abort(IndexOutOfRange)] && fileData == old(fileData) && unchanged(factory.q)
      ensures covers != [] && old(fileData).album.None? ==>
        && effects == [Abort(MissingKey("album"))]
        && fileData == old(fileData).(art := Some(covers[0]))
        && unchanged(factory.q)
      ensures covers != [] && old(fileData).album.Some? ==>
        && fileData == old(fileData).(
             art := if meta then Some(covers[0]) else Some(ArtUrl(ip, old(fileData).album.value)),
             path := if moveSucceeds then Some(DestinationPath(factory.dir, old(fileData).track)) else old(fileData).path)
        && factory.q.Snapshot() == Queue.AppendState(old(factory.q.Snapshot()), ToEntry(fileData), factory.playing)
        && factory.q.appended == old(factory.q.appended) + [ToEntry(fileData)]
        && effects == [Send(Position(PositionText(fileData.track, |factory.q.items|)))]
    {
      if covers == [] {
        return [Abort(IndexOutOfRange)];
      }
      fileData := fileData.(art := Some(covers[0]));
      effects := MetaProcess(moveSucceeds);
    }
  }
}
