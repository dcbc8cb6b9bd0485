# NukeBox2000 server core in Dafny

NukeBox2000 is a networked jukebox. Clients connect over TCP, register, upload
MP3 files and ask what is playing. The server files each upload in its library,
looks up its album and cover, queues it, and a playback loop plays the queue in
order. This project models the logic at the heart of that server and proves its
properties:

- **The playback queue** (`Queue`, file `queue.dfy`). It is a FIFO of track
  entries that keeps a "now playing / up next" summary (`info`). A small state
  table updates the summary on every append and popleft. The table is keyed on
  the new length, the caller's `playing` flag and a sticky `pop` flag. Pure step
  functions (`AppendState`, `PopLeftState`) say what one call does. The class's
  methods update the sequence, the summary and the flag in place and are proved
  to follow them. A ghost history (`appended`, `removed`) carries the FIFO
  invariant. The two unit-test traces are reproduced over the step functions,
  for any four entries.
- **The per-connection protocol** (`Protocol`, file `protocol.dfy`):
  - A connection moves from `New` to `Reg` on its first message.
  - An announce switches it to raw mode with an empty buffer.
  - Each raw chunk is buffered, a Python 2 floor percentage is computed, and one
    progress reply is sent.
  - At 100 % the file is staged, the connection returns to line mode and the
    factory is told.

  Pure step functions (`RegisterStep`, `ProcessStep`, `OnDataStep`, `ChunkStep`)
  say what one message or chunk does: the new session and the effects, in order.
  The `Connection` class and the factory's methods update the same fields in
  place and are proved to follow those functions. Lemmas give the exact
  completion condition, the byte accounting of a whole upload, and the fact that
  chunking does not change the outcome when the chunks add up to exactly the declared size.
- **Ingest and playback** (`Server`, file `server.dfy`):
  - `NukeBoxFactory`: the live-connection count, message routing, thread
    dispatch and one iteration of the playback loop.
  - `NewFile`: the filename sanitiser, the library and art paths, the art URL,
    the queue append and the position reply.
- **Album and cover selection** (`FileMeta`, file `filemeta.dfy`). This is the
  selection part of `parseDetails` over a decoded AcoustID reply, and the cover
  filter of `metaData`. Both are loops written as methods, proved against pure
  specification functions whose choice and filtering behaviour is proved
  separately.
- `Text` (`text.dfy`) models the parts of Python's string and path library the
  code relies on: `in` on strings, `str(n)`, `os.path.basename` and
  `os.path.join`. `Wrappers` (`wrappers.dfy`) holds `Option` and `Result`.

Conventions:
- An exception that escapes a handler is an `Abort(fault)` effect. On a
  connection, Twisted then closes the transport.
- A dictionary key the code reads but the input may lack is an `Option`.
- Calls into the catalog, the file system and the network are effects or
  parameters.

Notable behaviours of the code that the model keeps, and where it departs:
- **Progress value.** The progress reply carries the percentage plus one. It is
  26 after 250 of 1000 bytes and 101 on the completing chunk.
- **Declared size.** There is no guard on it. A size of 0 raises
  `ZeroDivisionError` on the first chunk. A negative size never completes.
- **Initial summary.** The queue starts with `''` for current and next, not blank
  summaries. The model starts with blank summaries.
- **Identity comparisons.** The queue compares with `is` (`len(self) is 2`,
  `func is 'append'`). The model uses value equality.

## Model

| member | source | states |
|---|---|---|
| Queue.NukeBoxQueue.constructor | nukebox2000/NukeBoxQueue.py:13-21 | The queue starts empty, with a blank current/next summary and `pop` cleared. |
| Queue.UpdatedInfo | nukebox2000/NukeBoxQueue.py:50-137 | The state table of `updateInfo`, over summaries of an entry's track, artist and art (`Summarize`). After an append, `pop` is unchanged and the summary depends on the new length: > 2 unchanged; 2 with `pop` unchanged; 2 without `pop` next := second item; 1 playing next := item; 1 not playing current := item, next := blank. After a pop, `pop` is set, current is the popped item's summary and next is the new head's summary or blank. |
| Queue.AppendState | nukebox2000/NukeBoxQueue.py:41-48 | The entry goes to the tail, `pop` is unchanged, and with more than two entries (or two while `pop` is set) the summary is unchanged. |
| Queue.PopLeftState | nukebox2000/NukeBoxQueue.py:23-39 | On an empty queue: None, an empty queue, a blank summary and `pop` cleared. Otherwise: the head, the tail as the new queue, `pop` set and current the head's summary. |
| Queue.PopEmptyStable | nukebox2000/NukeBoxQueue.py:23-39 | Popping an empty queue twice gives the same result as popping it once. |
| Queue.PopMany | nukebox2000/NukeBoxQueue.py:23-39 | `k` pops return the entries in queue order, then None once the queue is empty, and leave the untaken suffix. |
| Queue.NukeBoxQueue.PopLeft | nukebox2000/NukeBoxQueue.py:23-39 | Follows `PopLeftState`. It keeps the FIFO history: everything removed, followed by what is queued, equals everything appended. |
| Queue.NukeBoxQueue.Append | nukebox2000/NukeBoxQueue.py:41-48 | Follows `AppendState`, records the entry in the append history and keeps the FIFO history. |
| Queue.NukeBoxQueue.UpdateInfo | nukebox2000/NukeBoxQueue.py:50-137 | The summary and `pop` become exactly `UpdatedInfo`'s. |
| Queue.ResetState | nukebox2000/NukeBoxQueue.py:139-147 | `reset` keeps the entries, blanks current and next and clears `pop`. |
| Queue.NukeBoxQueue.Reset | nukebox2000/NukeBoxQueue.py:139-147 | Follows `ResetState`. |
| Queue.FourAppends | tests/test_nukeboxQueue.py:99-113 | Appending 1 (not playing) and then 2, 3, 4 (playing) gives the summaries (1, blank) and then (1, 2) three times. |
| Queue.LinearTrace | tests/test_nukeboxQueue.py:99-119 | After those appends, five pops return 1, 2, 3, 4 and then None. |
| Queue.NonLinearTrace | tests/test_nukeboxQueue.py:121-204 | The interleaved eight-step trace gives exactly the summaries the test expects. This includes the pop of 1 that leaves (1, 2) and the append of 3 that does not touch the summary because `pop` is set. |
| Text.Contains | nukebox2000/NukeBoxFileMeta.py:111 | Python's `pat in s` is true exactly when `pat` occurs at some index of `s`. |
| Text.NatToString | nukebox2000/NukeBoxServer.py:642-645 | `str(n)` is a non-empty string of decimal digits with no leading zero. |
| Text.DecimalRoundTrip | nukebox2000/NukeBoxServer.py:642-645 | Reading the digits of `str(n)` back gives `n`. |
| Text.Basename | nukebox2000/NukeBoxServer.py:423 | `os.path.basename(p)` contains no '/'. |
| Text.BasenameSuffix | nukebox2000/NukeBoxServer.py:423 | The basename is a suffix of the path, preceded by '/' whenever it is shorter than the path. With the above, it is the longest '/'-free suffix. |
| Text.BasenameOfSuffix | nukebox2000/NukeBoxServer.py:423 | When the path is '/'-free after position `k`, its basename is the basename of the first `k` characters followed by the rest. |
| Text.JoinPlainName | nukebox2000/NukeBoxServer.py:674 | `PathJoin` models POSIX `os.path.join` of two parts. Joining a directory and a non-empty '/'-free name gives a path that starts with the directory and whose basename is exactly the name. |
| Protocol.FloorDiv | nukebox2000/NukeBoxServer.py:172 | Python 2 integer `/` is floor division for either sign of divisor: q*b <= a < q*b + b when b > 0, and the mirror bounds when b < 0. |
| Protocol.PercentComplete | nukebox2000/NukeBoxServer.py:172-181 | `Percent` is `buffer.len * 100 / sizeTotal` with Python 2 floor division. With a positive declared size it is at least 100 exactly when `received >= size`. |
| Protocol.PercentNegativeSize | nukebox2000/NukeBoxServer.py:144-172 | With a negative declared size the percentage is never positive, so such an upload never completes. |
| Protocol.RegisterStep | nukebox2000/NukeBoxServer.py:349-388 | Only `state` changes. The session is registered afterwards exactly when it was before, or when both name and mac_id are present; then one CreateUser effect carries them. A missing key raises and changes nothing. |
| Protocol.ProcessStep | nukebox2000/NukeBoxServer.py:405-443 | `state` is kept. Raw mode is entered exactly on `func == 'file'` with filename and size present. It then has an empty buffer, the declared size and fname = basename(filename), with no reply. A query replies with the queue info and changes nothing. Any other func does nothing. A missing func raises. A 'file' announce without a filename raises with nothing changed. One with a filename but no size raises after `fname` has been set to the basename. |
| Protocol.OnDataStep | nukebox2000/NukeBoxServer.py:391-402 | A new session's message goes to registration (`RegisterStep`), and a registered session's message goes to processing (`ProcessStep`). A registered session stays registered. A new session's first message never starts an upload or sends a reply, and registers exactly when name and mac_id are present. Raw mode only ever belongs to a registered session. |
| Protocol.ChunkStep | nukebox2000/NukeBoxServer.py:126-154 | The buffer grows by exactly the chunk, never truncated. Size 0 raises. Otherwise `oldPercent` is the floor percentage and exactly one progress reply carries `oldPercent + 1`. With a positive size the session returns to line mode exactly when received >= size, and then records join(temp, fname) as the staged file's name. The effects are then, in order: the staging of the whole buffer there, the progress reply, and the notice to the factory. A negative size never completes. |
| Protocol.MilestonesAppend | nukebox2000/NukeBoxServer.py:181-197 | The effects of consecutive steps can be counted step by step: progress replies and the other effects are both additive over concatenation. |
| Protocol.UploadExact | nukebox2000/NukeBoxServer.py:126-197 | Delivering exactly the declared number of bytes, in any split into non-empty chunks, ends in line mode with the buffer holding all the bytes in order. The staging file is written once with those bytes, the factory is told once, and every chunk gets one progress reply. |
| Protocol.LastChunk | nukebox2000/NukeBoxServer.py:144-190 | The chunk that brings the buffer to exactly the declared size completes the upload. |
| Protocol.ChunkingIrrelevant | nukebox2000/NukeBoxServer.py:169-190 | When the chunks add up to exactly the declared size, two splits of the same bytes end in the same session, the same staging write and the same completion. |
| Protocol.ProgressScenario | nukebox2000/NukeBoxServer.py:172-197 | Declared size 1000: 250 bytes reply 26 and stay raw. The remaining 750 stage all 1000 bytes, reply 101 and complete. |
| Protocol.Connection.constructor | nukebox2000/NukeBoxServer.py:49-76 | A new connection is unregistered, in line mode, with size 0, percent 0, an empty buffer and no file name. |
| Protocol.Connection.RawDataReceived | nukebox2000/NukeBoxServer.py:126-154 | Updates the connection's fields in place and produces the effects exactly as `ChunkStep` prescribes. |
| Protocol.BufferStep | nukebox2000/NukeBoxServer.py:159-197 | The chunk is appended and nothing else in the session changes except the percentage and the staging path. A zero declared size raises before any reply. Otherwise the new percentage is the floor percentage of the buffer, and the last effect is one progress reply of percentage + 1. It is preceded by the staging of the whole buffer under `temp/fname` exactly when the percentage reached 100. |
| Protocol.Connection.BufferFile | nukebox2000/NukeBoxServer.py:159-197 | Appends, recomputes the percentage, stages once complete and replies, as `BufferStep` prescribes. |
| Server.Sanitize | nukebox2000/NukeBoxServer.py:670-671 | `re.sub('[^\w\-_\.]', '-', s)` keeps the length, keeps each ASCII letter, digit, '_', '-' or '.', and turns every other character into '-'. The result has only allowed characters and no '/'. |
| Server.SanitizeIdempotent | nukebox2000/NukeBoxServer.py:670-671 | A string of allowed characters is left unchanged, so sanitising twice equals sanitising once. |
| Server.SanitizedPath | nukebox2000/NukeBoxServer.py:670-686 | The library path (`DestinationPath`: title plus ".mp3") and the cover path (`ArtFile`: album plus ".jpeg") are exactly `os.path.join(dir, name + ext)`: the directory, a '/' unless it already ends in one, then the sanitised name plus the extension. The file name is therefore exactly the sanitised name plus the extension. |
| Server.ArtUrlNamesArtFile | nukebox2000/NukeBoxServer.py:686-700 | The art URL (`ArtUrl`, built on `BaseUrl`) starts with `http://<ip>:8888/`, and its last component is the file name of the cover written into the art directory. |
| Server.PositionNumber | nukebox2000/NukeBoxServer.py:642-645 | The position reply (`PositionText`) contains the track title after "Track ". It ends in decimal digits that read back as the position. |
| Server.ToEntry | nukebox2000/NukeBoxServer.py:648 | The queued entry's summary is the upload's track, artist and art. Its path and album are the upload's, and it has no catalog id yet. |
| Server.Factory.constructor | nukebox2000/NukeBoxServer.py:276-329 | The factory starts running, not playing, with no connections and no threads, over the given queue and directories. |
| Server.Factory.BuildProtocol | nukebox2000/NukeBoxServer.py:332-346 | Returns a fresh connection in its initial state, using the factory's staging directory. `num_protos` goes up by one and keeps counting the live connections. |
| Server.Factory.ConnectionLost | nukebox2000/NukeBoxServer.py:90-109 | `num_protos` goes down by one and keeps counting the live connections. |
| Server.Factory.Register | nukebox2000/NukeBoxServer.py:349-388 | Changes only the connection's `state`, as `RegisterStep` prescribes. |
| Server.Factory.Process | nukebox2000/NukeBoxServer.py:405-443 | Updates the connection and replies as `ProcessStep` prescribes, with the queue's current info. |
| Server.Factory.OnData | nukebox2000/NukeBoxServer.py:391-402 | Routes to registration or processing as `OnDataStep` prescribes. |
| Server.Factory.OnFile | nukebox2000/NukeBoxServer.py:446-481 | Builds a NewFile from the connection's staged file and address. It is dispatched, and counted in `num_threads`, only while the server is running. |
| Server.Factory.PlayBackStep | nukebox2000/NukeBoxServer.py:870-947 | Dequeues only when the queue is non-empty and nothing plays. An entry without a path raises KeyError and ends the thread, leaving `playing` as it was. A path not on disk is skipped. An existing file plays to its end, unless the reactor stops during playback, which leaves `playing` set. The queue's entries, summary and `pop` change only by that popleft (`PopLeftState`) and by the reset (`ResetState`). The reset runs exactly when the pass ends normally with the queue empty, nothing playing and `pop` set. While a track plays the queue is untouched. |
| Server.NewFile.constructor | nukebox2000/NukeBoxServer.py:502-517 | Records the factory, the connection, the staged file and the address. The base URL is `http://<ip>:8888/`. |
| Server.NewFile.MoveFile | nukebox2000/NukeBoxServer.py:661-714 | A missing album raises before anything changes. Otherwise the library path is the sanitised title's path, and embedded art is replaced by its URL. The path is recorded only when the move succeeds. |
| Server.NewFile.MetaProcess | nukebox2000/NukeBoxServer.py:628-658 | A missing album raises, and the queue and record stay as they were. Otherwise the record changes only in its art and path, as in `MoveFile`, and the queue becomes `AppendState` of the entry with the factory's `playing` flag, so the summary follows the append table. The reply names the track and its 1-based place, which is the queue's new length. |
| Server.NewFile.MetaResult | nukebox2000/NukeBoxServer.py:602-658 | An empty cover list raises IndexError and changes nothing. Otherwise the first cover becomes the art. A missing album then raises KeyError with the queue unchanged. With an album, the upload proceeds as in metaProcess: the record changes only in its art and path, the queue becomes `AppendState` of that record's entry, and the position reply follows. |
| FileMeta.PickInFirstMatch | nukebox2000/NukeBoxFileMeta.py:100-125 | Within one recording, `PickIn` chooses a release group exactly when some entry is an 'Album', has no 'secondarytypes' and has a first artist without "Various" (or no usable artist), and every entry before it has a type and does not qualify. The chosen group is that entry. An entry without a type ends the scan with no choice. |
| FileMeta.ScanGroups | nukebox2000/NukeBoxFileMeta.py:100-125 | The inner loop, with its `break` and the KeyError that abandons the recording, returns exactly `PickIn`. |
| FileMeta.AlbumOfNone | nukebox2000/NukeBoxFileMeta.py:96-128 | `AlbumOf`, the outer loop's `album_data`, stays unset exactly when no recording yields a choice. |
| FileMeta.AlbumOfLastMatch | nukebox2000/NukeBoxFileMeta.py:96-128 | A chosen album is the choice of some recording after which no recording yields one: the last match wins. |
| FileMeta.AlbumOfStep | nukebox2000/NukeBoxFileMeta.py:96-128 | One more recording replaces the album so far exactly when it yields a choice. |
| FileMeta.ScanRecordings | nukebox2000/NukeBoxFileMeta.py:96-128 | The outer loop fails exactly when some recording has no title. Otherwise it returns the last recording's title and `AlbumOf` of all recordings. |
| FileMeta.SelectDetails | nukebox2000/NukeBoxFileMeta.py:90-136 | On success: the reply was `Answerable` (results, recordings, a first artist with id and name, every recording titled). The track is the last recording's title, the artist and its id are the first recording's first credit, and the album and its id are `AlbumOf`'s. For an answerable reply, "no album" is reported exactly when no recording yields one, and an album with a title and an id means success. An unanswerable reply fails with a missing-key or empty-list error, never with "no album". |
| FileMeta.FrontCovers | nukebox2000/NukeBoxFileMeta.py:155-165 | The cover list is never longer than the image list. |
| FileMeta.FrontCoversAppend | nukebox2000/NukeBoxFileMeta.py:155-165 | Filtering a concatenation is the concatenation of the filtered parts, so order is kept and each image is judged on its own. |
| FileMeta.FrontCoversMembers | nukebox2000/NukeBoxFileMeta.py:155-165 | The filter raises exactly when an approved front image lacks a large thumbnail. Otherwise a URL is in the list exactly when it is the large thumbnail of an approved front image. |
| FileMeta.NukeBoxMeta.constructor | nukebox2000/NukeBoxFileMeta.py:18-30 | A new lookup helper holds no track data. |
| FileMeta.NukeBoxMeta.ParseDetails | nukebox2000/NukeBoxFileMeta.py:77-151 | The nested loops with their break and exception handlers compute exactly `SelectDetails`. The result is stored in `data` only on success. |
| FileMeta.NukeBoxMeta.MetaData | nukebox2000/NukeBoxFileMeta.py:153-169 | The loop computes exactly `FrontCovers`. It stores the list under `art`, returns the whole record, and changes no other key. |

## Left out

- **Catalog.** `MongoBox` and the calls `createUser`, `createFile` and `writeToDB` are left out. A user creation is a `CreateUser` effect; the catalog write after queuing is not modelled.
- **Remote lookups.** Fingerprinting (`fingerPrint`: acoustid, mutagen, HTTP) and the MusicBrainz cover request inside `parseDetails` are left out. Only the selection on an already-decoded reply is modelled, so the Deferred callback chain that links the lookups is not.
- **Tag reading.** `NewFile.onFile` reads ID3 tags with mutagen and picks the embedded or looked-up cover route. It is not modelled. Its outcome is the constructor's `tags` and `meta` arguments.
- **File system.** Writing the staging file, the `touch` subprocesses, writing the art file and `shutil.move` are left out. The staging write is a `StageFile` effect. The move's success is a parameter, and `os.path.isfile` is a set of existing paths.
- **Player and polling.** VLC playback, `time.sleep` and the `while reactor.running` polling are left out. `PlayBackStep` is one iteration, and a track that starts is played to its end inside it.
- **Concurrency.** The reactor thread, ingest threads and the playback thread share the queue and `playing` without locks. Each operation is modelled as an atomic step, and interleavings are not modelled.
- **Framing and servers.** Pickle framing, `LineReceiver` buffering (including `clearLineBuffer`), UDP discovery, the HTTP art server and the `Closer` wrapper are left out. Messages and raw chunks are abstract, already-decoded inputs.
- **Startup and CLI.** Process startup, directory creation, signal handling and the CLI (NukeBox.py, cli.py) are left out. NukeBox.py's copy of the playback loop is modelled once, through NukeBoxServer.py.
- **Logging.** Logging and `print` output are not modelled.
- **Uncaught exceptions in popleft.** The queue's `popleft` catches any exception and resets. The model's entries always carry track, artist and art, so that path is reached only on an empty queue.
- **Python values.** Python values that are not strings, where the code tests `'Various' in name`, are modelled as an absent name. Cover images are assumed to carry their 'types' and 'approved' keys.
- **Protocol.Connection.** It keeps its own copy of the factory's staging directory (`tempDir`) instead of a reference to the factory. `lineReceived` is unpickling followed by `Server.Factory.OnData`.
- **Protocol.UploadExact.** It covers uploads in non-empty chunks only. Twisted never delivers an empty chunk.
- **Protocol.Connection.constructor / Server.Factory.BuildProtocol.** The catalog handle is assumed to be built. As written, nukebox2000/NukeBoxServer.py:76 passes the logger to `NukeBoxDB`, whose `__init__` (nukebox2000/MongoBox.py:13) takes no argument. So every protocol construction raises TypeError after `buildProtocol` has already incremented `num_protos`. The model builds the connection and keeps `num_protos` equal to the live count.
- **Server.Factory.ConnectionLost.** It requires the connection to be live, which holds because Twisted calls it once per built connection. The Python code decrements unconditionally.
