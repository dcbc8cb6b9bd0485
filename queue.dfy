/** The playback queue: a FIFO of track entries that keeps a derived
    "now playing / up next" summary, updated by a small state table on every
    append and popleft. */
module Queue {
  import opened Wrappers

  /** A queued track, as the ingest code builds it. Only track, artist and art are
      ever shown to clients; the other keys ride along. */
  datatype Entry = Entry(
    track: string,
    artist: string,
    art: string,
    album: Option<string>,
    genre: Option<string>,
    path: Option<string>,
    id: Option<int>)

  /** The client-facing view of an entry. */
  datatype Summary = Summary(track: string, artist: string, art: string)

  const Blank := Summary("", "", "")

  function Summarize(e: Entry): Summary
  {
    Summary(e.track, e.artist, e.art)
  }

  /** The `info` dictionary: what is playing now and what plays next. */
  datatype Info = Info(current: Summary, next: Summary)

  /** Which mutation `updateInfo` is told about. */
  datatype Change = Appended | Popped

  /** Everything a client or the playback loop can observe of the queue: the
      entries, the summary and the sticky `pop` flag. */
  datatype State = State(items: seq<Entry>, info: Info, pop: bool)

  const Empty := State([], Info(Blank, Blank), false)

  /** `updateInfo(func, data, playing)`, called once the deque already holds
      `items`: the new summary and `pop` flag, by the state table. */
  function UpdatedInfo(func: Change, items: seq<Entry>, info: Info, pop: bool, data: Entry, playing: bool): (r: (Info, bool))
    ensures func == Appended ==> r.1 == pop
    ensures func == Appended && |items| > 2 ==> r.0 == info
    ensures func == Appended && |items| == 2 && pop ==> r.0 == info
    ensures func == Appended && |items| == 2 && !pop ==> r.0 == Info(info.current, Summarize(items[1]))
    ensures func == Appended && |items| == 1 && playing ==> r.0 == Info(info.current, Summarize(data))
    ensures func == Appended && |items| == 1 && !playing ==> r.0 == Info(Summarize(data), Blank)
    ensures func == Appended && |items| == 0 ==> r.0 == info
    ensures func == Popped ==>
      && r.1
      && r.0.current == Summarize(data)
      && r.0.next == (if items == [] then Blank else Summarize(items[0]))
  {
    match func
    case Appended =>
      if |items| > 2 then (info, pop)
      else if |items| == 2 then
        if pop then (info, pop) else (info.(next := Summarize(items[1])), pop)
      else if |items| == 1 then
        if playing then (info.(next := Summarize(data)), pop)
        else (Info(Summarize(data), Blank), pop)
      else (info, pop)
    case Popped =>
      (Info(Summarize(data), if |items| == 0 then Blank else Summarize(items[0])), true)
  }

  /** `append(value, playing)`: the entry goes to the tail, then the summary is
      updated. Only the summary can change besides the entries. */
  function AppendState(s: State, value: Entry, playing: bool): (t: State)
    ensures t.items == s.items + [value] && t.pop == s.pop
    ensures |t.items| > 2 || (|t.items| == 2 && s.pop) ==> t.info == s.info
  {
    var items := s.items + [value];
    var (info, pop) := UpdatedInfo(Appended, items, s.info, s.pop, value, playing);
    State(items, info, pop)
  }

  /** `popleft()`: the head and the remaining state, or None and a blank summary
      with `pop` cleared on an empty queue. */
  function PopLeftState(s: State): (r: (State, Option<Entry>))
    ensures s.items == [] ==> r == (Empty, None)
    ensures s.items != [] ==>
      && r.1 == Some(s.items[0])
      && r.0.items == s.items[1..]
      && r.0.pop
      && r.0.info.current == Summarize(s.items[0])
  {
    if s.items == [] then (Empty, None)
    else
      var head := s.items[0];
      var items := s.items[1..];
      var (info, pop) := UpdatedInfo(Popped, items, s.info, s.pop, head, false);
      (State(items, info, pop), Some(head))
  }

  /** `reset()`: the same entries, a blank summary, `pop` cleared. */
  function ResetState(s: State): (t: State)
    ensures t.items == s.items && t.info == Info(Blank, Blank) && !t.pop
  {
    State(s.items, Info(Blank, Blank), false)
  }

  /** Once the queue is empty, popping again returns None and changes nothing. */
  lemma PopEmptyStable(s: State)
    requires s.items == []
    ensures PopLeftState(PopLeftState(s).0) == PopLeftState(s)
  {
  }

  /** Entries leave in the order they arrived: popping `k` times from a queue built
      by appends to `s` returns the first `k` entries of the combined sequence. */
  function PopMany(s: State, k: nat): (r: (State, seq<Option<Entry>>))
    ensures |r.1| == k
    ensures r.0.items == if k <= |s.items| then s.items[k..] else []
    ensures forall i :: 0 <= i < k ==> r.1[i] == if i < |s.items| then Some(s.items[i]) else None
    decreases k
  {
    if k == 0 then (s, [])
    else
      var (s1, item) := PopLeftState(s);
      var (s2, rest) := PopMany(s1, k - 1);
      assert forall i :: 0 <= i < |s1.items| ==> s1.items[i] == s.items[i + 1];
      (s2, [item] + rest)
  }

  class NukeBoxQueue {
    var items: seq<Entry>
    var info: Info
    /** Set by every successful popleft, cleared only by reset. */
    var pop: bool

    /** Every entry ever appended, and every entry popleft has returned, in order. */
    ghost var appended: seq<Entry>
    ghost var removed: seq<Entry>

    /** FIFO: the entries handed out so far, followed by those still queued, are
        exactly the entries appended, in the same order. */
    ghost predicate Valid()
      reads this
    {
      appended == removed + items
    }

    function Snapshot(): State
      reads this
    {
      State(items, info, pop)
    }

    constructor ()
      ensures Valid()
      ensures Snapshot() == Empty
      ensures appended == [] && removed == []
    {
      items := [];
      info := Info(Blank, Blank);
      pop := false;
      appended := [];
      removed := [];
    }

    /** `popleft`. */
    method PopLeft() returns (item: Option<Entry>)
      requires Valid()
      modifies this
      ensures Valid()
      ensures (Snapshot(), item) == PopLeftState(old(Snapshot()))
      ensures appended == old(appended)
      ensures removed == old(removed) + (if item.Some? then [item.value] else [])
    {
      if items == [] {
        item := None;
        Reset();
      } else {
        var head := items[0];
        items := items[1..];
        removed := removed + [head];
        UpdateInfo(Popped, head, false);
        item := Some(head);
      }
    }

    /** `append(value, playing)`. */
    method Append(value: Entry, playing: bool)
      requires Valid()
      modifies this
      ensures Valid()
      ensures Snapshot() == AppendState(old(Snapshot()), value, playing)
      ensures appended == old(appended) + [value] && removed == old(removed)
    {
      items := items + [value];
      appended := appended + [value];
      UpdateInfo(Appended, value, playing);
    }

    /** `updateInfo(func, data, playing)`, called after the deque has changed. */
    method UpdateInfo(func: Change, data: Entry, playing: bool)
      modifies this`info, this`pop
      ensures (info, pop) == UpdatedInfo(func, items, old(info), old(pop), data, playing)
    {
      if func == Appended {
        if |items| > 2 {
          return;
        }
        if |items| == 2 {
          if pop {
            return;
          }
          info := info.(next := Summarize(items[1]));
        }
        if |items| == 1 {
          if playing {
            info := info.(next := Summarize(data));
          }
          if !playing {
            info := info.(current := Summarize(data));
            info := info.(next := Blank);
          }
        }
      } else {
        pop := true;
        info := info.(current := Summarize(data));
        if |items| == 0 {
          info := info.(next := Blank);
        } else {
          info := info.(next := Summarize(items[0]));
        }
      }
    }

    /** `reset`: blank summary and the sticky pop flag cleared; the entries stay. */
    method Reset()
      modifies this`info, this`pop
      ensures Snapshot() == ResetState(old(Snapshot()))
    {
      info := Info(Blank, Blank);
      pop := false;
    }
  }

  /** The append half of the linear test: one entry while idle, then three while
      playing. Only the first two appends change the summary. */
  lemma FourAppends(e1: Entry, e2: Entry, e3: Entry, e4: Entry)
    ensures var s1 := AppendState(Empty, e1, false);
      var s2 := AppendState(s1, e2, true);
      var s3 := AppendState(s2, e3, true);
      var s4 := AppendState(s3, e4, true);
      && s1.info == Info(Summarize(e1), Blank)
      && s2.info == Info(Summarize(e1), Summarize(e2))
      && s3.info == Info(Summarize(e1), Summarize(e2))
      && s4.info == Info(Summarize(e1), Summarize(e2))
      && s4.items == [e1, e2, e3, e4]
  {
    var s1 := AppendState(Empty, e1, false);
    assert s1.items == [e1];
    var s2 := AppendState(s1, e2, true);
    assert s2.items == [e1, e2];
    var s3 := AppendState(s2, e3, true);
    assert s3.items == [e1, e2, e3];
  }

  /** The linear test, for any four entries: append 1 (not playing), append 2, 3, 4
      (playing), then pop five times. */
  lemma LinearTrace(e1: Entry, e2: Entry, e3: Entry, e4: Entry)
    ensures var s4 := AppendState(AppendState(AppendState(AppendState(Empty, e1, false), e2, true), e3, true), e4, true);
      PopMany(s4, 5).1 == [Some(e1), Some(e2), Some(e3), Some(e4), None]
  {
    FourAppends(e1, e2, e3, e4);
    var s4 := AppendState(AppendState(AppendState(AppendState(Empty, e1, false), e2, true), e3, true), e4, true);
    var popped := PopMany(s4, 5).1;
    assert popped[0] == Some(e1) && popped[1] == Some(e2) && popped[2] == Some(e3);
    assert popped[3] == Some(e4) && popped[4] == None;
  }

  /** The non-linear test, for any four entries: the summary after each of eight
      steps and what each pop returns. The first pop leaves the summary as it was,
      and the append after it does not touch the summary because `pop` is set. */
  lemma NonLinearTrace(e1: Entry, e2: Entry, e3: Entry, e4: Entry)
    ensures var s1 := AppendState(Empty, e1, false);
      var s2 := AppendState(s1, e2, true);
      var (s3, p1) := PopLeftState(s2);
      var s4 := AppendState(s3, e3, true);
      var (s5, p2) := PopLeftState(s4);
      var (s6, p3) := PopLeftState(s5);
      var s7 := AppendState(s6, e4, true);
      var (s8, p4) := PopLeftState(s7);
      && s1.info == Info(Summarize(e1), Blank)
      && s2.info == Info(Summarize(e1), Summarize(e2))
      && s3.info == Info(Summarize(e1), Summarize(e2))
      && s4.info == Info(Summarize(e1), Summarize(e2))
      && s5.info == Info(Summarize(e2), Summarize(e3))
      && s6.info == Info(Summarize(e3), Blank)
      && s7.info == Info(Summarize(e3), Summarize(e4))
      && s8.info == Info(Summarize(e4), Blank)
      && [p1, p2, p3, p4] == [Some(e1), Some(e2), Some(e3), Some(e4)]
  {
    var s2 := AppendState(AppendState(Empty, e1, false), e2, true);
    assert s2.items == [e1, e2];
    var s4 := AppendState(PopLeftState(s2).0, e3, true);
    assert s4.items == [e2, e3];
  }
}
