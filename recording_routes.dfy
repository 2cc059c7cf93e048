/** The `_active` session registry of `app/routes/recording.py` and the endpoints that
    change it: start, stop, attaching and detaching a live-update socket, the broadcast
    helper and the live-notes trigger.

    Every endpoint runs on the event loop; each is modelled as one atomic step. The
    database is the `sessions` table (data directory and status); the rows a chunk
    query returns, the sockets whose send raises, whether the audio stream opens and
    what the notes generator answers are parameters of the step that consults them.
    Text files live in `files`, JSON files in `documents`, both keyed by path. */
module RecordingRoutes {
  import opened Wrappers
  import opened Text
  import opened AudioUtils
  import Recording

  /** A connected live-update socket. */
  type Socket = nat

  /** A recording worker as the registry sees it: the session it records, its directory
      and its `is_running` flag. */
  datatype WorkerHandle = WorkerHandle(sessionId: int, sessionDir: string, running: bool)

  /** One registry entry: `{"worker", "websockets", "data_dir"}` (the event-loop handle
      is not modelled). */
  datatype Entry = Entry(worker: Option<WorkerHandle>, websockets: seq<Socket>, dataDir: string)

  /** `_active`: session id to entry. */
  type Active = map<int, Entry>

  /** The columns of a `sessions` row the routes use. */
  datatype SessionRow = SessionRow(dataDir: string, status: string)

  /** A `transcript_chunks` row as the routes read it back (times in seconds). */
  datatype StoredChunk = StoredChunk(chunkIndex: nat, startTime: real, endTime: real, text: string)

  /** What the stop endpoint writes as JSON: the chunk list and the session index. */
  datatype Document =
    | ChunkList(chunks: seq<StoredChunk>)
    | Index(sessionId: int, status: string, totalChunks: nat, totalDurationSeconds: real)

  /** The JSON messages pushed to the sockets. */
  datatype Message =
    | RecordingStatus(status: string)
    | ChunkTranscribed(meta: Recording.Chunk)
    | LiveNotesUpdated(notes: string)

  /** One `send_json` attempt and whether it went through. */
  datatype Send = Send(socket: Socket, message: Message, delivered: bool)

  /** The live-notes generator as an oracle: the notes for each (chunks, existing draft)
      pair on which it answers; on any other pair the call raises. */
  type NotesGenerator = map<(seq<StoredChunk>, string), string>

  const StatusIdle := "idle"
  const StatusRecording := "recording"
  const StatusStopped := "stopped"

  /** The sockets registered for a session; none for an unknown session. */
  function Sockets(active: Active, sessionId: int): seq<Socket>
  {
    if sessionId in active then active[sessionId].websockets else []
  }

  // ---------------------------------------------------------------
  // Broadcast
  // ---------------------------------------------------------------

  /** The send attempts of one broadcast: every socket in list order, the ones in
      `failing` raising (and the exception swallowed). */
  function Broadcast(sockets: seq<Socket>, msg: Message, failing: set<Socket>): seq<Send>
  {
    if |sockets| == 0 then []
    else Broadcast(sockets[..|sockets| - 1], msg, failing)
         + [Send(sockets[|sockets| - 1], msg, sockets[|sockets| - 1] !in failing)]
  }

  /** A failing send stops nobody: socket `i` gets attempt `i`, and it is delivered
      exactly when that socket does not fail. */
  lemma {:induction false} BroadcastEach(sockets: seq<Socket>, msg: Message, failing: set<Socket>)
    ensures |Broadcast(sockets, msg, failing)| == |sockets|
    ensures forall i :: 0 <= i < |sockets| ==>
      Broadcast(sockets, msg, failing)[i] == Send(sockets[i], msg, sockets[i] !in failing)
  {
    if |sockets| > 0 {
      BroadcastEach(sockets[..|sockets| - 1], msg, failing);
    }
  }

  // ---------------------------------------------------------------
  // Attaching and detaching sockets
  // ---------------------------------------------------------------

  /** `list.remove(x)`: drop the first occurrence of `x`. */
  function RemoveFirst(s: seq<Socket>, x: Socket): seq<Socket>
  {
    if |s| == 0 then []
    else if s[0] == x then s[1..]
    else [s[0]] + RemoveFirst(s[1..], x)
  }

  /** Removing changes nothing when the socket is not in the list. */
  lemma {:induction false} RemoveFirstAbsent(s: seq<Socket>, x: Socket)
    requires x !in s
    ensures RemoveFirst(s, x) == s
  {
    if |s| > 0 {
      assert x !in s[1..];
      RemoveFirstAbsent(s[1..], x);
    }
  }

  /** Removing drops the first occurrence and keeps the rest in order. */
  lemma {:induction false} RemoveFirstAt(s: seq<Socket>, x: Socket, i: nat)
    requires i < |s| && s[i] == x && x !in s[..i]
    ensures RemoveFirst(s, x) == s[..i] + s[i + 1..]
  {
    if i > 0 {
      assert s[0] in s[..i];
      assert s[1..][..i - 1] == s[..i][1..];
      RemoveFirstAt(s[1..], x, i - 1);
      assert s[..i] == [s[0]] + s[1..][..i - 1];
      assert s[i + 1..] == s[1..][i..];
    }
  }

  /** Removing takes exactly one occurrence out of the list's multiset of sockets. */
  lemma {:induction false} RemoveFirstMultiset(s: seq<Socket>, x: Socket)
    ensures multiset(RemoveFirst(s, x)) == multiset(s) - multiset{x}
  {
    if |s| > 0 {
      RemoveFirstMultiset(s[1..], x);
      assert s == [s[0]] + s[1..];
      assert multiset(s) == multiset{s[0]} + multiset(s[1..]);
    }
  }

  /** The registry after a socket connects: an idle entry with no data directory is
      created when the session has none, then the socket is appended. */
  function AttachEntry(active: Active, sessionId: int, ws: Socket): (r: Active)
    ensures sessionId in r && r.Keys == active.Keys + {sessionId}
    ensures r[sessionId].websockets == Sockets(active, sessionId) + [ws]
    ensures sessionId in active ==> r[sessionId] == active[sessionId].(websockets := r[sessionId].websockets)
    ensures sessionId !in active ==> r[sessionId].worker == None && r[sessionId].dataDir == ""
    ensures forall s :: s in active && s != sessionId ==> r[s] == active[s]
  {
    var e := if sessionId in active then active[sessionId] else Entry(None, [], "");
    active[sessionId := e.(websockets := e.websockets + [ws])]
  }

  /** The registry after a socket disconnects: the socket is removed from its session's
      list, and the entry is deleted when no socket is left and no worker is registered. */
  function DetachEntry(active: Active, sessionId: int, ws: Socket): (r: Active)
    ensures r.Keys <= active.Keys
    ensures forall s :: s in active && s != sessionId ==> s in r && r[s] == active[s]
    ensures sessionId in active ==>
      var left := RemoveFirst(active[sessionId].websockets, ws);
      (sessionId !in r <==> left == [] && active[sessionId].worker == None)
      && (sessionId in r ==> r[sessionId] == active[sessionId].(websockets := left))
  {
    if sessionId !in active then active
    else
      var left := RemoveFirst(active[sessionId].websockets, ws);
      if left == [] && active[sessionId].worker == None then active - {sessionId}
      else active[sessionId := active[sessionId].(websockets := left)]
  }

  /** Connecting a new socket and disconnecting it again restores the registry, except
      that an entry which then has neither sockets nor a worker is cleaned up. */
  lemma AttachThenDetach(active: Active, sessionId: int, ws: Socket)
    requires ws !in Sockets(active, sessionId)
    ensures var r := DetachEntry(AttachEntry(active, sessionId, ws), sessionId, ws);
      if sessionId in active && active[sessionId].websockets == [] && active[sessionId].worker == None
      then r == active - {sessionId}
      else r == active
  {
    var ws0 := Sockets(active, sessionId);
    assert (ws0 + [ws])[..|ws0|] == ws0;
    RemoveFirstAt(ws0 + [ws], ws, |ws0|);
    assert (ws0 + [ws])[|ws0| + 1..] == [];
    var a1 := AttachEntry(active, sessionId, ws);
    var r := DetachEntry(a1, sessionId, ws);
    if sessionId !in active {
      assert r == a1 - {sessionId};
      assert r.Keys == active.Keys;
    } else if ws0 != [] || active[sessionId].worker != None {
      assert RemoveFirst(a1[sessionId].websockets, ws) == ws0;
      assert a1[sessionId].(websockets := ws0) == active[sessionId];
      assert r == a1[sessionId := active[sessionId]];
    }
  }

  // ---------------------------------------------------------------
  // The live-notes trigger
  // ---------------------------------------------------------------

  /** `(chunk_index + 1) % interval == 0`. An interval of 0 makes the source raise
      after the broadcast, which triggers nothing. */
  predicate ShouldTrigger(chunkIndex: nat, interval: int)
  {
    interval != 0 && (chunkIndex + 1) % interval == 0
  }

  /** How many of the chunks `0 .. count - 1` trigger live notes. */
  function Triggers(count: nat, interval: int): nat
  {
    if count == 0 then 0
    else Triggers(count - 1, interval) + (if ShouldTrigger(count - 1, interval) then 1 else 0)
  }

  /** Live notes come once every `interval` chunks: after `count` chunks they have been
      triggered `count / interval` times, the last time at the last full multiple. */
  lemma TriggersEveryInterval(count: nat, interval: int)
    requires interval > 0
    ensures Triggers(count, interval) == count / interval
  {
    TriggersBounds(count, interval);
    DivByBounds(count, interval, Triggers(count, interval),
                count - Triggers(count, interval) * interval);
  }

  lemma {:induction false} TriggersBounds(count: nat, interval: int)
    requires interval > 0
    ensures Triggers(count, interval) * interval <= count
    ensures count - Triggers(count, interval) * interval < interval
  {
    if count > 0 {
      var t := Triggers(count - 1, interval);
      TriggersBounds(count - 1, interval);
      NextRemainder(count, interval, t, count - 1 - t * interval);
    }
  }

  /** One more chunk either completes an interval (remainder 0, one more multiple) or
      raises the remainder by one. */
  lemma NextRemainder(count: int, interval: int, t: int, r: int)
    requires interval > 0 && 0 <= r < interval && count == t * interval + r + 1
    ensures r + 1 == interval ==> count % interval == 0 && count == (t + 1) * interval
    ensures r + 1 < interval ==> count % interval == r + 1
  {
    MulSucc(t, interval);
    if r + 1 == interval {
      DivByBounds(count, interval, t + 1, 0);
    } else {
      DivByBounds(count, interval, t, r + 1);
    }
  }

  /** With the interval at 0 live notes are never triggered. */
  lemma {:induction false} NoTriggersAtZero(count: nat)
    ensures Triggers(count, 0) == 0
  {
    if count > 0 {
      NoTriggersAtZero(count - 1);
    }
  }

  /** The data directory the registry holds for a session; `""` for an unknown one. */
  function SessionDataDir(active: Active, sessionId: int): string
  {
    if sessionId in active then active[sessionId].dataDir else ""
  }

  /** `<data_dir>/notes/live_draft.md`. */
  function LiveDraftPath(dataDir: string): string
  {
    PathJoin(PathJoin(dataDir, "notes"), "live_draft.md")
  }

  /** The draft handed to the generator: the live draft's text when the session has a
      data directory and the file exists, else `""`. */
  function ExistingDraft(files: map<string, string>, dataDir: string): string
  {
    if dataDir != "" && LiveDraftPath(dataDir) in files then files[LiveDraftPath(dataDir)] else ""
  }

  /** The notes one live-notes run produces: none when there are no chunks or the
      generator raises on the chunks and the existing draft. */
  function LiveNotesResult(files: map<string, string>, dataDir: string,
                           chunks: seq<StoredChunk>, generator: NotesGenerator): (r: Option<string>)
    ensures chunks == [] ==> r == None
    ensures r.Some? <==> chunks != [] && (chunks, ExistingDraft(files, dataDir)) in generator
    ensures r.Some? ==> r.value == generator[(chunks, ExistingDraft(files, dataDir))]
  {
    var key := (chunks, ExistingDraft(files, dataDir));
    if chunks != [] && key in generator then Some(generator[key]) else None
  }

  /** The text files after a live-notes run: the new notes replace the draft when the
      session has a data directory. */
  function FilesAfterNotes(files: map<string, string>, dataDir: string, notes: Option<string>): map<string, string>
  {
    if notes.Some? && dataDir != "" then files[LiveDraftPath(dataDir) := notes.value] else files
  }

  // ---------------------------------------------------------------
  // Files the stop endpoint writes
  // ---------------------------------------------------------------

  function ChunksJsonPath(dataDir: string): string
  {
    PathJoin(PathJoin(dataDir, "transcript"), "chunks.json")
  }

  function IndexPath(dataDir: string): string
  {
    PathJoin(dataDir, "index.json")
  }

  /** `chunks[-1]["end_time"] if chunks else 0`. */
  function TotalDuration(chunks: seq<StoredChunk>): real
  {
    if chunks == [] then 0.0 else chunks[|chunks| - 1].endTime
  }

  /** The two files never collide: the chunk list and the index have different names. */
  lemma StopFilesDistinct(dataDir: string)
    ensures ChunksJsonPath(dataDir) != IndexPath(dataDir)
  {
    var c, i := ChunksJsonPath(dataDir), IndexPath(dataDir);
    SuffixChar(c, "chunks.json", 5);
    SuffixChar(i, "index.json", 4);
  }

  lemma SuffixChar(p: string, name: string, k: nat)
    requires |name| <= |p| && p[|p| - |name|..] == name && k < |name|
    ensures p[|p| - |name| + k] == name[k]
  {
    assert p[|p| - |name|..][k] == name[k];
  }

  // ---------------------------------------------------------------
  // The registry
  // ---------------------------------------------------------------

  class Registry {
    var active: Active
    /** The `sessions` table: data directory and status per session id. */
    var sessions: map<int, SessionRow>
    /** Text files by path. */
    var files: map<string, string>
    /** JSON files by path. */
    var documents: map<string, Document>
    /** Every `send_json` attempt so far. */
    var outbox: seq<Send>

    /** A registered worker belongs to its session and records into the session's
        directory, and the session's status is `recording`. The worker need not be
        running: a stop whose final flush raised leaves it registered, stopped. */
    ghost predicate Valid()
      reads this`active, this`sessions
    {
      forall s :: s in active && active[s].worker.Some? ==>
        var w := active[s].worker.value;
        w.sessionId == s && w.sessionDir == active[s].dataDir
        && s in sessions && sessions[s].status == StatusRecording && sessions[s].dataDir == w.sessionDir
    }

    constructor (sessions: map<int, SessionRow>, files: map<string, string>)
      ensures Valid()
      ensures active == map[] && this.sessions == sessions && this.files == files
      ensures documents == map[] && outbox == []
    {
      active := map[];
      this.sessions := sessions;
      this.files := files;
      documents := map[];
      outbox := [];
    }

    /** `_send_to_all`: one attempt per registered socket, over a copy of the list;
        nothing for an unknown session. */
    method SendToAll(sessionId: int, msg: Message, failing: set<Socket>)
      modifies this`outbox
      ensures outbox == old(outbox) + Broadcast(Sockets(active, sessionId), msg, failing)
    {
      if sessionId !in active {
        return;
      }
      var targets := active[sessionId].websockets;
      var i := 0;
      while i < |targets|
        invariant 0 <= i <= |targets|
        invariant outbox == old(outbox) + Broadcast(targets[..i], msg, failing)
      {
        var delivered := targets[i] !in failing;
        outbox := outbox + [Send(targets[i], msg, delivered)];
        assert targets[..i + 1][..i] == targets[..i];
        i := i + 1;
      }
      assert targets[..i] == targets;
    }

    /** `start_recording`. 409 when a worker is registered, then 404 for an unknown
        session; both leave everything unchanged. Otherwise the status becomes
        `recording`, the entry gets the new worker and keeps the sockets already
        connected, and the worker is started. When its stream does not open the worker
        is dropped again (the entry stays), the status reverts to `idle` and the answer
        is 500; otherwise the sockets are told `recording`. */
    method StartRecording(sessionId: int, streamOpens: bool, failing: set<Socket>) returns (code: int)
      requires Valid()
      modifies this
      ensures Valid()
      ensures files == old(files) && documents == old(documents)
      ensures sessionId in old(active) && old(active)[sessionId].worker.Some? ==>
        code == 409 && active == old(active) && sessions == old(sessions) && outbox == old(outbox)
      ensures !(sessionId in old(active) && old(active)[sessionId].worker.Some?) && sessionId !in old(sessions) ==>
        code == 404 && active == old(active) && sessions == old(sessions) && outbox == old(outbox)
      ensures !(sessionId in old(active) && old(active)[sessionId].worker.Some?) && sessionId in old(sessions) ==>
        var dataDir := old(sessions)[sessionId].dataDir;
        var existing := Sockets(old(active), sessionId);
        var worker := if streamOpens then Some(WorkerHandle(sessionId, dataDir, true)) else None;
        active == old(active)[sessionId := Entry(worker, existing, dataDir)]
        && sessions == old(sessions)[sessionId := SessionRow(dataDir, if streamOpens then StatusRecording else StatusIdle)]
        && (streamOpens ==> code == 200 && outbox == old(outbox) + Broadcast(existing, RecordingStatus(StatusRecording), failing))
        && (!streamOpens ==> code == 500 && outbox == old(outbox))
    {
      if sessionId in active && active[sessionId].worker.Some? {
        return 409;
      }
      if sessionId !in sessions {
        return 404;
      }
      var dataDir := sessions[sessionId].dataDir;
      sessions := sessions[sessionId := sessions[sessionId].(status := StatusRecording)];
      var worker := WorkerHandle(sessionId, dataDir, false);
      var existing := Sockets(active, sessionId);
      active := active[sessionId := Entry(Some(worker), existing, dataDir)];
      // `start` raises the running flag before it opens the stream
      worker := worker.(running := true);
      active := active[sessionId := active[sessionId].(worker := Some(worker))];
      if !streamOpens {
        active := active[sessionId := active[sessionId].(worker := None)];
        sessions := sessions[sessionId := sessions[sessionId].(status := StatusIdle)];
        return 500;
      }
      SendToAll(sessionId, RecordingStatus(StatusRecording), failing);
      code := 200;
    }

    /** `stop_recording`. 400 when there is no entry or no worker, leaving everything
        unchanged. Otherwise the worker is stopped; `flushOk` is the outcome of its final
        flush (the `ok` of `Recording.RecordingWorker.Stop`). When the flush raised, the
        exception escapes as a 500 before the worker is dropped: the entry keeps the
        worker, no longer running, and nothing else changes. Otherwise the worker is
        dropped while the entry and its sockets stay; the chunk list (the rows `chunks`
        the query returns after the final flush) and an index with their count and the
        last end time are written, the status becomes `stopped`, and the sockets are
        told `stopped`. */
    method StopRecording(sessionId: int, flushOk: bool, chunks: seq<StoredChunk>, failing: set<Socket>)
      returns (code: int, count: nat)
      requires Valid()
      modifies this
      ensures Valid()
      ensures files == old(files)
      ensures sessionId !in old(active) || old(active)[sessionId].worker.None? ==>
        code == 400 && active == old(active) && sessions == old(sessions)
        && documents == old(documents) && outbox == old(outbox)
      ensures sessionId in old(active) && old(active)[sessionId].worker.Some? && !flushOk ==>
        var e := old(active)[sessionId];
        code == 500 && count == 0
        && active == old(active)[sessionId := e.(worker := Some(e.worker.value.(running := false)))]
        && sessions == old(sessions) && documents == old(documents) && outbox == old(outbox)
      ensures sessionId in old(active) && old(active)[sessionId].worker.Some? && flushOk ==>
        var dataDir := old(active)[sessionId].dataDir;
        code == 200 && count == |chunks|
        && active == old(active)[sessionId := old(active)[sessionId].(worker := None)]
        && sessions == old(sessions)[sessionId := SessionRow(dataDir, StatusStopped)]
        && documents == old(documents)[ChunksJsonPath(dataDir) := ChunkList(chunks)]
                                      [IndexPath(dataDir) := Index(sessionId, StatusStopped, |chunks|, TotalDuration(chunks))]
        && outbox == old(outbox) + Broadcast(Sockets(old(active), sessionId), RecordingStatus(StatusStopped), failing)
    {
      if sessionId !in active || active[sessionId].worker.None? {
        return 400, 0;
      }
      var entry := active[sessionId];
      var dataDir := entry.dataDir;
      // the worker's own stop (flush and join) is modelled in `Recording`; it lowers
      // the running flag before it flushes
      active := active[sessionId := entry.(worker := Some(entry.worker.value.(running := false)))];
      if !flushOk {
        return 500, 0;
      }
      active := active[sessionId := entry.(worker := None)];
      var written := documents[ChunksJsonPath(dataDir) := ChunkList(chunks)];
      if sessionId in sessions {
        sessions := sessions[sessionId := sessions[sessionId].(status := StatusStopped)];
      }
      documents := written[IndexPath(dataDir) := Index(sessionId, StatusStopped, |chunks|, TotalDuration(chunks))];
      SendToAll(sessionId, RecordingStatus(StatusStopped), failing);
      code, count := 200, |chunks|;
    }

    /** The connect half of `websocket_endpoint`: register the socket and send it the
        current status, `recording` exactly when a running worker is registered. The
        first send is outside the endpoint's `try`: when it fails (`ws` in `failing`)
        the endpoint raises and never reaches its receive loop (`listening` false), so
        no disconnect cleanup runs and the socket stays registered. */
    method Attach(sessionId: int, ws: Socket, failing: set<Socket>) returns (status: string, listening: bool)
      requires Valid()
      modifies this
      ensures Valid()
      ensures active == AttachEntry(old(active), sessionId, ws)
      ensures status == StatusRecording <==>
        sessionId in old(active) && old(active)[sessionId].worker.Some? && old(active)[sessionId].worker.value.running
      ensures status == StatusRecording || status == StatusIdle
      ensures outbox == old(outbox) + [Send(ws, RecordingStatus(status), ws !in failing)]
      ensures listening <==> ws !in failing
      ensures sessions == old(sessions) && files == old(files) && documents == old(documents)
    {
      if sessionId !in active {
        active := active[sessionId := Entry(None, [], "")];
      }
      active := active[sessionId := active[sessionId].(websockets := active[sessionId].websockets + [ws])];
      var worker := active[sessionId].worker;
      var isRecording := worker.Some? && worker.value.running;
      status := if isRecording then StatusRecording else StatusIdle;
      listening := ws !in failing;
      outbox := outbox + [Send(ws, RecordingStatus(status), listening)];
    }

    /** The disconnect half of `websocket_endpoint`. */
    method Detach(sessionId: int, ws: Socket)
      requires Valid()
      modifies this
      ensures Valid()
      ensures active == DetachEntry(old(active), sessionId, ws)
      ensures sessions == old(sessions) && files == old(files) && documents == old(documents)
      ensures outbox == old(outbox)
    {
      if sessionId in active {
        var wsList := active[sessionId].websockets;
        if ws in wsList {
          wsList := RemoveFirst(wsList, ws);
        } else {
          RemoveFirstAbsent(wsList, ws);
        }
        active := active[sessionId := active[sessionId].(websockets := wsList)];
        if wsList == [] && active[sessionId].worker == None {
          active := active - {sessionId};
        }
      }
    }

    /** `_trigger_live_notes`: with no chunks nothing happens; otherwise the generator
        gets the chunks and the current draft; when it raises nothing changes, otherwise
        the draft is replaced (when the session has a data directory) and the sockets
        receive the new notes. */
    method TriggerLiveNotes(sessionId: int, chunks: seq<StoredChunk>, generator: NotesGenerator,
                            failing: set<Socket>) returns (updated: bool)
      modifies this`files, this`outbox
      ensures updated == LiveNotesResult(old(files), SessionDataDir(active, sessionId), chunks, generator).Some?
      ensures files == FilesAfterNotes(old(files), SessionDataDir(active, sessionId),
                                       LiveNotesResult(old(files), SessionDataDir(active, sessionId), chunks, generator))
      ensures !updated ==> outbox == old(outbox)
      ensures updated ==>
        var notes := LiveNotesResult(old(files), SessionDataDir(active, sessionId), chunks, generator);
        outbox == old(outbox) + Broadcast(Sockets(active, sessionId), LiveNotesUpdated(notes.value), failing)
    {
      if chunks == [] {
        return false;
      }
      var dataDir := if sessionId in active then active[sessionId].dataDir else "";
      var notesPath := if dataDir != "" then PathJoin(PathJoin(dataDir, "notes"), "live_draft.md") else "";
      assert notesPath != "" <==> dataDir != "";
      var existing := "";
      if notesPath != "" && notesPath in files {
        existing := files[notesPath];
      }
      assert existing == ExistingDraft(files, dataDir);
      if (chunks, existing) !in generator {
        // the generator raised; the error is swallowed
        return false;
      }
      var liveNotes := generator[(chunks, existing)];
      if dataDir != "" {
        files := files[notesPath := liveNotes];
      }
      SendToAll(sessionId, LiveNotesUpdated(liveNotes), failing);
      updated := true;
    }

    /** `_handle_chunk_transcribed`: broadcast the chunk, then trigger live notes on
        every `interval`-th chunk. */
    method HandleChunkTranscribed(sessionId: int, meta: Recording.Chunk, interval: int,
                                  chunks: seq<StoredChunk>, generator: NotesGenerator,
                                  failingChunk: set<Socket>, failingNotes: set<Socket>)
      returns (triggered: bool)
      modifies this`files, this`outbox
      ensures triggered == ShouldTrigger(meta.chunkIndex, interval)
      ensures
        var sent := old(outbox) + Broadcast(Sockets(active, sessionId), ChunkTranscribed(meta), failingChunk);
        var dataDir := SessionDataDir(active, sessionId);
        var notes := if triggered then LiveNotesResult(old(files), dataDir, chunks, generator) else None;
        files == FilesAfterNotes(old(files), dataDir, notes)
        && outbox == sent + (if notes.Some? then Broadcast(Sockets(active, sessionId), LiveNotesUpdated(notes.value), failingNotes) else [])
    {
      SendToAll(sessionId, ChunkTranscribed(meta), failingChunk);
      triggered := ShouldTrigger(meta.chunkIndex, interval);
      if triggered {
        var _ := TriggerLiveNotes(sessionId, chunks, generator, failingNotes);
      }
    }
  }
}
