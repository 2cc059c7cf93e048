/** The chunked-recording bookkeeping of `app/recording/worker.py`.

    The lock-guarded sections of the source (the audio callback, the read of the sample
    counter, the buffer snapshot) are modelled as atomic steps; the producer's appends that
    can fall between the counter read and the snapshot of one polling round are an explicit
    parameter of that round. Times are integer sample offsets. Transcription together with
    the database insert is an oracle that returns the segments, or `None` when it raises. */
module Recording {
  import opened Wrappers
  import opened Text
  import opened AudioUtils

  /** One mono audio sample (a float32 in the source). */
  type Sample = real

  /** One segment as the transcriber returns it. */
  datatype Segment = Segment(start: real, end: real, text: string, confidence: real)

  /** Transcription of a chunk followed by the insert of its row, as an oracle: the
      segments for each chunk audio on which both succeed; on any other audio one of
      them raises. */
  type Transcriber = map<seq<Sample>, seq<Segment>>

  /** The outcome of transcribing `audio` and inserting its row: `None` when that raises. */
  function Transcribe(transcriber: Transcriber, audio: seq<Sample>): (r: Option<seq<Segment>>)
    ensures r.Some? <==> audio in transcriber
    ensures r.Some? ==> r.value == transcriber[audio]
  {
    if audio in transcriber then Some(transcriber[audio]) else None
  }

  /** A processed chunk: the values of its `transcript_chunks` row and of the metadata
      handed to every listener. `startOffset`/`endOffset` are sample offsets. */
  datatype Chunk = Chunk(
    sessionId: int,
    chunkIndex: nat,
    startOffset: nat,
    endOffset: nat,
    text: string,
    segments: seq<Segment>)

  /** A registered `on_chunk_transcribed` callback; `raises` says whether calling it throws. */
  datatype Listener = Listener(id: nat, raises: bool)

  /** One callback invocation and whether it raised. */
  datatype Delivery = Delivery(listener: nat, meta: Chunk, raised: bool)

  /** One audio-callback invocation: the copied block and the reported frame count. */
  datatype Block = Block(data: seq<Sample>, frames: nat)

  /** `np.concatenate(buffer).flatten()`: the blocks back to back. */
  function Flatten(blocks: seq<seq<Sample>>): seq<Sample>
  {
    if |blocks| == 0 then [] else Flatten(blocks[..|blocks| - 1]) + blocks[|blocks| - 1]
  }

  /** Sum of the block lengths. */
  function BlockLengths(blocks: seq<seq<Sample>>): nat
  {
    if |blocks| == 0 then 0 else BlockLengths(blocks[..|blocks| - 1]) + |blocks[|blocks| - 1]|
  }

  /** The data of some audio-callback invocations, in order. */
  function BlockData(arrivals: seq<Block>): seq<seq<Sample>>
  {
    if |arrivals| == 0 then [] else BlockData(arrivals[..|arrivals| - 1]) + [arrivals[|arrivals| - 1].data]
  }

  /** The frame counts of some audio-callback invocations, summed. */
  function FrameSum(arrivals: seq<Block>): nat
  {
    if |arrivals| == 0 then 0 else FrameSum(arrivals[..|arrivals| - 1]) + arrivals[|arrivals| - 1].frames
  }

  /** Every invocation reports as many frames as its block holds. */
  predicate ExactFrames(arrivals: seq<Block>)
  {
    forall k :: 0 <= k < |arrivals| ==> arrivals[k].frames == |arrivals[k].data|
  }

  /** The segment texts, in order. */
  function SegmentTexts(segments: seq<Segment>): (texts: seq<string>)
    ensures |texts| == |segments|
    ensures forall i :: 0 <= i < |segments| ==> texts[i] == segments[i].text
  {
    if |segments| == 0 then [] else [segments[0].text] + SegmentTexts(segments[1..])
  }

  /** A chunk's text: `" ".join(seg["text"] for seg in segments)`. */
  function ChunkText(segments: seq<Segment>): string
  {
    Join(" ", SegmentTexts(segments))
  }

  /** The invocations of one firing of the callbacks: every listener, in registration
      order, receives the metadata, whether or not an earlier one raised. */
  function Notify(listeners: seq<Listener>, meta: Chunk): seq<Delivery>
  {
    if |listeners| == 0 then []
    else
      var last := listeners[|listeners| - 1];
      Notify(listeners[..|listeners| - 1], meta) + [Delivery(last.id, meta, last.raises)]
  }

  /** A raising listener stops nobody: listener `i` receives the metadata as invocation
      `i`, for every `i`, whatever the listeners before it did. */
  lemma {:induction false} NotifyEach(listeners: seq<Listener>, meta: Chunk)
    ensures |Notify(listeners, meta)| == |listeners|
    ensures forall i :: 0 <= i < |listeners| ==>
      Notify(listeners, meta)[i] == Delivery(listeners[i].id, meta, listeners[i].raises)
  {
    if |listeners| > 0 {
      NotifyEach(listeners[..|listeners| - 1], meta);
    }
  }

  /** The invocations of the callbacks for several chunks, chunk after chunk. */
  function NotifyAll(listeners: seq<Listener>, metas: seq<Chunk>): seq<Delivery>
  {
    if |metas| == 0 then [] else NotifyAll(listeners, metas[..|metas| - 1]) + Notify(listeners, metas[|metas| - 1])
  }

  /** The chunk log covers `[0, end)` without gap or overlap: indices are 0, 1, 2, ...,
      the first chunk starts at 0, each later one where the previous ended, and the
      last ends at `end`. */
  ghost predicate Contiguous(rows: seq<Chunk>, end: nat)
  {
    (forall k :: 0 <= k < |rows| ==>
       rows[k].chunkIndex == k && rows[k].startOffset <= rows[k].endOffset <= end)
    && (forall j, k :: 0 <= j && k == j + 1 < |rows| ==> rows[k].startOffset == rows[j].endOffset)
    && (if |rows| == 0 then end == 0 else rows[0].startOffset == 0 && rows[|rows| - 1].endOffset == end)
  }

  /** The window lies inside the snapshot. */
  predicate Fits(b: Boundary, audio: seq<Sample>)
  {
    0 <= b.start <= b.end <= |audio|
  }

  /** The chunk that processing window `b` of `audio` yields when transcription succeeds. */
  function ChunkFor(sessionId: int, index: nat, b: Boundary, audio: seq<Sample>,
                    transcriber: Transcriber): Chunk
    requires Fits(b, audio) && Transcribe(transcriber, audio[b.start..b.end]).Some?
  {
    var segments := Transcribe(transcriber, audio[b.start..b.end]).value;
    Chunk(sessionId, index, b.start, b.end, ChunkText(segments), segments)
  }

  /** The chunks one polling round emitted: chunk `j` is window `j` of the round, inside
      the snapshot, successfully transcribed, and stamped with index `firstIndex + j`
      (`RoundLogAt`). */
  ghost predicate RoundLog(chunks: seq<Chunk>, bounds: seq<Boundary>, audio: seq<Sample>,
                           transcriber: Transcriber, sessionId: int, firstIndex: nat)
  {
    |chunks| == |bounds|
    && (|bounds| > 0 ==>
          var n := |bounds| - 1;
          RoundLog(chunks[..n], bounds[..n], audio, transcriber, sessionId, firstIndex)
          && Fits(bounds[n], audio) && Transcribe(transcriber, audio[bounds[n].start..bounds[n].end]).Some?
          && chunks[n] == ChunkFor(sessionId, firstIndex + n, bounds[n], audio, transcriber))
  }

  /** Logging the chunk of boundary `i` extends the round's log by one. */
  lemma RoundLogSnoc(chunks: seq<Chunk>, bounds: seq<Boundary>, i: nat, meta: Chunk, audio: seq<Sample>,
                     transcriber: Transcriber, sessionId: int, firstIndex: nat)
    requires i < |bounds| && RoundLog(chunks, bounds[..i], audio, transcriber, sessionId, firstIndex)
    requires Fits(bounds[i], audio) && Transcribe(transcriber, audio[bounds[i].start..bounds[i].end]).Some?
    requires meta == ChunkFor(sessionId, firstIndex + i, bounds[i], audio, transcriber)
    ensures RoundLog(chunks + [meta], bounds[..i + 1], audio, transcriber, sessionId, firstIndex)
  {
    assert (chunks + [meta])[..|chunks|] == chunks;
    assert bounds[..i + 1][..i] == bounds[..i];
  }

  lemma AppendAssoc<T>(a: seq<T>, b: seq<T>, x: T)
    ensures (a + b) + [x] == a + (b + [x])
  {
  }

  lemma DropAppend<T>(a: seq<T>, b: seq<T>)
    ensures (a + b)[|a|..] == b
  {
  }

  /** What `RoundLog` says about each chunk. */
  lemma {:induction false} RoundLogAt(chunks: seq<Chunk>, bounds: seq<Boundary>, audio: seq<Sample>,
                                      transcriber: Transcriber, sessionId: int, firstIndex: nat, j: nat)
    requires RoundLog(chunks, bounds, audio, transcriber, sessionId, firstIndex)
    requires j < |bounds|
    ensures |chunks| == |bounds|
    ensures Fits(bounds[j], audio) && Transcribe(transcriber, audio[bounds[j].start..bounds[j].end]).Some?
    ensures chunks[j] == ChunkFor(sessionId, firstIndex + j, bounds[j], audio, transcriber)
    decreases |bounds|
  {
    var n := |bounds| - 1;
    if j < n {
      RoundLogAt(chunks[..n], bounds[..n], audio, transcriber, sessionId, firstIndex, j);
      assert chunks[..n][j] == chunks[j] && bounds[..n][j] == bounds[j];
    }
  }

  lemma NotifyAllSnoc(listeners: seq<Listener>, metas: seq<Chunk>, meta: Chunk)
    ensures NotifyAll(listeners, metas + [meta]) == NotifyAll(listeners, metas) + Notify(listeners, meta)
  {
    assert (metas + [meta])[..|metas|] == metas;
  }

  /** The worker's chunk bookkeeping and its outputs, as values. */
  datatype Progress = Progress(
    rows: seq<Chunk>,
    chunkIndex: nat,
    lastChunkEnd: nat,
    deliveries: seq<Delivery>,
    wavFiles: map<nat, seq<Sample>>)

  /** Progress `p` is that of a polling round which began at `p0` and has processed and
      logged the first `i` of its `bounds` as `log`. */
  ghost predicate InRound(p: Progress, p0: Progress, log: seq<Chunk>, i: nat, bounds: seq<Boundary>,
                          audio: seq<Sample>, transcriber: Transcriber, sessionId: int, listeners: seq<Listener>)
  {
    i <= |bounds| && |log| == i
    && p.rows == p0.rows + log
    && p.chunkIndex == p0.chunkIndex + i
    && p.lastChunkEnd == (if i == 0 then p0.lastChunkEnd else bounds[i - 1].end)
    && RoundLog(log, bounds[..i], audio, transcriber, sessionId, p0.chunkIndex)
    && p.deliveries == p0.deliveries + NotifyAll(listeners, log)
    && WavsWithin(p.wavFiles, p0.wavFiles, p0.chunkIndex, p.chunkIndex)
  }

  /** The WAV files `wavs` differ from `wavs0` at most in the indices `lo .. hi`. */
  ghost predicate WavsWithin(wavs: map<nat, seq<Sample>>, wavs0: map<nat, seq<Sample>>, lo: nat, hi: nat)
  {
    (forall k :: k in wavs && k !in wavs0 ==> lo <= k <= hi)
    && (forall k :: k in wavs0 && !(lo <= k <= hi) ==> k in wavs && wavs[k] == wavs0[k])
  }

  /** Writing file `hi` keeps the files within `lo .. hi + 1`. */
  lemma WavsWithinWrite(wavs: map<nat, seq<Sample>>, wavs0: map<nat, seq<Sample>>, lo: nat, hi: nat,
                        data: seq<Sample>)
    requires lo <= hi && WavsWithin(wavs, wavs0, lo, hi)
    ensures WavsWithin(wavs[hi := data], wavs0, lo, hi + 1)
  {
  }

  /** A round starts with nothing processed. */
  lemma InRoundStart(p: Progress, bounds: seq<Boundary>, audio: seq<Sample>, transcriber: Transcriber,
                     sessionId: int, listeners: seq<Listener>)
    ensures InRound(p, p, [], 0, bounds, audio, transcriber, sessionId, listeners)
  {
    assert p.rows + [] == p.rows && bounds[..0] == [];
  }

  /** A processed boundary advances the round by one. */
  lemma InRoundAdvance(p: Progress, p0: Progress, log: seq<Chunk>, i: nat, bounds: seq<Boundary>,
                       audio: seq<Sample>, transcriber: Transcriber, sessionId: int, listeners: seq<Listener>)
    requires InRound(p, p0, log, i, bounds, audio, transcriber, sessionId, listeners)
    requires i < |bounds| && Fits(bounds[i], audio)
    requires Transcribe(transcriber, audio[bounds[i].start..bounds[i].end]).Some?
    ensures
      var meta := ChunkFor(sessionId, p.chunkIndex, bounds[i], audio, transcriber);
      var p' := Progress(p.rows + [meta], p.chunkIndex + 1, bounds[i].end,
                         p.deliveries + Notify(listeners, meta),
                         p.wavFiles[p.chunkIndex := audio[bounds[i].start..bounds[i].end]]);
      InRound(p', p0, log + [meta], i + 1, bounds, audio, transcriber, sessionId, listeners)
  {
    var meta := ChunkFor(sessionId, p.chunkIndex, bounds[i], audio, transcriber);
    RoundLogSnoc(log, bounds, i, meta, audio, transcriber, sessionId, p0.chunkIndex);
    NotifyAllSnoc(listeners, log, meta);
    AppendAssoc(p0.rows, log, meta);
    WavsWithinWrite(p.wavFiles, p0.wavFiles, p0.chunkIndex, p.chunkIndex, audio[bounds[i].start..bounds[i].end]);
  }

  /** A boundary whose processing raised leaves the round where it was, but for its WAV file. */
  lemma InRoundFailed(p: Progress, p0: Progress, log: seq<Chunk>, i: nat, bounds: seq<Boundary>,
                      audio: seq<Sample>, transcriber: Transcriber, sessionId: int, listeners: seq<Listener>,
                      wav: seq<Sample>)
    requires InRound(p, p0, log, i, bounds, audio, transcriber, sessionId, listeners)
    ensures InRound(p.(wavFiles := p.wavFiles[p.chunkIndex := wav]), p0, log, i, bounds,
                    audio, transcriber, sessionId, listeners)
  {
  }

  /** The audio of the first `n` chunk files, back to back. */
  function WavConcat(wavs: map<nat, seq<Sample>>, n: nat): seq<Sample>
    requires forall k :: 0 <= k < n ==> k in wavs
  {
    if n == 0 then [] else WavConcat(wavs, n - 1) + wavs[n - 1]
  }

  /** The chunk log and its WAV files account for the first `end` samples of `audio`:
      the log is contiguous up to `end`, each file is as long as its chunk's range, and the
      files back to back are `audio[..end]`. */
  ghost predicate LogCovers(rows: seq<Chunk>, wavs: map<nat, seq<Sample>>, audio: seq<Sample>, end: nat)
  {
    end <= |audio|
    && Contiguous(rows, end)
    && (forall k :: 0 <= k < |rows| ==> k in wavs && |wavs[k]| == rows[k].endOffset - rows[k].startOffset)
    && WavConcat(wavs, |rows|) == audio[..end]
  }

  /** The log of session `sessionId` holds the chunks `0 .. chunkIndex - 1`, all of that
      session, and accounts for the first `end` samples of `audio`. */
  ghost predicate Logged(sessionId: int, chunkIndex: nat, rows: seq<Chunk>, wavs: map<nat, seq<Sample>>,
                         audio: seq<Sample>, end: nat)
  {
    chunkIndex == |rows|
    && (forall k :: 0 <= k < |rows| ==> rows[k].sessionId == sessionId)
    && LogCovers(rows, wavs, audio, end)
  }

  class RecordingWorker {
    const sessionId: int
    const sessionDir: string
    const sampleRate: nat
    /** `sample_rate * chunk_duration_seconds`. */
    const samplesPerChunk: nat

    // Audio buffer, guarded by the lock in the source.
    var buffer: seq<seq<Sample>>
    var totalSamples: nat

    // Chunk bookkeeping, written only by the worker thread.
    var lastChunkEnd: nat
    var chunkIndex: nat

    var running: bool
    var callbacks: seq<Listener>

    /** `audio/chunk_NNNN.wav`, keyed by NNNN. */
    var wavFiles: map<nat, seq<Sample>>
    /** The session's rows of `transcript_chunks`, in insertion order. */
    var rows: seq<Chunk>
    /** Every callback invocation so far. */
    var deliveries: seq<Delivery>

    /** The bookkeeping invariant: one row per processed chunk, indices 0, 1, 2, ...,
        chunk ranges tile `[0, lastChunkEnd)`, each chunk's WAV file is as long as its
        range, and the WAV files back to back are the first `lastChunkEnd` captured
        samples (so each file holds exactly its range, `ChunkAudio`). */
    ghost predicate Valid()
      reads this`buffer, this`lastChunkEnd, this`chunkIndex, this`wavFiles, this`rows
    {
      sampleRate > 0 && samplesPerChunk > 0
      && Logged(sessionId, chunkIndex, rows, wavFiles, Flatten(buffer), lastChunkEnd)
    }

    /** The sample counter agrees with the buffer. */
    ghost predicate Consistent()
      reads this`buffer, this`totalSamples
    {
      totalSamples == BlockLengths(buffer)
    }

    constructor (sessionId: int, sessionDir: string, sampleRate: nat, chunkDurationSeconds: nat)
      requires sampleRate > 0 && chunkDurationSeconds > 0
      ensures Valid() && Consistent()
      ensures this.sessionId == sessionId && this.sessionDir == sessionDir
      ensures this.sampleRate == sampleRate && samplesPerChunk == sampleRate * chunkDurationSeconds
      ensures buffer == [] && totalSamples == 0 && lastChunkEnd == 0 && chunkIndex == 0
      ensures !running && callbacks == [] && wavFiles == map[] && rows == [] && deliveries == []
    {
      this.sessionId := sessionId;
      this.sessionDir := sessionDir;
      this.sampleRate := sampleRate;
      samplesPerChunk := sampleRate * chunkDurationSeconds;
      buffer := [];
      totalSamples := 0;
      lastChunkEnd := 0;
      chunkIndex := 0;
      running := false;
      callbacks := [];
      wavFiles := map[];
      rows := [];
      deliveries := [];
    }

    /** `on_chunk_transcribed`: register a listener after the existing ones. */
    method OnChunkTranscribed(fn: Listener)
      requires Valid()
      modifies this`callbacks
      ensures Valid()
      ensures callbacks == old(callbacks) + [fn]
      ensures buffer == old(buffer) && totalSamples == old(totalSamples) && running == old(running)
      ensures Snapshot() == old(Snapshot())
    {
      ghost var audio := Flatten(buffer);
      callbacks := callbacks + [fn];
      assert Flatten(buffer) == audio;
    }

    /** `start`: the running flag is raised before the input stream is opened, so it stays
        raised when opening fails (`streamOpens` false, the source raises). */
    method Start(streamOpens: bool) returns (ok: bool)
      requires Valid()
      modifies this`running
      ensures Valid()
      ensures running && ok == streamOpens
      ensures buffer == old(buffer) && totalSamples == old(totalSamples) && callbacks == old(callbacks)
      ensures Snapshot() == old(Snapshot())
    {
      ghost var audio := Flatten(buffer);
      running := true;
      ok := streamOpens;
      assert Flatten(buffer) == audio;
    }

    /** `_audio_callback`: add the copied block and `frames` to the counter. */
    method AudioCallback(indata: seq<Sample>, frames: nat)
      requires Valid()
      modifies this
      ensures Valid()
      ensures buffer == old(buffer) + [indata] && totalSamples == old(totalSamples) + frames
      ensures old(Consistent()) && frames == |indata| ==> Consistent()
      ensures running == old(running) && callbacks == old(callbacks)
      ensures Snapshot() == old(Snapshot())
    {
      FlattenSnoc(buffer, indata);
      LogCoversGrow(rows, wavFiles, Flatten(buffer), indata, lastChunkEnd);
      LengthsSnoc(buffer, indata);
      buffer := buffer + [indata];
      totalSamples := totalSamples + frames;
    }

    /** The audio callbacks that run while one polling round is between reading the
        counter and taking the snapshot. */
    method AudioCallbacks(arrivals: seq<Block>)
      requires Valid()
      modifies this
      ensures Valid()
      ensures buffer == old(buffer) + BlockData(arrivals)
      ensures totalSamples == old(totalSamples) + FrameSum(arrivals)
      ensures old(Consistent()) && ExactFrames(arrivals) ==> Consistent()
      ensures running == old(running) && callbacks == old(callbacks)
      ensures Snapshot() == old(Snapshot())
    {
      var i := 0;
      while i < |arrivals|
        invariant 0 <= i <= |arrivals|
        invariant Valid()
        invariant buffer == old(buffer) + BlockData(arrivals[..i])
        invariant totalSamples == old(totalSamples) + FrameSum(arrivals[..i])
        invariant old(Consistent()) && ExactFrames(arrivals) ==> Consistent()
        invariant running == old(running) && callbacks == old(callbacks)
        invariant Snapshot() == old(Snapshot())
      {
        AudioCallback(arrivals[i].data, arrivals[i].frames);
        assert arrivals[..i + 1][..i] == arrivals[..i];
        i := i + 1;
      }
      assert arrivals[..i] == arrivals;
    }

    /** `_process_single_chunk`: write the WAV file, transcribe, insert the row, fire the
        callbacks. The chunk carries the current (not yet incremented) index and starts at
        `lastChunkEnd`. When transcription or the insert raises, only the WAV file has been
        written. The bookkeeping fields are left for the caller to advance. */
    method ProcessSingleChunk(samples: seq<Sample>, transcriber: Transcriber)
      returns (ok: bool)
      modifies this
      ensures buffer == old(buffer) && totalSamples == old(totalSamples) && running == old(running)
      ensures lastChunkEnd == old(lastChunkEnd) && chunkIndex == old(chunkIndex) && callbacks == old(callbacks)
      ensures wavFiles == old(wavFiles)[chunkIndex := samples]
      ensures ok <==> Transcribe(transcriber, samples).Some?
      ensures ok ==>
        var meta := Chunk(sessionId, chunkIndex, lastChunkEnd, lastChunkEnd + |samples|,
                          ChunkText(Transcribe(transcriber, samples).value), Transcribe(transcriber, samples).value);
        rows == old(rows) + [meta] && deliveries == old(deliveries) + Notify(callbacks, meta)
      ensures !ok ==> rows == old(rows) && deliveries == old(deliveries)
    {
      wavFiles := wavFiles[chunkIndex := samples];
      var transcript := Transcribe(transcriber, samples);
      if transcript.None? {
        return false;
      }
      var segments := transcript.value;
      var meta := Chunk(sessionId, chunkIndex, lastChunkEnd, lastChunkEnd + |samples|,
                        ChunkText(segments), segments);
      rows := rows + [meta];
      var i := 0;
      while i < |callbacks|
        invariant 0 <= i <= |callbacks|
        invariant deliveries == old(deliveries) + Notify(callbacks[..i], meta)
        invariant buffer == old(buffer) && totalSamples == old(totalSamples) && running == old(running)
        invariant lastChunkEnd == old(lastChunkEnd) && chunkIndex == old(chunkIndex) && callbacks == old(callbacks)
        invariant wavFiles == old(wavFiles)[chunkIndex := samples] && rows == old(rows) + [meta]
      {
        // a listener that raises is ignored and the next one still runs
        deliveries := deliveries + [Delivery(callbacks[i].id, meta, callbacks[i].raises)];
        assert callbacks[..i + 1][..i] == callbacks[..i];
        i := i + 1;
      }
      assert callbacks[..i] == callbacks;
      ok := true;
    }

    /** Process window `b` of the snapshot `audio`, which starts where the last chunk
        ended, and advance the bookkeeping to its end only when processing succeeded: the
        step shared by the polling loop and the final flush. */
    method ProcessWindow(b: Boundary, audio: seq<Sample>, transcriber: Transcriber)
      returns (ok: bool)
      requires Valid() && audio == Flatten(buffer)
      requires b.start == lastChunkEnd && b.start <= b.end <= |audio|
      modifies this
      ensures Valid()
      ensures buffer == old(buffer) && totalSamples == old(totalSamples) && running == old(running)
      ensures callbacks == old(callbacks)
      ensures ok <==> Transcribe(transcriber, audio[b.start..b.end]).Some?
      ensures ok ==>
        var meta := ChunkFor(sessionId, old(chunkIndex), b, audio, transcriber);
        Snapshot() == Progress(old(rows) + [meta], old(chunkIndex) + 1, b.end,
                               old(deliveries) + Notify(callbacks, meta),
                               old(wavFiles)[old(chunkIndex) := audio[b.start..b.end]])
      ensures !ok ==>
        Snapshot() == old(Snapshot()).(wavFiles := old(wavFiles)[old(chunkIndex) := audio[b.start..b.end]])
    {
      ghost var oldRows, oldWavs := rows, wavFiles;
      var samples := audio[b.start..b.end];
      ok := ProcessSingleChunk(samples, transcriber);
      if !ok {
        LoggedOverwrite(sessionId, oldRows, oldWavs, audio, lastChunkEnd, samples);
        return;
      }
      ghost var meta := ChunkFor(sessionId, chunkIndex, b, audio, transcriber);
      assert rows == oldRows + [meta];
      LoggedExtend(sessionId, oldRows, oldWavs, audio, lastChunkEnd, meta, b.end);
      lastChunkEnd := b.end;
      chunkIndex := chunkIndex + 1;
    }

    /** The loop of `_maybe_process_chunks` over the round's boundaries, which tile the
        audio from `lastChunkEnd` on: each is processed on its slice of the snapshot
        `audio`, and the bookkeeping advances only after a chunk was processed. The loop
        ends at the first boundary beyond the snapshot or, with `ok` false, at the first
        chunk whose processing raised. */
    method ProcessRound(bounds: seq<Boundary>, audio: seq<Sample>, transcriber: Transcriber)
      returns (ok: bool)
      requires Valid() && audio == Flatten(buffer)
      requires |bounds| > 0 ==> bounds[0].start == lastChunkEnd
      requires forall j, k :: 0 <= j && k == j + 1 < |bounds| ==> bounds[k].start == bounds[j].end
      requires forall j :: 0 <= j < |bounds| ==> bounds[j].start <= bounds[j].end
      modifies this
      ensures Valid()
      ensures buffer == old(buffer) && totalSamples == old(totalSamples)
      ensures running == old(running) && callbacks == old(callbacks)
      ensures |old(rows)| <= |rows|
      ensures InRound(Snapshot(), old(Snapshot()), rows[|old(rows)|..], |rows| - |old(rows)|,
                      bounds, audio, transcriber, sessionId, callbacks)
      ensures ok && |rows| - |old(rows)| < |bounds| ==> bounds[|rows| - |old(rows)|].end > |audio|
      ensures !ok ==>
        |rows| - |old(rows)| < |bounds|
        && var b := bounds[|rows| - |old(rows)|];
           Fits(b, audio) && Transcribe(transcriber, audio[b.start..b.end]).None?
    {
      ghost var log: seq<Chunk> := [];
      InRoundStart(Snapshot(), bounds, audio, transcriber, sessionId, callbacks);
      ok := true;
      var i := 0;
      while i < |bounds|
        invariant 0 <= i <= |bounds|
        invariant Valid() && InRound(Snapshot(), old(Snapshot()), log, i, bounds, audio, transcriber,
                                     sessionId, callbacks)
        invariant buffer == old(buffer) && totalSamples == old(totalSamples)
        invariant running == old(running) && callbacks == old(callbacks)
        invariant ok
      {
        var b := bounds[i];
        if b.end > |audio| {
          break;  // the counter ran ahead of the materialised buffer
        }
        ok, log := RoundStep(bounds, i, audio, transcriber, log, old(Snapshot()));
        if !ok {
          break;  // the exception propagates out of the round
        }
        i := i + 1;
      }
      DropAppend(old(rows), log);
    }

    /** The bookkeeping fields and outputs as a value. */
    ghost function Snapshot(): (p: Progress)
      reads this`rows, this`chunkIndex, this`lastChunkEnd, this`deliveries, this`wavFiles
      ensures p.rows == rows && p.chunkIndex == chunkIndex && p.lastChunkEnd == lastChunkEnd
      ensures p.deliveries == deliveries && p.wavFiles == wavFiles
    {
      Progress(rows, chunkIndex, lastChunkEnd, deliveries, wavFiles)
    }

    /** One iteration of the polling loop on boundary `i`, which lies in the snapshot. */
    method RoundStep(bounds: seq<Boundary>, i: nat, audio: seq<Sample>, transcriber: Transcriber,
                     ghost log: seq<Chunk>, ghost p0: Progress)
      returns (ok: bool, ghost log': seq<Chunk>)
      requires Valid() && audio == Flatten(buffer)
      requires InRound(Snapshot(), p0, log, i, bounds, audio, transcriber, sessionId, callbacks)
      requires i < |bounds| && bounds[i].start == lastChunkEnd && bounds[i].start <= bounds[i].end <= |audio|
      modifies this
      ensures Valid()
      ensures buffer == old(buffer) && totalSamples == old(totalSamples)
      ensures running == old(running) && callbacks == old(callbacks)
      ensures ok ==> InRound(Snapshot(), p0, log', i + 1, bounds, audio, transcriber, sessionId, callbacks)
      ensures !ok ==> InRound(Snapshot(), p0, log, i, bounds, audio, transcriber, sessionId, callbacks)
      ensures !ok ==> Transcribe(transcriber, audio[bounds[i].start..bounds[i].end]).None?
    {
      ghost var p := Snapshot();
      ghost var wav := audio[bounds[i].start..bounds[i].end];
      ok := ProcessWindow(bounds[i], audio, transcriber);
      if !ok {
        assert Snapshot() == p.(wavFiles := p.wavFiles[p.chunkIndex := wav]);
        InRoundFailed(p, p0, log, i, bounds, audio, transcriber, sessionId, callbacks, wav);
        log' := log;
        return;
      }
      ghost var meta := ChunkFor(sessionId, p.chunkIndex, bounds[i], audio, transcriber);
      assert Snapshot() == Progress(p.rows + [meta], p.chunkIndex + 1, bounds[i].end,
                                    p.deliveries + Notify(callbacks, meta), p.wavFiles[p.chunkIndex := wav]);
      InRoundAdvance(p, p0, log, i, bounds, audio, transcriber, sessionId, callbacks);
      log' := log + [meta];
    }

    /** `_maybe_process_chunks`, one polling round. `arrivals` are the audio callbacks that
        run between the counter read and the snapshot. The boundaries are those of the
        counter read at the start; they are processed in order, each on exactly its slice of
        the snapshot, and the bookkeeping advances only after a chunk was processed. The round
        ends at the first boundary beyond the snapshot (nothing after it is processed, nothing
        before it skipped) or, with `ok` false, at the first chunk whose processing raised. */
    method MaybeProcessChunks(transcriber: Transcriber, arrivals: seq<Block>)
      returns (ok: bool)
      requires Valid()
      modifies this
      ensures Valid()
      ensures buffer == old(buffer) + BlockData(arrivals)
      ensures totalSamples == old(totalSamples) + FrameSum(arrivals)
      ensures old(Consistent()) && ExactFrames(arrivals) ==> Consistent()
      ensures running == old(running) && callbacks == old(callbacks)
      ensures |old(rows)| <= |rows|
      ensures InRound(Snapshot(), old(Snapshot()), rows[|old(rows)|..], |rows| - |old(rows)|,
                      Windows(old(totalSamples), old(lastChunkEnd), samplesPerChunk), Flatten(buffer),
                      transcriber, sessionId, callbacks)
      ensures
        var bounds := Windows(old(totalSamples), old(lastChunkEnd), samplesPerChunk);
        var n := |rows| - |old(rows)|;
        (bounds == [] || buffer == [] ==> n == 0 && ok)
        && (ok && n < |bounds| ==> buffer == [] || bounds[n].end > |Flatten(buffer)|)
        && (!ok ==> n < |bounds| && Fits(bounds[n], Flatten(buffer))
                    && Transcribe(transcriber, Flatten(buffer)[bounds[n].start..bounds[n].end]).None?)
    {
      // read the sample counter under the lock
      var total := totalSamples;
      var bounds := ComputeChunkBoundaries(total, lastChunkEnd, samplesPerChunk);
      AudioCallbacks(arrivals);
      // `arrivals` are the blocks the producer appends between the counter read and the snapshot;
      // the snapshot, taken under the lock, is skipped when the buffer is empty
      if bounds == [] || buffer == [] {
        InRoundStart(Snapshot(), bounds, Flatten(buffer), transcriber, sessionId, callbacks);
        assert rows[|old(rows)|..] == [];
        return true;
      }
      ok := ProcessRound(bounds, Flatten(buffer), transcriber);
    }

    /** `_flush_remaining`: after the loop has stopped, the remainder after `lastChunkEnd`
        becomes one final chunk, unless the buffer is empty or the remainder is shorter than
        one second (`sampleRate` samples). The final chunk ends at the end of the snapshot. */
    method FlushRemaining(transcriber: Transcriber) returns (ok: bool)
      requires Valid()
      modifies this
      ensures Valid()
      ensures buffer == old(buffer) && totalSamples == old(totalSamples)
      ensures running == old(running) && callbacks == old(callbacks)
      ensures buffer == [] || |Flatten(buffer)| - old(lastChunkEnd) < sampleRate ==>
        ok && Snapshot() == old(Snapshot())
      ensures buffer != [] && |Flatten(buffer)| - old(lastChunkEnd) >= sampleRate ==>
        var audio := Flatten(buffer);
        var rest := Boundary(old(lastChunkEnd), |audio|);
        wavFiles == old(wavFiles)[old(chunkIndex) := audio[rest.start..rest.end]]
        && (ok <==> Transcribe(transcriber, audio[rest.start..rest.end]).Some?)
        && (ok ==>
              var meta := ChunkFor(sessionId, old(chunkIndex), rest, audio, transcriber);
              rows == old(rows) + [meta] && deliveries == old(deliveries) + Notify(callbacks, meta)
              && lastChunkEnd == |audio| && chunkIndex == old(chunkIndex) + 1)
        && (!ok ==>
              rows == old(rows) && deliveries == old(deliveries)
              && lastChunkEnd == old(lastChunkEnd) && chunkIndex == old(chunkIndex))
    {
      if buffer == [] {
        return true;
      }
      var fullAudio := Flatten(buffer);
      var remaining := fullAudio[lastChunkEnd..];
      if |remaining| < sampleRate {
        return true;
      }
      // process the remainder as one chunk; the bookkeeping then moves to the end
      ok := ProcessWindow(Boundary(lastChunkEnd, |fullAudio|), fullAudio, transcriber);
    }

    /** `stop`: lower the running flag, then flush (the stream and the thread join are
        outside the model). */
    method Stop(transcriber: Transcriber) returns (ok: bool)
      requires Valid()
      modifies this
      ensures Valid() && !running
      ensures buffer == old(buffer) && totalSamples == old(totalSamples) && callbacks == old(callbacks)
      ensures buffer == [] || |Flatten(buffer)| - old(lastChunkEnd) < sampleRate ==>
        ok && Snapshot() == old(Snapshot())
      ensures buffer != [] && |Flatten(buffer)| - old(lastChunkEnd) >= sampleRate ==>
        var audio := Flatten(buffer);
        var rest := Boundary(old(lastChunkEnd), |audio|);
        wavFiles == old(wavFiles)[old(chunkIndex) := audio[rest.start..rest.end]]
        && (ok <==> Transcribe(transcriber, audio[rest.start..rest.end]).Some?)
        && (ok ==>
              var meta := ChunkFor(sessionId, old(chunkIndex), rest, audio, transcriber);
              rows == old(rows) + [meta] && deliveries == old(deliveries) + Notify(callbacks, meta)
              && lastChunkEnd == |audio| && chunkIndex == old(chunkIndex) + 1)
        && (!ok ==>
              rows == old(rows) && deliveries == old(deliveries)
              && lastChunkEnd == old(lastChunkEnd) && chunkIndex == old(chunkIndex))
    {
      running := false;
      ok := FlushRemaining(transcriber);
    }
  }

  // ---------------------------------------------------------------
  // Lemmas about the buffer and the chunk log
  // ---------------------------------------------------------------

  lemma FlattenSnoc(blocks: seq<seq<Sample>>, b: seq<Sample>)
    ensures Flatten(blocks + [b]) == Flatten(blocks) + b
  {
    assert (blocks + [b])[..|blocks|] == blocks;
  }

  /** When every invocation reports its block's length, the frames they add are the
      samples they append: a consistent counter stays consistent over a batch. */
  lemma {:induction false} FrameSumExact(arrivals: seq<Block>)
    requires ExactFrames(arrivals)
    ensures FrameSum(arrivals) == BlockLengths(BlockData(arrivals))
  {
    if |arrivals| > 0 {
      var init := arrivals[..|arrivals| - 1];
      assert ExactFrames(init) by {
        forall k | 0 <= k < |init| ensures init[k].frames == |init[k].data| {
          assert init[k] == arrivals[k];
        }
      }
      FrameSumExact(init);
      LengthsSnoc(BlockData(init), arrivals[|arrivals| - 1].data);
    }
  }

  /** The sum of block lengths adds up over concatenation. */
  lemma {:induction false} LengthsAppend(a: seq<seq<Sample>>, b: seq<seq<Sample>>)
    ensures BlockLengths(a + b) == BlockLengths(a) + BlockLengths(b)
    decreases |b|
  {
    if |b| > 0 {
      var b' := b[..|b| - 1];
      LengthsAppend(a, b');
      assert (a + b)[..|a + b| - 1] == a + b';
      assert (a + b)[|a + b| - 1] == b[|b| - 1];
      assert b[..|b| - 1] == b';
    } else {
      assert a + b == a;
    }
  }

  lemma LengthsSnoc(blocks: seq<seq<Sample>>, b: seq<Sample>)
    ensures BlockLengths(blocks + [b]) == BlockLengths(blocks) + |b|
  {
    assert (blocks + [b])[..|blocks|] == blocks;
  }

  /** The snapshot is as long as the blocks together: under `Consistent`, the snapshot
      length is the sample counter. */
  lemma {:induction false} FlattenLength(blocks: seq<seq<Sample>>)
    ensures |Flatten(blocks)| == BlockLengths(blocks)
  {
    if |blocks| > 0 {
      FlattenLength(blocks[..|blocks| - 1]);
    }
  }

  /** Growing the buffer keeps every earlier sample where it was. */
  lemma {:induction false} FlattenPrefix(blocks: seq<seq<Sample>>, more: seq<seq<Sample>>)
    ensures |Flatten(blocks)| <= |Flatten(blocks + more)|
    ensures Flatten(blocks + more)[..|Flatten(blocks)|] == Flatten(blocks)
    decreases |more|
  {
    if |more| > 0 {
      var init := more[..|more| - 1];
      assert (blocks + more)[..|blocks + more| - 1] == blocks + init;
      FlattenPrefix(blocks, init);
    } else {
      assert blocks + more == blocks;
    }
  }

  /** In a contiguous log the chunk ranges are ordered and disjoint: a later chunk starts
      no earlier than an earlier one ends. */
  lemma {:induction false} ContiguousOrdered(rows: seq<Chunk>, end: nat, i: nat, j: nat)
    requires Contiguous(rows, end)
    requires i < j < |rows|
    ensures rows[i].endOffset <= rows[j].startOffset
    decreases j - i
  {
    if i + 1 < j {
      ContiguousOrdered(rows, end, i + 1, j);
    }
  }

  /** Dropping the last chunk of a contiguous log leaves a contiguous log up to where
      that chunk started. */
  lemma ContiguousInit(rows: seq<Chunk>, end: nat)
    requires Contiguous(rows, end) && |rows| > 0
    ensures Contiguous(rows[..|rows| - 1], rows[|rows| - 1].startOffset)
  {
    var n := |rows| - 1;
    if n > 0 {
      forall k | 0 <= k < n
        ensures rows[k].endOffset <= rows[n].startOffset
      {
        if k < n - 1 {
          ContiguousOrdered(rows, end, k, n - 1);
        }
      }
    }
  }

  /** Writing the file of chunk `n` does not change the files before it. */
  lemma {:induction false} WavConcatUpdate(wavs: map<nat, seq<Sample>>, n: nat, m: nat, data: seq<Sample>)
    requires forall k :: 0 <= k < n ==> k in wavs
    requires n <= m
    ensures WavConcat(wavs[m := data], n) == WavConcat(wavs, n)
  {
    if n > 0 {
      WavConcatUpdate(wavs, n - 1, m, data);
    }
  }

  /** More captured audio keeps the log's coverage. */
  lemma LogCoversGrow(rows: seq<Chunk>, wavs: map<nat, seq<Sample>>, audio: seq<Sample>, more: seq<Sample>, end: nat)
    requires LogCovers(rows, wavs, audio, end)
    ensures LogCovers(rows, wavs, audio + more, end)
  {
    assert (audio + more)[..end] == audio[..end];
  }

  /** Writing the file of the next, not yet logged, chunk keeps the log's account of the audio. */
  lemma LogCoversOverwrite(rows: seq<Chunk>, wavs: map<nat, seq<Sample>>, audio: seq<Sample>, end: nat,
                           wav: seq<Sample>)
    requires LogCovers(rows, wavs, audio, end)
    ensures LogCovers(rows, wavs[|rows| := wav], audio, end)
  {
    WavConcatUpdate(wavs, |rows|, |rows|, wav);
  }

  /** Recording one more chunk `[end, newEnd)` with its slice as WAV file extends the
      coverage to `newEnd`. */
  lemma LogCoversExtend(rows: seq<Chunk>, wavs: map<nat, seq<Sample>>, audio: seq<Sample>, end: nat,
                        meta: Chunk, newEnd: nat)
    requires LogCovers(rows, wavs, audio, end)
    requires end <= newEnd <= |audio|
    requires meta.chunkIndex == |rows| && meta.startOffset == end && meta.endOffset == newEnd
    ensures LogCovers(rows + [meta], wavs[|rows| := audio[end..newEnd]], audio, newEnd)
  {
    var rows' := rows + [meta];
    var wavs' := wavs[|rows| := audio[end..newEnd]];
    ContiguousSnoc(rows, end, meta, newEnd);
    WavConcatUpdate(wavs, |rows|, |rows|, audio[end..newEnd]);
    assert WavConcat(wavs', |rows'|) == WavConcat(wavs', |rows|) + audio[end..newEnd];
    assert audio[..newEnd] == audio[..end] + audio[end..newEnd];
  }

  /** Writing the file of the next chunk keeps the session's log. */
  lemma LoggedOverwrite(sessionId: int, rows: seq<Chunk>, wavs: map<nat, seq<Sample>>, audio: seq<Sample>,
                        end: nat, wav: seq<Sample>)
    requires Logged(sessionId, |rows|, rows, wavs, audio, end)
    ensures Logged(sessionId, |rows|, rows, wavs[|rows| := wav], audio, end)
  {
    LogCoversOverwrite(rows, wavs, audio, end, wav);
  }

  /** Logging the session's next chunk `[end, newEnd)` with its slice as WAV file. */
  lemma LoggedExtend(sessionId: int, rows: seq<Chunk>, wavs: map<nat, seq<Sample>>, audio: seq<Sample>,
                     end: nat, meta: Chunk, newEnd: nat)
    requires Logged(sessionId, |rows|, rows, wavs, audio, end)
    requires end <= newEnd <= |audio| && meta.sessionId == sessionId
    requires meta.chunkIndex == |rows| && meta.startOffset == end && meta.endOffset == newEnd
    ensures Logged(sessionId, |rows| + 1, rows + [meta], wavs[|rows| := audio[end..newEnd]], audio, newEnd)
  {
    LogCoversExtend(rows, wavs, audio, end, meta, newEnd);
    var rows' := rows + [meta];
    assert forall k :: 0 <= k < |rows| ==> rows'[k] == rows[k];
  }

  lemma ContiguousSnoc(rows: seq<Chunk>, end: nat, meta: Chunk, newEnd: nat)
    requires Contiguous(rows, end) && end <= newEnd
    requires meta.chunkIndex == |rows| && meta.startOffset == end && meta.endOffset == newEnd
    ensures Contiguous(rows + [meta], newEnd)
  {
    var rows' := rows + [meta];
    forall k | 0 <= k < |rows'|
      ensures rows'[k].chunkIndex == k && rows'[k].startOffset <= rows'[k].endOffset <= newEnd
    {
      if k < |rows| {
        assert rows'[k] == rows[k];
      }
    }
    forall j, k | 0 <= j && k == j + 1 < |rows'|
      ensures rows'[k].startOffset == rows'[j].endOffset
    {
      if k < |rows| {
        assert rows'[k] == rows[k] && rows'[j] == rows[j];
      } else {
        assert rows'[j] == rows[|rows| - 1];
      }
    }
  }


  /** No sample is lost or duplicated: given the reassembly invariant, each chunk's
      WAV file holds exactly the captured samples of its range. */
  lemma {:induction false} ChunkAudio(rows: seq<Chunk>, audio: seq<Sample>, wavs: map<nat, seq<Sample>>, end: nat, k: nat)
    requires LogCovers(rows, wavs, audio, end)
    requires k < |rows|
    ensures wavs[k] == audio[rows[k].startOffset..rows[k].endOffset]
    decreases |rows|
  {
    var n := |rows| - 1;
    LogCoversInit(rows, wavs, audio, end);
    if k < n {
      ChunkAudio(rows[..n], audio, wavs, rows[n].startOffset, k);
      assert rows[..n][k] == rows[k];
    }
  }

  /** Without its last chunk, the log covers the audio up to where that chunk starts, and
      the last chunk's file is the rest. */
  lemma LogCoversInit(rows: seq<Chunk>, wavs: map<nat, seq<Sample>>, audio: seq<Sample>, end: nat)
    requires LogCovers(rows, wavs, audio, end) && |rows| > 0
    ensures LogCovers(rows[..|rows| - 1], wavs, audio, rows[|rows| - 1].startOffset)
    ensures wavs[|rows| - 1] == audio[rows[|rows| - 1].startOffset..end]
  {
    var n := |rows| - 1;
    var start := rows[n].startOffset;
    ContiguousInit(rows, end);
    assert audio[..end] == audio[..start] + audio[start..end];
    assert WavConcat(wavs, |rows|) == WavConcat(wavs, n) + wavs[n];
    assert |wavs[n]| == end - start;
    assert WavConcat(wavs, n) == audio[..start];
  }


  /** For a valid worker, each chunk's WAV file is its slice of the captured audio, and
      with a consistent counter `lastChunkEnd` never exceeds `totalSamples`. */
  lemma WorkerCoverage(w: RecordingWorker, k: nat)
    requires w.Valid() && k < |w.rows|
    ensures w.wavFiles[k] == Flatten(w.buffer)[w.rows[k].startOffset..w.rows[k].endOffset]
    ensures w.Consistent() ==> w.lastChunkEnd <= w.totalSamples
  {
    ChunkAudio(w.rows, Flatten(w.buffer), w.wavFiles, w.lastChunkEnd, k);
    FlattenLength(w.buffer);
  }
}
