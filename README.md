# note-gen recording and notes core, in Dafny

This project models the core of note-gen, a lecture note generator. The app records a
lecture, cuts the audio into fixed-size chunks, transcribes each chunk, and turns the
transcript and the uploaded slides into notes. The model covers these parts:

- **Chunk boundary scheduler** (`AudioUtils`, `app/recording/audio_utils.py`).
  `compute_chunk_boundaries` is a loop, proved equal to a recursive reference
  definition `Windows`. Lemmas about `Windows` prove that the windows have fixed
  size, leave no gap, are maximal, and resume correctly.
- **Recording worker** (`Recording`, `app/recording/worker.py`). `RecordingWorker` is a
  class with these fields:
  - the block buffer and the sample counter
  - `lastChunkEnd` and `chunkIndex`
  - the running flag and the registered callbacks
  - three outputs of the worker: the WAV files up to now, the `transcript_chunks`
    rows, and every callback invocation

  Its methods are the audio callback and one polling round, which takes the appends
  that land between its two lock sections as a parameter. Further methods are the
  per-chunk processing, the final flush and `stop`. Each method keeps the invariant
  `Valid()`:
  - the rows are chunks `0, 1, 2, ...`
  - their ranges tile `[0, lastChunkEnd)`
  - the WAV files, back to back, are exactly the captured samples up to
    `lastChunkEnd`

  A polling round is specified against `InRound`. It processes its windows in order,
  each on exactly its slice of the snapshot, and advances the bookkeeping only after a
  chunk succeeded.
- **Session registry** (`RecordingRoutes`, `app/routes/recording.py`). `Registry` is a
  class that holds the `_active` map, the sessions table, the files written and every
  socket send. Its methods are `start_recording` and `stop_recording` with their
  409/404/400/500 outcomes, socket attach and detach with their cleanup rule,
  `_send_to_all`, and the live-notes trigger.
- **Slide outline post-processing** (`Slides`, `app/services/slides.py`). This covers:
  - `_filter_images`: a stable sort by area, de-duplication by filename, and a cap of 10
  - the title and bullet rules of the PDF and PPTX parsers
  - the minimum pixel area
  - the page-by-page attachment of the selected images
- **Prompt serialisers** (`NotesFormat`, `app/services/notes.py`). These are
  `_format_chunks` and `_format_slide_outline`, each paired with a reader that recovers
  the input from the rendered text.
- **Notes endpoints** (`NotesRoutes`, `app/routes/notes.py`). These are:
  - the merged-notes markdown rendering, with a reader that recovers the sections
  - the order of the checks in `trigger_merge`
  - the source `trigger_polish` picks
  - the keys `get_notes` returns

  `NotesStore` is a class over the sessions table and the notes files.
- **Study notes priority** (`StudyRoutes`, `app/routes/study.py`). `_get_best_notes`
  picks the polished notes first, then the merged notes, then the live draft.

Shared helpers: `Wrappers` (Option, Result) and `Text`. `Text` models these Python
helpers:
- `str.join`, `str.split` and `str.strip`
- rendering decimal numbers, with zero padding
- POSIX `os.path.join`

How the outside world is modelled:
- **Calls that can raise** are maps from input to answer; a missing key means the call
  raised. This covers transcription with the row insert, and the three language-model
  calls.
- **Database results** are parameters of the step that reads them.
- **The disk** is two maps from path to content: text files and JSON documents.
- **Times** are sample offsets in the worker and whole seconds in the renderings.

The code and its description agree wherever the model relies on them. Where the code
is more specific, the model follows the code. One example: Python's `sorted` is stable,
so equal areas keep the order in which they were found, and `SortStable` proves this.

## Model

| member | source | states |
|---|---|---|
| AudioUtils.ComputeChunkBoundaries | app/recording/audio_utils.py:10-25 | The loop returns exactly `Windows(total, last, spc)`. Every window is `spc` long and ends by `total`. The first starts at `last_chunk_end`, each later one where the previous ended. The result is empty exactly when fewer than `spc` new samples exist. |
| AudioUtils.WindowsChain | app/recording/audio_utils.py:21-24 | Windows have fixed size and end by `total`. The first starts at `from`, each later one at the previous end: no gap, no overlap. |
| AudioUtils.WindowsAt | app/recording/audio_utils.py:21-24 | Closed form: window `i` is `[from + i*spc, from + (i+1)*spc)`, and lies below `total`. |
| AudioUtils.WindowsFill | app/recording/audio_utils.py:22-25 | The windows fill `[from, from + n*spc)`, and fewer than `spc` samples remain after them. |
| AudioUtils.WindowsCount | app/recording/audio_utils.py:22-25 | Maximality: the number of windows is `(total - from) / spc`, or 0 when `total < from`, and the leftover is below `spc`. |
| AudioUtils.WindowsResume | app/recording/audio_utils.py:21-24 | Asked again after `k` windows were consumed, the scheduler returns exactly the windows not yet consumed. |
| AudioUtils.ExampleEvenSplit | app/recording/audio_utils.py:17-19 | 96000 samples in chunks of 32000 give three back-to-back windows. |
| AudioUtils.ExampleRemainder | app/recording/audio_utils.py:17-19 | A remainder shorter than a chunk is not scheduled. |
| Recording.SegmentTexts | app/recording/worker.py:182 | One text per segment, in segment order; `ChunkText` joins them with single spaces. |
| Recording.NotifyEach | app/recording/worker.py:218-222 | Every listener is called once, in registration order, with the chunk metadata, whether or not an earlier listener raised. |
| Recording.RoundLogSnoc | app/recording/worker.py:153-158 | Logging the chunk of the next boundary extends a round's log by exactly one chunk. That chunk is the boundary's slice, stamped with the next index. |
| Recording.RoundLogAt | app/recording/worker.py:153-158 | Chunk `j` of a round is boundary `j`, inside the snapshot, successfully transcribed, with index `first + j`. |
| Recording.NotifyAllSnoc | app/recording/worker.py:218-222 | The invocations for one more chunk follow those of the earlier chunks. |
| Recording.InRoundStart | app/recording/worker.py:153 | A round starts with nothing processed and nothing changed. |
| Recording.InRoundAdvance | app/recording/worker.py:153-158 | Processing boundary `i` adds its chunk and its callbacks, moves `lastChunkEnd` to the boundary end, raises `chunkIndex` by 1, and writes only file `chunkIndex`. |
| Recording.InRoundFailed | app/recording/worker.py:156-170 | A boundary whose processing raised changes only its own WAV file. |
| Recording.WavsWithinWrite | app/recording/worker.py:169-170 | Writing the WAV file of the current index keeps every other file outside the round's range. |
| Recording.RecordingWorker.constructor | app/recording/worker.py:32-53 | A new worker has an empty buffer, a zero counter, offset and index 0, is not running, has no callbacks and no output, and `samples_per_chunk = sample_rate * chunk_duration`. |
| Recording.RecordingWorker.OnChunkTranscribed | app/recording/worker.py:59-73 | Appends the listener, and nothing else changes. |
| Recording.RecordingWorker.Start | app/recording/worker.py:75-87 | The running flag is raised, even when opening the stream fails. |
| Recording.RecordingWorker.AudioCallback | app/recording/worker.py:115-125 | The block is appended and the counter grows by `frames`. When `frames` is the block length, the counter keeps equal to the sum of the block lengths. The bookkeeping is unchanged. |
| Recording.RecordingWorker.AudioCallbacks | app/recording/worker.py:138-151 | The appends that fall between a round's counter read and its snapshot add their blocks and frames, in order, and nothing else. When each frame count equals its block's length, a counter that agreed with the buffer still agrees. |
| Recording.RecordingWorker.ProcessSingleChunk | app/recording/worker.py:164-222 | Writes file `chunk_index`. On success it adds one row stamped with the pre-increment index, starting at `last_chunk_end` and ending at `last_chunk_end + len(samples)`, and calls every listener. When transcription or the insert raises, only the WAV file is written. |
| Recording.RecordingWorker.ProcessWindow | app/recording/worker.py:156-158 | One window is processed on its slice. The offset and the index advance (by exactly 1) only when processing succeeded. `Valid()` is kept. |
| Recording.RecordingWorker.ProcessRound | app/recording/worker.py:153-158 | The boundaries are processed in order, each on its snapshot slice, none skipped. The loop stops at the first boundary beyond the snapshot, or at the first chunk that raised. |
| Recording.RecordingWorker.RoundStep | app/recording/worker.py:154-158 | One loop iteration advances the round by one boundary on success, and leaves it where it was on failure. |
| Recording.RecordingWorker.MaybeProcessChunks | app/recording/worker.py:136-158 | The boundaries come from the counter read at the start. No boundary or an empty buffer changes nothing. Otherwise the round is as `ProcessRound` states on the snapshot that includes the late appends. When each late frame count equals its block's length, the counter keeps agreeing with the buffer. |
| Recording.FrameSumExact | app/recording/worker.py:123-125 | When every callback's `frames` is the length of its block, the frames added sum to the samples appended. |
| Recording.LengthsAppend | app/recording/worker.py:123-125 | The length of two buffers joined is the sum of their lengths. |
| Recording.RecordingWorker.FlushRemaining | app/recording/worker.py:228-244 | An empty buffer, or a remainder shorter than `sample_rate`, changes nothing. Otherwise one chunk covers the whole remainder, `last_chunk_end` becomes the snapshot length and the index rises by 1, but only on success. |
| Recording.RecordingWorker.Stop | app/recording/worker.py:89-100 | The running flag is down afterwards and the buffer and counter are untouched. The flush outcome is exactly `FlushRemaining`'s: nothing for an empty buffer or a short remainder, otherwise one final chunk from the old offset to the end of the audio, which advances the offset and index only when it succeeds. |
| Recording.FlattenSnoc | app/recording/worker.py:124-151 | Appending a block appends its samples to the concatenated audio. |
| Recording.LengthsSnoc | app/recording/worker.py:124-125 | Appending a block adds its length to the sum of block lengths. |
| Recording.FlattenLength | app/recording/worker.py:125-151 | The snapshot is as long as the sum of the block lengths, the counter under `Consistent`. |
| Recording.FlattenPrefix | app/recording/worker.py:124-151 | Later appends keep every earlier sample of the snapshot in place. |
| Recording.ContiguousOrdered | app/recording/worker.py:156-158 | In the chunk log, a later chunk starts no earlier than an earlier one ends. |
| Recording.ContiguousInit | app/recording/worker.py:156-158 | Without its last chunk, the log tiles the audio up to where that chunk started. |
| Recording.ContiguousSnoc | app/recording/worker.py:156-158 | A chunk starting at the log's end extends the tiling to the chunk's end. |
| Recording.WavConcatUpdate | app/recording/worker.py:169-170 | Writing the file of chunk `m` leaves the files before `m` unchanged. |
| Recording.LogCoversGrow | app/recording/worker.py:123-125 | More captured audio keeps the log's account of the first `lastChunkEnd` samples. |
| Recording.LogCoversOverwrite | app/recording/worker.py:169-170 | A failed chunk's WAV file, written at the next index, does not disturb the logged chunks. |
| Recording.LogCoversExtend | app/recording/worker.py:156-158 | Logging the chunk `[end, newEnd)` with its slice as WAV file extends the account to `newEnd`. |
| Recording.LoggedOverwrite | app/recording/worker.py:169-170 | Under `Valid()`, a failed chunk keeps the session's log. |
| Recording.LoggedExtend | app/recording/worker.py:156-198 | Under `Valid()`, the session's next chunk extends the log by one index and one range. |
| Recording.ChunkAudio | app/recording/worker.py:151-244 | No sample is lost or duplicated: each chunk's WAV file is exactly the captured samples of its range. |
| Recording.LogCoversInit | app/recording/worker.py:156-158 | The last chunk's file is the audio from its start to `lastChunkEnd`, and the rest of the log covers the earlier audio. |
| Recording.WorkerCoverage | app/recording/worker.py:156-244 | In a valid worker each chunk's file is its slice of the buffer, and with a consistent counter `last_chunk_end <= total_samples`. |
| RecordingRoutes.BroadcastEach | app/routes/recording.py:193-201 | Every socket gets one attempt, in list order. The attempt is delivered exactly when the socket does not fail, and a failing send stops nobody. |
| RecordingRoutes.RemoveFirstAbsent | app/routes/recording.py:181-182 | Removing a socket that is not in the list changes nothing. |
| RecordingRoutes.RemoveFirstAt | app/routes/recording.py:182 | `list.remove` drops the first occurrence and keeps the rest in order. |
| RecordingRoutes.RemoveFirstMultiset | app/routes/recording.py:182 | Removing takes exactly one occurrence out of the list's multiset. |
| RecordingRoutes.AttachEntry | app/routes/recording.py:158-165 | An idle entry with no data directory is created when none exists. The socket is appended, and other sessions are unchanged. |
| RecordingRoutes.DetachEntry | app/routes/recording.py:179-185 | The socket is removed from its list. The entry is deleted exactly when no socket is left and no worker is registered, and other sessions are unchanged. |
| RecordingRoutes.AttachThenDetach | app/routes/recording.py:158-185 | Connecting and then disconnecting a new socket restores the registry. The one exception is an entry with neither sockets nor worker, which is cleaned up. |
| RecordingRoutes.TriggersEveryInterval | app/routes/recording.py:213-214 | After `n` chunks live notes have been triggered `n / interval` times. |
| RecordingRoutes.TriggersBounds | app/routes/recording.py:213 | The triggers so far account for the last full multiple of the interval. |
| RecordingRoutes.NextRemainder | app/routes/recording.py:213 | One more chunk either completes an interval or raises the remainder by one. |
| RecordingRoutes.NoTriggersAtZero | app/routes/recording.py:213 | With an interval of 0 the condition raises after the broadcast, so live notes never run. |
| RecordingRoutes.LiveNotesResult | app/routes/recording.py:229-241 | No notes without chunks. Otherwise the generator gets the chunks and the existing draft, or `""` when there is no draft or no data directory. A raising generator yields nothing. |
| RecordingRoutes.StopFilesDistinct | app/routes/recording.py:116-127 | The chunk list and the index are written to different files. |
| RecordingRoutes.Registry.constructor | app/routes/recording.py:18 | The registry starts empty. |
| RecordingRoutes.Registry.SendToAll | app/routes/recording.py:193-201 | One attempt per registered socket, in order. Nothing happens for an unknown session. |
| RecordingRoutes.Registry.StartRecording | app/routes/recording.py:26-90 | 409 when a worker is registered and 404 for an unknown session, both leaving everything unchanged. Otherwise the entry gets the worker and keeps the sockets already connected, and the status becomes `recording` with a broadcast (200). When the stream fails, the entry's worker is None, the status reverts to `idle`, and the answer is 500. |
| RecordingRoutes.Registry.StopRecording | app/routes/recording.py:93-144 | 400 without an entry or a worker, changing nothing. A final flush that raises answers 500: the worker stays registered but stopped, the status stays `recording`, and nothing is written or broadcast. Otherwise the worker becomes None while the entry and its sockets stay, and the status becomes `stopped`. The effects are the chunk list, an index with the count and the last end time, and a broadcast. |
| RecordingRoutes.Registry.Attach | app/routes/recording.py:152-173 | Registers the socket as `AttachEntry` says. The socket is sent `recording` exactly when a running worker is registered, otherwise `idle`. This first send is outside the `try`: when it fails, the endpoint stops listening and the socket stays registered. |
| RecordingRoutes.Registry.Detach | app/routes/recording.py:175-185 | Unregisters the socket as `DetachEntry` says, and nothing else changes. |
| RecordingRoutes.Registry.TriggerLiveNotes | app/routes/recording.py:217-254 | Without chunks, or with a raising generator, nothing changes. Otherwise the draft is replaced when there is a data directory, and the sockets get the new notes. |
| RecordingRoutes.Registry.HandleChunkTranscribed | app/routes/recording.py:204-214 | The chunk is broadcast first. Live notes run exactly when `(chunk_index + 1) % interval == 0`. |
| Slides.InsertAtLeast | app/services/slides.py:199 | Inserting keeps a lower bound on all areas. |
| Slides.InsertDescending | app/services/slides.py:199 | Insertion keeps the sequence in non-increasing area. |
| Slides.InsertMultiset | app/services/slides.py:199 | Insertion adds exactly the one element. |
| Slides.InsertByAreaStable | app/services/slides.py:199 | Insertion puts the element after the others of equal area. |
| Slides.SortDescending | app/services/slides.py:199 | `sorted(..., reverse=True)` by area gives largest area first. |
| Slides.SortPermutation | app/services/slides.py:199 | The sort is a permutation of the candidates. |
| Slides.SortStable | app/services/slides.py:199 | Equal areas keep their input order. |
| Slides.FilenamesContain | app/services/slides.py:200 | Every element's filename is among the filenames. |
| Slides.FilenamesWitness | app/services/slides.py:200 | Every filename belongs to some element. |
| Slides.DedupeFilenames | app/services/slides.py:197-202 | De-duplication keeps every filename, once. |
| Slides.DedupeDistinct | app/services/slides.py:197-202 | The kept filenames are pairwise distinct. |
| Slides.DedupeMembers | app/services/slides.py:197-202 | Every kept image is one of the sorted candidates. |
| Slides.DedupeAtLeast | app/services/slides.py:197-202 | De-duplication keeps a lower bound on all areas. |
| Slides.DedupeDescending | app/services/slides.py:197-202 | De-duplication keeps non-increasing area order. |
| Slides.DedupeKeepsLargest | app/services/slides.py:199-202 | On descending input, the copy kept for each filename has the largest area of that filename. |
| Slides.KeepsLargestOld | app/services/slides.py:200-202 | A smaller later duplicate does not beat the kept copy. |
| Slides.KeepsLargestNew | app/services/slides.py:200-202 | A new filename, no larger than the kept copies, is kept as its own largest copy. |
| Slides.CapPrefix | app/services/slides.py:203 | `unique[:MAX_IMAGES]` is a prefix of at most 10 elements, and the whole list when it is short enough. |
| Slides.SelectionDistinct | app/services/slides.py:197-203 | At most 10 images, with pairwise distinct filenames. |
| Slides.SelectionDescending | app/services/slides.py:199-203 | The selection is in non-increasing order of area. |
| Slides.SelectionMembers | app/services/slides.py:199-203 | Every selected image is a candidate. |
| Slides.SelectionKeepsLargest | app/services/slides.py:199-202 | No candidate with a selected filename has a larger area than the selected copy. |
| Slides.SelectionComplete | app/services/slides.py:199-203 | With at most 10 distinct filenames, each appears exactly once. |
| Slides.FilenamesSorted | app/services/slides.py:199 | Sorting keeps the set of filenames. |
| Slides.FilenamesPermutation | app/services/slides.py:199 | Permutations have the same filenames. |
| Slides.FilterImages | app/services/slides.py:195-203 | The `seen`/`unique` loop over the sorted candidates returns exactly `Selection`, which the lemmas above characterise. |
| Slides.ImageFilenameInjective | app/services/slides.py:73 | Two images get the same `slide_PP_img_ID.EXT` name only when page, image id and extension all agree, so de-duplicating by filename merges only repeats of one image on one page. |
| Slides.PdfCandidate | app/services/slides.py:64-84 | An embedded image yields at most one candidate, and one exactly when extraction succeeds and `width*height >= 10000`. It lies on its page with that area. |
| Slides.CollectPdfImages | app/services/slides.py:63-84 | The image loop of a page collects exactly the page's candidates, in `get_images` order. |
| Slides.PdfCandidatesFiltered | app/services/slides.py:70-82 | Every PDF candidate lies on its page and has area at least `MIN_PIXEL_AREA`. |
| Slides.LastSegment | app/services/slides.py:146 | `split("/")[-1]` is the suffix after the last `/`. |
| Slides.PictureCandidate | app/services/slides.py:138-160 | A picture yields a candidate exactly when its image can be read and `w*h >= 10000`. |
| Slides.StrippedLines | app/services/slides.py:58 | The stripped non-empty lines, none of them empty. |
| Slides.StrippedLinesSkip | app/services/slides.py:58 | Blank leading lines contribute nothing. |
| Slides.PdfSectionTitle | app/services/slides.py:58-60 | The title is the first non-blank line, stripped, and the bullets are the stripped non-blank lines after it. |
| Slides.PdfSectionUntitled | app/services/slides.py:58-60 | A page without text is titled `Page k` and has no bullets. |
| Slides.FrameTextsTail | app/services/slides.py:120-135 | The frame texts of a suffix of the shapes grow with the last shape. |
| Slides.ScanShapeTitled | app/services/slides.py:127-135 | Once the title is set, a shape only adds its frame text. |
| Slides.ScanUntitled | app/services/slides.py:120-135 | Without a title placeholder, every non-empty frame is collected. |
| Slides.ScanTitledLast | app/services/slides.py:127-134 | The first title placeholder sets the title and adds no text. |
| Slides.ScanTitledStep | app/services/slides.py:120-135 | After the title, one more shape adds only its frame text. |
| Slides.ScanTitled | app/services/slides.py:120-135 | The first non-empty title placeholder is the title. Exactly the other non-empty frames are collected, in order. |
| Slides.PptxSectionTitled | app/services/slides.py:166-167 | With a title placeholder, its text is the title and all other frames are the bullets. |
| Slides.PptxSectionUntitled | app/services/slides.py:163-165 | Without one, the first frame is the title and the rest are bullets. With no text at all the title is `Slide k`. |
| Slides.ScanShapeFiltered | app/services/slides.py:138-158 | A shape adds only candidates on its slide that passed the area filter. |
| Slides.ScanCandidatesFiltered | app/services/slides.py:138-158 | Every PPTX candidate lies on its slide and passed the area filter. |
| Slides.ScanSlide | app/services/slides.py:120-160 | The shape loop computes `ScanShapes`. |
| Slides.ImagesOnSpec | app/services/slides.py:97-102 | A page lists exactly the selected filenames on that page. |
| Slides.Attached | app/services/slides.py:100-102 | Each section gets the selected filenames of its page, in selected order, and nothing else changes. |
| Slides.AttachImages | app/services/slides.py:97-102 | The `page_to_images` loops compute `Attached`. |
| Slides.PdfSectionsAt | app/services/slides.py:52-91 | Section `k` comes from page `k + 1`. |
| Slides.ScanPdfPages | app/services/slides.py:52-91 | The page loop yields one section per page and the pages' candidates, in page order. |
| Slides.ParsePdf | app/services/slides.py:46-104 | The sections get the globally selected images attached by page. |
| Slides.PptxSectionsAt | app/services/slides.py:116-178 | Section `k` comes from slide `k + 1`. |
| Slides.RawPages | app/services/slides.py:169-172 | One raw page per section. |
| Slides.RawPagesAt | app/services/slides.py:169-172 | Raw page `k` is page `k + 1`, with text `title\n` followed by the joined bullets. |
| Slides.ScanPptxSlides | app/services/slides.py:116-178 | The slide loop yields one section, one raw page and the slide's candidates per slide, in order. |
| Slides.ParsePptx | app/services/slides.py:110-189 | The sections get the globally selected images attached by slide. |
| NotesFormat.ChunkLines | app/services/notes.py:70-73 | One line per chunk, in order. |
| NotesFormat.ChunksText | app/services/notes.py:68-74 | No chunks give `""`, and one chunk gives its line with no trailing newline. |
| NotesFormat.FormatChunks | app/services/notes.py:68-74 | The loop computes `ChunksText`. |
| NotesFormat.ParseChunkLineOf | app/services/notes.py:72-73 | A line made of time range, space and text reads back as those pieces. |
| NotesFormat.ChunkLineRoundTrip | app/services/notes.py:72-73 | A `[S s–E s] text` line reads back as its chunk. |
| NotesFormat.ChunkLineOneLine | app/services/notes.py:72-73 | A chunk line holds a newline only where its text does. |
| NotesFormat.ChunksTextRoundTrip | app/services/notes.py:68-74 | Without newlines in the texts, the transcript splits into one line per chunk, each reading back as its chunk. |
| Text.Prefixed | app/services/notes.py:82-83 | One line per item, and `PrefixedAt` gives line `k` as the prefix followed by item `k`. Both bullet renderings (`"  - "` here and `"- "` in the merged notes) use it. |
| NotesFormat.OutlineText | app/services/notes.py:77-84 | An empty outline gives `""`. |
| NotesFormat.FormatSlideOutline | app/services/notes.py:77-84 | The loop computes `OutlineText`. |
| NotesFormat.Normalized | app/services/notes.py:82 | One read-back section per outline section. |
| NotesFormat.ParseHeadingLine | app/services/notes.py:81 | A `## title` line opens a section. |
| NotesFormat.ParseBulletLine | app/services/notes.py:83 | An indented bullet line adds its bullet to the open section. |
| NotesFormat.ParseSectionLines | app/services/notes.py:80-83 | A heading followed by its bullet lines reads back as one more section. |
| NotesFormat.OutlineRoundTrip | app/services/notes.py:79-83 | The outline lines read back as the sections in order, each with its bullets in order. |
| Text.PrefixedOneLine | app/services/notes.py:83 | Bullet lines hold no newline when neither the prefix nor the bullets hold one. |
| NotesFormat.OutlineLinesOneLine | app/services/notes.py:79-83 | Outline lines hold no newline when titles and bullets hold none. |
| NotesFormat.OutlineTextRoundTrip | app/services/notes.py:77-84 | The joined outline text, split at newlines, reads back as the sections. |
| NotesRoutes.NotePathsDiffer | app/routes/notes.py:52 | Names that differ some characters from their ends give different paths. |
| NotesRoutes.EndingsDiffer | app/routes/notes.py:52 | Strings with suffixes that differ near the end are different. |
| NotesRoutes.NotePathsDistinct | app/routes/notes.py:51-133 | The three notes files are three different paths. |
| NotesRoutes.NoteKey | app/routes/notes.py:54 | The key plus `.md` is the file name. |
| NotesRoutes.NoteKeys | app/routes/notes.py:51-54 | The keys are `live_draft`, `merged` and `polished`. |
| NotesRoutes.NotesFoundKeys | app/routes/notes.py:51-54 | Only keys of the names looked for appear. |
| NotesRoutes.NotesFoundShows | app/routes/notes.py:51-54 | A name whose key no other name shares is shown exactly when its file exists, with the file's text. |
| NotesRoutes.KeysOfShared | app/routes/notes.py:54 | A key no name has is not among the keys. |
| NotesRoutes.NoteNamesKeys | app/routes/notes.py:51-54 | The three names have exactly the three keys. |
| NotesRoutes.NoteKeysDistinct | app/routes/notes.py:51-54 | No two notes files share a key. |
| NotesRoutes.NotesForKeys | app/routes/notes.py:43-57 | 404 for an unknown session. Otherwise the keys are among the three, and each is present exactly when its file exists, with the file's text. |
| NotesRoutes.CitationLines | app/routes/notes.py:98-102 | As many lines as citations (`CitationLinesAt` gives each one). |
| NotesRoutes.MergedMarkdown | app/routes/notes.py:93-104 | Without sections the text is `""`. |
| NotesRoutes.RenderMerged | app/routes/notes.py:93-104 | The rendering loop computes `MergedMarkdown`. |
| NotesRoutes.AppendSection | app/routes/notes.py:95-103 | The section adds its heading, bullets, citations and a blank line, in that order. |
| NotesRoutes.AppendBullets | app/routes/notes.py:96-97 | The bullet loop appends one line per bullet. |
| NotesRoutes.AppendCitations | app/routes/notes.py:98-102 | The citation loop appends one line per citation. |
| NotesRoutes.Cited | app/routes/notes.py:94-98 | One read-back section per merged section. |
| NotesRoutes.ParseCitationOf | app/routes/notes.py:99-102 | A line made of the citation pieces reads back as the citation. |
| NotesRoutes.CitationRoundTrip | app/routes/notes.py:99-102 | `  [^tN]: S s–E s` reads back as its citation. |
| NotesRoutes.ReadLine | app/routes/notes.py:93-104 | The reader takes one line at a time. |
| NotesRoutes.ReadHeadingLine | app/routes/notes.py:95 | A heading line opens an empty section. |
| NotesRoutes.ReadBodyLine | app/routes/notes.py:96-103 | A non-heading line goes into the open section. |
| NotesRoutes.ReadBody | app/routes/notes.py:96-103 | Lines without headings all go into the open section. |
| NotesRoutes.AddLinesAppend | app/routes/notes.py:96-103 | Two runs of lines add up. |
| NotesRoutes.AddBullets | app/routes/notes.py:96-97 | Bullet lines add their bullets, in order. |
| NotesRoutes.AddCitationLine | app/routes/notes.py:99-102 | A citation line adds its citation. |
| NotesRoutes.CitationLineStart | app/routes/notes.py:99-102 | A citation line is neither a heading nor a bullet. |
| NotesRoutes.AddCitations | app/routes/notes.py:98-102 | Citation lines add their citations, in order. |
| NotesRoutes.DashedNoHeadings | app/routes/notes.py:97 | Bullet lines are not headings. |
| Text.PrefixedAt | app/routes/notes.py:97 | Line `k` is the prefix followed by item `k`. |
| NotesRoutes.CitationNoHeadings | app/routes/notes.py:99-102 | Citation lines are not headings. |
| NotesRoutes.CitationLinesAt | app/routes/notes.py:99-102 | Line `k` renders citation `k`. |
| NotesRoutes.SectionBodyNoHeadings | app/routes/notes.py:96-103 | A section's body lines are not headings. |
| NotesRoutes.SectionBodyAdded | app/routes/notes.py:95-103 | The lines after a heading give the section exactly its bullets and citations. |
| NotesRoutes.ReadSectionLines | app/routes/notes.py:95-103 | One section's lines read back as one more section. |
| NotesRoutes.MergedRoundTrip | app/routes/notes.py:93-103 | The rendered lines read back as the sections, in order. |
| NotesRoutes.CitationLineOneLine | app/routes/notes.py:99-102 | A citation line holds no newline. |
| NotesRoutes.CitationLinesOneLine | app/routes/notes.py:99-102 | Citation lines hold no newline. |
| NotesRoutes.SectionLinesOneLine | app/routes/notes.py:95-103 | A section's lines hold no newline. |
| NotesRoutes.MergedLinesOneLine | app/routes/notes.py:93-103 | The rendered lines hold no newline. |
| NotesRoutes.MergedMarkdownRoundTrip | app/routes/notes.py:93-104 | `merged.md`, split at newlines, reads back as the generator's sections: headings, bullets and citations in order, with missing keys as empty lists. |
| NotesRoutes.MergeChecks | app/routes/notes.py:60-118 | 404 comes before "no chunks", which comes before "no outline". Only with all three present is the generator asked, and the reply counts its sections. |
| NotesRoutes.PolishChoice | app/routes/notes.py:123-145 | 404 first. Then `merged.md` is polished whenever it exists and `live_draft.md` only otherwise. The answer is 400 exactly when neither exists. |
| NotesRoutes.MergeThenGetNotes | app/routes/notes.py:43-109 | After a merge, `get_notes` shows `merged` reading back as the generator's sections, as many as the reply counted. The other two notes are unchanged. |
| NotesRoutes.PolishKeepsSources | app/routes/notes.py:131-147 | Polishing leaves the files it reads unchanged. |
| NotesRoutes.NotesStore.constructor | app/routes/notes.py:43-57 | The store holds the given sessions, files and documents. |
| NotesRoutes.NotesStore.GetNotes | app/routes/notes.py:43-57 | The loop over the three names computes `NotesFor`. |
| NotesRoutes.NotesStore.TriggerMerge | app/routes/notes.py:60-120 | The answer is `MergeResult`. Only on success are `merged.md` (the rendered text) and `merged_raw.json` (the generator's answer) written. |
| NotesRoutes.NotesStore.TriggerPolish | app/routes/notes.py:123-150 | The answer agrees with `PolishResult`. Only on success is `polished.md` written. |
| StudyRoutes.FirstExistingSpec | app/routes/study.py:37-40 | The search finds nothing exactly when no file exists, and otherwise the text of the first existing name. |
| StudyRoutes.FoundLater | app/routes/study.py:37-40 | A miss at the head moves the first hit one place later. |
| StudyRoutes.GetBestNotes | app/routes/study.py:22-43 | The loop computes `BestNotes`. |
| StudyRoutes.BestNotesOrder | app/routes/study.py:22-43 | 404 first. Then polished whenever it exists, merged only without polished, and the live draft only without both. 400 exactly when none exists, and the data directory comes with the notes. |
| StudyRoutes.PolishedNotesAreBest | app/routes/study.py:37-40 | After a successful polish, the study notes are the polished ones. |
| StudyRoutes.MergedNotesAreBest | app/routes/study.py:37-40 | After a merge and without polished notes, the study notes are the rendered merged notes. |
| Text.JoinAppend | app/services/notes.py:74 | Joining two runs puts exactly one separator between them. |
| Text.JoinSnoc | app/services/notes.py:74 | Appending a part adds the separator and the part. |
| Text.DigitChar | app/services/slides.py:73 | A digit character denotes its digit. |
| Text.NatToString | app/services/slides.py:73 | Decimal digits with no leading zero. |
| Text.NatToStringRoundTrip | app/services/slides.py:73 | Reading the rendered digits gives the number back. |
| Text.NatToStringInjective | app/services/slides.py:73 | Distinct numbers render differently. |
| Text.ZeroPadInjective | app/services/slides.py:73 | Distinct numbers stay distinct after zero padding. |
| Text.IntToString | app/routes/notes.py:100 | A minus sign exactly for negative values. |
| Text.ZeroPad | app/services/slides.py:73 | `:02d` pads with zeros to the width and ends with the digits. |
| Text.Zeros | app/services/slides.py:73 | `k` zeros. |
| Text.TrimLeftSpec | app/services/slides.py:58 | `lstrip` drops only leading whitespace, all of it. |
| Text.TrimRightSpec | app/services/slides.py:58 | `rstrip` drops only trailing whitespace, all of it. |
| Text.StripStripped | app/services/slides.py:58 | A stripped string has no whitespace at either end. |
| Text.StripSlice | app/services/slides.py:58 | `strip` returns a slice of its input. |
| Text.StripCutsSpace | app/services/slides.py:58 | Everything `strip` cuts off is whitespace. |
| Text.StripIdempotent | app/services/slides.py:58 | Stripping twice is stripping once. |
| Text.StrippedIsFixed | app/services/slides.py:58 | A string without surrounding whitespace is its own strip. |
| Text.PathJoinEnds | app/routes/notes.py:52 | The joined path ends with the name, and is the name when that is absolute. |
| Text.Split | app/routes/notes.py:104 | A split has at least one piece. |
| Text.SplitAppendPiece | app/routes/notes.py:104 | A separator and a separator-free piece end the split with that piece. |
| Text.SplitPiece | app/routes/notes.py:104 | A separator-free string is one piece. |
| Text.SplitJoinSnoc | app/routes/notes.py:104 | One more part joined on becomes one more piece of the split. |
| Text.SplitJoin | app/routes/notes.py:104 | Splitting what was joined gives the parts back when no part holds the separator. |
| Text.DigitRun | app/routes/notes.py:100-101 | The leading run of digits. |
| Text.DigitRunOf | app/routes/notes.py:100-101 | Digits followed by a non-digit form exactly the leading run. |
| Text.ReadNatRendered | app/routes/notes.py:101 | A rendered number reads back, stopping at the next non-digit. |
| Text.ReadIntRendered | app/routes/notes.py:100 | `str(i)` of any integer reads back. |
| Text.ReadNegativeRendered | app/routes/notes.py:100 | A negative `str(i)` reads back. |
| Text.ReadIntMinus | app/routes/notes.py:100 | A minus sign before a number reads as the negated number. |

## Left out

- Threads, the lock, the one-second polling loop and the daemon thread join (`app/recording/worker.py`, the worker loop and `stop`) are out of scope. Each lock-guarded section is one atomic step. The appends that fall between the two lock sections of a round are a parameter of that round.
- The asyncio bridge `run_coroutine_threadsafe` is not modelled; `HandleChunkTranscribed` is one step.
- Audio device I/O is not modelled: opening the input stream is the `streamOpens` flag. Writing WAV files (`samples_to_wav`) is an update of a map from chunk index to samples.
- Whisper, SQLite and the Groq language model are oracles, given as maps from inputs to answers. A missing key is a call that raises.
- Recording.RecordingWorker.ProcessSingleChunk: chunk times are sample offsets, so the rounding to two decimals of seconds is not modelled. Neither is the mean confidence, a float.
- Recording.RecordingWorker.ProcessSingleChunk: a raising transcription or insert is modelled as a call that returns without advancing the state. The death of the worker thread that follows in the source is not modelled.
- `is_running` is the `running` field. `total_duration_seconds` is a float division and is left out.
- NotesFormat.ChunkLines: times are whole seconds, so the `:.0f` rounding of float times is not modelled. The same holds for `NotesRoutes.CitationLines`.
- NotesRoutes.NoteKey: `replace(".md", "")` removes every occurrence. The model drops only a trailing `.md`, which is the only occurrence in each of the three file names.
- NotesRoutes.MergeResult: a raising language-model call, or a malformed answer, is an HTTP 500 with a fixed detail. `json.loads` of the stored outline is folded into the generator oracle, which receives the outline text.
- Slides.PictureCandidate: the picture's size arrives in pixels, so the EMU-to-pixel conversion at 96 DPI is not modelled.
- Slides.ParsePdf: the PDF raw pages (`page.get_text().strip()`) are not modelled, because a page arrives as its lines.
- The dispatch by file extension in `SlideService.parse` (`app/services/slides.py`, lines 18-40), the PDF/PPTX libraries and the image file writes are not modelled.
- `os.makedirs` is not modelled, and every file write succeeds in the model.
- `NotesService`'s prompt-building methods, the JSON schemas and the live-notes generator are not modelled. The generator is an oracle over the chunks and the existing draft.
- RecordingRoutes.Registry.StartRecording: the 500 answer carries no exception text (`str(e)`). Which sockets fail a send is the `failing` parameter.
- The race in `start_recording` between the 409 check and the registration across awaits is not modelled, because each endpoint is one atomic step.
