/** `_get_best_notes` of `app/routes/study.py`: the notes the study guide and the
    quiz are generated from, chosen in the order polished, merged, live draft. */
module StudyRoutes {
  import opened Wrappers
  import opened NotesRoutes

  /** The notes files in order of preference. */
  const Priority: seq<string> := ["polished.md", "merged.md", "live_draft.md"]

  const NoNotes: string := "No notes available for this session."

  /** The text of the first of `names` whose file exists. */
  function FirstExisting(files: map<string, string>, dataDir: string, names: seq<string>): Option<string>
  {
    if |names| == 0 then None
    else if NotePath(dataDir, names[0]) in files then Some(files[NotePath(dataDir, names[0])])
    else FirstExisting(files, dataDir, names[1..])
  }

  /** `FirstExisting` finds nothing exactly when no file exists, and otherwise the text
      of the first name whose file exists. */
  lemma {:induction false} FirstExistingSpec(files: map<string, string>, dataDir: string, names: seq<string>)
    ensures FirstExisting(files, dataDir, names).None? <==> forall k :: 0 <= k < |names| ==> NotePath(dataDir, names[k]) !in files
    ensures FirstExisting(files, dataDir, names).Some? ==>
      exists k :: 0 <= k < |names| && FoundAt(files, dataDir, names, k)
                  && FirstExisting(files, dataDir, names).value == files[NotePath(dataDir, names[k])]
  {
    if |names| > 0 && NotePath(dataDir, names[0]) !in files {
      var rest := names[1..];
      FirstExistingSpec(files, dataDir, rest);
      assert forall k :: 0 < k < |names| ==> names[k] == rest[k - 1];
      if FirstExisting(files, dataDir, rest).Some? {
        var k :| 0 <= k < |rest| && FoundAt(files, dataDir, rest, k)
                 && FirstExisting(files, dataDir, rest).value == files[NotePath(dataDir, rest[k])];
        FoundLater(files, dataDir, names, k);
      }
    } else if |names| > 0 {
      assert FoundAt(files, dataDir, names, 0);
    }
  }

  /** The file of `names[k]` exists and none before it does. */
  ghost predicate FoundAt(files: map<string, string>, dataDir: string, names: seq<string>, k: nat)
    requires k < |names|
  {
    NotePath(dataDir, names[k]) in files && forall j :: 0 <= j < k ==> NotePath(dataDir, names[j]) !in files
  }

  lemma FoundLater(files: map<string, string>, dataDir: string, names: seq<string>, k: nat)
    requires |names| > 0 && NotePath(dataDir, names[0]) !in files
    requires k < |names| - 1 && FoundAt(files, dataDir, names[1..], k)
    ensures FoundAt(files, dataDir, names, k + 1)
  {
    forall j | 0 <= j < k + 1
      ensures NotePath(dataDir, names[j]) !in files
    {
      if j > 0 {
        assert names[j] == names[1..][j - 1];
      }
    }
  }

  /** What `_get_best_notes` returns: the notes text and the session's data directory. */
  function BestNotes(sessions: Sessions, files: map<string, string>, sessionId: int): Result<(string, string), HttpError>
  {
    if sessionId !in sessions then Err(NotFound(sessionId))
    else
      var dataDir := sessions[sessionId];
      match FirstExisting(files, dataDir, Priority)
        case Some(text) => Ok((text, dataDir))
        case None => Err(HttpError(400, NoNotes))
  }

  /** `_get_best_notes`. */
  method GetBestNotes(sessions: Sessions, files: map<string, string>, sessionId: int)
    returns (r: Result<(string, string), HttpError>)
    ensures r == BestNotes(sessions, files, sessionId)
  {
    if sessionId !in sessions {
      return Err(NotFound(sessionId));
    }
    var dataDir := sessions[sessionId];
    var i := 0;
    while i < |Priority|
      invariant 0 <= i <= |Priority|
      invariant FirstExisting(files, dataDir, Priority[i..]) == FirstExisting(files, dataDir, Priority)
    {
      var path := NotePath(dataDir, Priority[i]);
      if path in files {
        return Ok((files[path], dataDir));
      }
      assert Priority[i..][1..] == Priority[i + 1..];
      i := i + 1;
    }
    return Err(HttpError(400, NoNotes));
  }

  /** The order of `_get_best_notes`: 404 for an unknown session; then the polished
      notes whenever they exist, the merged notes only when there are no polished
      notes, the live draft only when there are neither, and 400 exactly when none of
      the three exists; the data directory comes with the notes. */
  lemma BestNotesOrder(sessions: Sessions, files: map<string, string>, sessionId: int)
    ensures sessionId !in sessions ==> BestNotes(sessions, files, sessionId) == Err(NotFound(sessionId))
    ensures sessionId in sessions ==>
      var d := sessions[sessionId];
      var polished, merged, live := NotePath(d, "polished.md"), NotePath(d, "merged.md"), NotePath(d, "live_draft.md");
      var r := BestNotes(sessions, files, sessionId);
      (polished in files ==> r == Ok((files[polished], d)))
      && (polished !in files && merged in files ==> r == Ok((files[merged], d)))
      && (polished !in files && merged !in files && live in files ==> r == Ok((files[live], d)))
      && (r == Err(HttpError(400, NoNotes)) <==> polished !in files && merged !in files && live !in files)
  {
    if sessionId in sessions {
      var d := sessions[sessionId];
      var rest := Priority[1..];
      var last := rest[1..];
      assert rest == ["merged.md", "live_draft.md"] && last == ["live_draft.md"] && last[1..] == [];
      assert FirstExisting(files, d, last[1..]) == None;
      assert FirstExisting(files, d, last)
          == if NotePath(d, "live_draft.md") in files then Some(files[NotePath(d, "live_draft.md")]) else None;
      assert FirstExisting(files, d, rest)
          == if NotePath(d, "merged.md") in files then Some(files[NotePath(d, "merged.md")])
             else FirstExisting(files, d, last);
    }
  }

  /** After a successful polish, the study notes are the polished ones. */
  lemma PolishedNotesAreBest(sessions: Sessions, files: map<string, string>, sessionId: int, polisher: Polisher)
    requires PolishResult(sessions, files, sessionId, polisher).Ok?
    ensures BestNotes(sessions, FilesAfterPolish(sessions, files, sessionId, polisher), sessionId)
         == Ok((PolishResult(sessions, files, sessionId, polisher).value, sessions[sessionId]))
  {
    BestNotesOrder(sessions, FilesAfterPolish(sessions, files, sessionId, polisher), sessionId);
  }

  /** After a successful merge, and while there are no polished notes, the study notes
      are the rendered merged notes. */
  lemma MergedNotesAreBest(sessions: Sessions, files: map<string, string>, sessionId: int,
                           chunks: seq<NotesFormat.TimedText>, outline: Option<string>, merger: Merger)
    requires MergeResult(sessions, sessionId, chunks, outline, merger).Ok?
    requires NotePath(sessions[sessionId], "polished.md") !in files
    ensures BestNotes(sessions, FilesAfterMerge(sessions, files, sessionId, chunks, outline, merger), sessionId)
         == Ok((MergedMarkdown(merger[(chunks, outline.value)]), sessions[sessionId]))
  {
    var d := sessions[sessionId];
    NotePathsDistinct(d);
    BestNotesOrder(sessions, FilesAfterMerge(sessions, files, sessionId, chunks, outline, merger), sessionId);
  }
}
