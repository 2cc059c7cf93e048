/** The notes endpoints of `app/routes/notes.py`. `get_notes` returns whichever of
    a session's three notes files exist, `trigger_merge` renders the merged notes the
    generator returns as markdown with citations and stores them, and
    `trigger_polish` polishes the merged notes, or the live draft when there are no
    merged notes.

    The database becomes two values: the sessions table, mapping a session id to its
    data directory, and the transcript chunks and outline passed in. The disk becomes
    two maps from path to content: the text files and the JSON documents. The language
    model calls become maps from their inputs to their answers, where a missing key
    stands for a call that raises. */
module NotesRoutes {
  import opened Wrappers
  import opened Text
  import opened NotesFormat

  // ---------------------------------------------------------------
  // Errors, sessions and paths
  // ---------------------------------------------------------------

  /** An `HTTPException`: the status code and the detail text. */
  datatype HttpError = HttpError(status: nat, detail: string)

  /** `_get_session_or_404` for an unknown session. */
  function NotFound(sessionId: int): HttpError
  {
    HttpError(404, "Session " + IntToString(sessionId) + " not found")
  }

  const NoChunks: string := "No transcript chunks available."
  const NoOutline: string := "No slide outline available. Upload slides first."
  const NothingToPolish: string := "No notes to polish. Run merge first or wait for live notes."

  /** What FastAPI answers when an endpoint raises something other than an
      `HTTPException`, here a failing language-model call. */
  const ServerError: HttpError := HttpError(500, "Internal Server Error")

  /** The sessions table as these endpoints read it: each session's `data_dir`. */
  type Sessions = map<int, string>

  /** `os.path.join(data_dir, "notes")`. */
  function NotesDir(dataDir: string): string
  {
    PathJoin(dataDir, "notes")
  }

  /** `os.path.join(notes_dir, name)`. */
  function NotePath(dataDir: string, name: string): string
  {
    PathJoin(NotesDir(dataDir), name)
  }

  /** Two names that differ `i` characters from their ends give different paths. */
  lemma NotePathsDiffer(dataDir: string, a: string, b: string, i: nat)
    requires i < |a| && i < |b| && a[|a| - 1 - i] != b[|b| - 1 - i]
    ensures NotePath(dataDir, a) != NotePath(dataDir, b)
  {
    PathJoinEnds(NotesDir(dataDir), a);
    PathJoinEnds(NotesDir(dataDir), b);
    EndingsDiffer(NotePath(dataDir, a), NotePath(dataDir, b), a, b, i);
  }

  /** Two strings ending in suffixes that differ `i` characters from the end differ. */
  lemma EndingsDiffer(p: string, q: string, a: string, b: string, i: nat)
    requires |a| <= |p| && p[|p| - |a|..] == a
    requires |b| <= |q| && q[|q| - |b|..] == b
    requires i < |a| && i < |b| && a[|a| - 1 - i] != b[|b| - 1 - i]
    ensures p != q
  {
    assert p[|p| - |a|..][|a| - 1 - i] == p[|p| - 1 - i];
    assert q[|q| - |b|..][|b| - 1 - i] == q[|q| - 1 - i];
  }

  /** The three notes files live at three different paths. */
  lemma NotePathsDistinct(dataDir: string)
    ensures NotePath(dataDir, "merged.md") != NotePath(dataDir, "live_draft.md")
    ensures NotePath(dataDir, "merged.md") != NotePath(dataDir, "polished.md")
    ensures NotePath(dataDir, "live_draft.md") != NotePath(dataDir, "polished.md")
  {
    NotePathsDiffer(dataDir, "merged.md", "live_draft.md", 3);
    NotePathsDiffer(dataDir, "merged.md", "polished.md", 5);
    NotePathsDiffer(dataDir, "live_draft.md", "polished.md", 3);
  }

  // ---------------------------------------------------------------
  // `get_notes`
  // ---------------------------------------------------------------

  /** The notes files `get_notes` looks for, in its order. */
  const NoteNames: seq<string> := ["live_draft.md", "merged.md", "polished.md"]

  /** `name.replace(".md", "")` for a name holding `.md` once, at its end: the key a
      notes file is returned under. */
  function NoteKey(name: string): (key: string)
    ensures |name| >= 3 && name[|name| - 3..] == ".md" ==> key + ".md" == name
  {
    if |name| >= 3 && name[|name| - 3..] == ".md" then name[..|name| - 3] else name
  }

  /** The keys of the notes files. */
  lemma NoteKeys()
    ensures NoteKey("live_draft.md") == "live_draft"
    ensures NoteKey("merged.md") == "merged"
    ensures NoteKey("polished.md") == "polished"
  {
    assert "live_draft" + ".md" == "live_draft.md";
    assert "merged" + ".md" == "merged.md";
    assert "polished" + ".md" == "polished.md";
  }

  /** The texts of the existing files among `names`, each under its key. */
  function NotesFound(files: map<string, string>, dataDir: string, names: seq<string>): map<string, string>
  {
    if |names| == 0 then map[]
    else
      var found := NotesFound(files, dataDir, names[..|names| - 1]);
      var path := NotePath(dataDir, names[|names| - 1]);
      if path in files then found[NoteKey(names[|names| - 1]) := files[path]] else found
  }

  /** The keys of `names`. */
  function KeysOf(names: seq<string>): set<string>
  {
    if |names| == 0 then {} else KeysOf(names[..|names| - 1]) + {NoteKey(names[|names| - 1])}
  }

  /** The response of `get_notes`: the session id and the notes found. */
  datatype NotesView = NotesView(sessionId: int, notes: map<string, string>)

  /** What `get_notes` answers. */
  function NotesFor(sessions: Sessions, files: map<string, string>, sessionId: int): Result<NotesView, HttpError>
  {
    if sessionId !in sessions then Err(NotFound(sessionId))
    else Ok(NotesView(sessionId, NotesFound(files, sessions[sessionId], NoteNames)))
  }

  /** One notes file's key is in the response exactly when the file exists, with the
      file's text. */
  ghost predicate ShowsFile(notes: map<string, string>, files: map<string, string>, dataDir: string, name: string)
  {
    (NoteKey(name) in notes <==> NotePath(dataDir, name) in files)
    && (NoteKey(name) in notes ==> notes[NoteKey(name)] == files[NotePath(dataDir, name)])
  }

  /** Only the keys of the names looked for appear. */
  lemma {:induction false} NotesFoundKeys(files: map<string, string>, dataDir: string, names: seq<string>)
    ensures NotesFound(files, dataDir, names).Keys <= KeysOf(names)
  {
    if |names| > 0 {
      NotesFoundKeys(files, dataDir, names[..|names| - 1]);
    }
  }

  /** A name looked for, whose key no other name shares, shows its file. */
  lemma {:induction false} NotesFoundShows(files: map<string, string>, dataDir: string, names: seq<string>, name: string)
    requires name in names
    requires forall n :: n in names && NoteKey(n) == NoteKey(name) ==> n == name
    ensures ShowsFile(NotesFound(files, dataDir, names), files, dataDir, name)
  {
    var init, last := names[..|names| - 1], names[|names| - 1];
    assert names == init + [last];
    if last == name {
      if name in init {
        NotesFoundShows(files, dataDir, init, name);
      } else {
        NotesFoundKeys(files, dataDir, init);
        KeysOfShared(init, name);
      }
    } else {
      assert name in init;
      NotesFoundShows(files, dataDir, init, name);
    }
  }

  /** A key in `KeysOf(names)` is the key of one of the names. */
  lemma {:induction false} KeysOfShared(names: seq<string>, name: string)
    requires forall n :: n in names ==> NoteKey(n) != NoteKey(name)
    ensures NoteKey(name) !in KeysOf(names)
  {
    if |names| > 0 {
      assert names[|names| - 1] in names;
      KeysOfShared(names[..|names| - 1], name);
    }
  }

  /** The keys of the three notes files. */
  lemma NoteNamesKeys()
    ensures KeysOf(NoteNames) == {"live_draft", "merged", "polished"}
  {
    NoteKeys();
    var two := NoteNames[..2];
    assert two[..1] == ["live_draft.md"];
    assert two[..1][..0] == [];
    assert NoteNames[..|NoteNames| - 1] == two;
    assert KeysOf(two[..1]) == {"live_draft"};
    assert KeysOf(two) == {"live_draft", "merged"};
  }

  /** No two notes files share a key. */
  lemma NoteKeysDistinct()
    ensures forall n, m :: n in NoteNames && m in NoteNames && NoteKey(n) == NoteKey(m) ==> n == m
  {
    NoteKeys();
  }

  /** `get_notes` answers 404 for an unknown session; otherwise its notes hold the keys
      `live_draft`, `merged` and `polished` and no others, each exactly when its file
      exists and with that file's text. */
  lemma NotesForKeys(sessions: Sessions, files: map<string, string>, sessionId: int)
    ensures sessionId !in sessions ==> NotesFor(sessions, files, sessionId) == Err(NotFound(sessionId))
    ensures sessionId in sessions ==>
      var d, notes := sessions[sessionId], NotesFor(sessions, files, sessionId).value.notes;
      notes.Keys <= {"live_draft", "merged", "polished"}
      && ShowsFile(notes, files, d, "live_draft.md")
      && ShowsFile(notes, files, d, "merged.md")
      && ShowsFile(notes, files, d, "polished.md")
  {
    if sessionId in sessions {
      var d := sessions[sessionId];
      NoteNamesKeys();
      NoteKeysDistinct();
      NotesFoundKeys(files, d, NoteNames);
      NotesFoundShows(files, d, NoteNames, "live_draft.md");
      NotesFoundShows(files, d, NoteNames, "merged.md");
      NotesFoundShows(files, d, NoteNames, "polished.md");
    }
  }

  // ---------------------------------------------------------------
  // Rendering the merged notes (`trigger_merge`)
  // ---------------------------------------------------------------

  /** A citation of the merged notes: the chunk index and the chunk's time range in
      whole seconds. */
  datatype Citation = Citation(chunkIndex: int, startTime: nat, endTime: nat)

  /** A merged section: its heading, and its bullets and citations, each `None` when
      the key is missing. */
  datatype MergedSection = MergedSection(heading: string, bullets: Option<seq<string>>,
                                         citations: Option<seq<Citation>>)

  /** The merged notes the generator returns; `sections` is `None` when the key is
      missing. */
  datatype MergedNotes = MergedNotes(sections: Option<seq<MergedSection>>)

  /** `merged.get("sections", [])`. */
  function SectionsOf(m: MergedNotes): seq<MergedSection>
  {
    if m.sections.Some? then m.sections.value else []
  }

  /** `section.get("bullets", [])`. */
  function MergedBullets(s: MergedSection): seq<string>
  {
    if s.bullets.Some? then s.bullets.value else []
  }

  /** `section.get("citations", [])`. */
  function MergedCitations(s: MergedSection): seq<Citation>
  {
    if s.citations.Some? then s.citations.value else []
  }

  /** `f"  [^t{chunk_index}]: {start:.0f}s–{end:.0f}s"`. */
  function CitationLine(c: Citation): string
  {
    "  [^t" + (IntToString(c.chunkIndex) + ("]: " + TimeRange(c.startTime, c.endTime)))
  }

  /** One `"- b"` line per bullet, in order. */
  function DashedBullets(bullets: seq<string>): seq<string>
  {
    Prefixed("- ", bullets)
  }

  /** One citation line per citation, in order. */
  function CitationLines(citations: seq<Citation>): (r: seq<string>)
    ensures |r| == |citations|
  {
    if |citations| == 0 then []
    else CitationLines(citations[..|citations| - 1]) + [CitationLine(citations[|citations| - 1])]
  }

  /** The lines of one section: the heading, the bullets, the citations and an empty
      line. */
  function MergedSectionLines(s: MergedSection): seq<string>
  {
    ["## " + s.heading] + DashedBullets(MergedBullets(s)) + CitationLines(MergedCitations(s)) + [""]
  }

  /** The `md_lines` list of `trigger_merge`. */
  function MergedLines(sections: seq<MergedSection>): seq<string>
  {
    if |sections| == 0 then []
    else MergedLines(sections[..|sections| - 1]) + MergedSectionLines(sections[|sections| - 1])
  }

  /** The `merged_md` text written to `merged.md`. */
  function MergedMarkdown(m: MergedNotes): (md: string)
    ensures SectionsOf(m) == [] ==> md == ""
  {
    Join(Newline, MergedLines(SectionsOf(m)))
  }

  /** The rendering loop of `trigger_merge`. */
  method RenderMerged(merged: MergedNotes) returns (md: string)
    ensures md == MergedMarkdown(merged)
  {
    var sections := if merged.sections.Some? then merged.sections.value else [];
    var lines: seq<string> := [];
    for i := 0 to |sections|
      invariant lines == MergedLines(sections[..i])
    {
      assert sections[..i + 1][..i] == sections[..i];
      var section := sections[i];
      lines := AppendSection(lines, section);
    }
    assert sections[..|sections|] == sections;
    md := Join(Newline, lines);
  }

  /** The body of the rendering loop: one section's lines after `lines`. */
  method AppendSection(lines: seq<string>, section: MergedSection) returns (out: seq<string>)
    ensures out == lines + MergedSectionLines(section)
  {
    var head := ["## " + section.heading];
    var bulleted := AppendBullets(lines + head, MergedBullets(section));
    var cited := AppendCitations(bulleted, MergedCitations(section));
    out := cited + [""];
    Regroup(lines, head, DashedBullets(MergedBullets(section)), CitationLines(MergedCitations(section)));
  }

  lemma Regroup(lines: seq<string>, head: seq<string>, dashed: seq<string>, cites: seq<string>)
    ensures lines + head + dashed + cites + [""] == lines + (head + dashed + cites + [""])
  {
  }

  /** The bullet loop: one `"- b"` line per bullet after `lines`. */
  method AppendBullets(lines: seq<string>, bullets: seq<string>) returns (out: seq<string>)
    ensures out == lines + DashedBullets(bullets)
  {
    out := lines;
    for j := 0 to |bullets|
      invariant out == lines + DashedBullets(bullets[..j])
    {
      assert bullets[..j + 1][..j] == bullets[..j];
      out := out + ["- " + bullets[j]];
    }
    assert bullets[..|bullets|] == bullets;
  }

  /** The citation loop: one citation line per citation after `lines`. */
  method AppendCitations(lines: seq<string>, citations: seq<Citation>) returns (out: seq<string>)
    ensures out == lines + CitationLines(citations)
  {
    out := lines;
    for j := 0 to |citations|
      invariant out == lines + CitationLines(citations[..j])
    {
      assert citations[..j + 1][..j] == citations[..j];
      out := out + [CitationLine(citations[j])];
    }
    assert citations[..|citations|] == citations;
  }

  // ---------------------------------------------------------------
  // Reading the merged markdown back
  // ---------------------------------------------------------------

  /** A merged section as read back from the markdown. */
  datatype CitedSection = CitedSection(heading: string, bullets: seq<string>, citations: seq<Citation>)

  /** The merged sections with missing keys read as empty lists. */
  function Cited(sections: seq<MergedSection>): (r: seq<CitedSection>)
    ensures |r| == |sections|
  {
    if |sections| == 0 then []
    else
      var s := sections[|sections| - 1];
      Cited(sections[..|sections| - 1]) + [CitedSection(s.heading, MergedBullets(s), MergedCitations(s))]
  }

  /** Read one citation line back. */
  function ParseCitation(line: string): Option<Citation>
  {
    if !StartsWith(line, "  [^t") then None
    else match ReadInt(line[5..])
      case None => None
      case Some((chunkIndex, r1)) =>
        if !StartsWith(r1, "]: ") then None
        else match ReadNat(r1[3..])
          case None => None
          case Some((startTime, r2)) =>
            if !StartsWith(r2, "s\U{2013}") then None
            else match ReadNat(r2[2..])
              case None => None
              case Some((endTime, r3)) =>
                if r3 != "s" then None else Some(Citation(chunkIndex, startTime, endTime))
  }

  /** The reader accepts a line whose pieces read back. */
  lemma ParseCitationOf(line: string, chunkIndex: int, r1: string, startTime: nat, r2: string, endTime: nat)
    requires StartsWith(line, "  [^t") && ReadInt(line[5..]) == Some((chunkIndex, r1))
    requires StartsWith(r1, "]: ") && ReadNat(r1[3..]) == Some((startTime, r2))
    requires StartsWith(r2, "s\U{2013}") && ReadNat(r2[2..]) == Some((endTime, "s"))
    ensures ParseCitation(line) == Some(Citation(chunkIndex, startTime, endTime))
  {
  }

  /** A citation line reads back as its citation. */
  lemma CitationRoundTrip(c: Citation)
    ensures ParseCitation(CitationLine(c)) == Some(c)
  {
    var r2 := "s\U{2013}" + (NatToString(c.endTime) + "s");
    var r1 := "]: " + (NatToString(c.startTime) + r2);
    ReadIntRendered(c.chunkIndex, r1);
    ReadNatRendered(c.startTime, r2);
    ReadNatRendered(c.endTime, "s");
    ParseCitationOf(CitationLine(c), c.chunkIndex, r1, c.startTime, r2, c.endTime);
  }

  /** One line read into the sections so far: a `## ` line opens a section, a `- `
      line adds a bullet and a citation line a citation to the open section, and any
      other line is skipped. */
  function ReadLineInto(p: seq<CitedSection>, line: string): seq<CitedSection>
  {
    if StartsWith(line, "## ") then p + [CitedSection(line[3..], [], [])]
    else if |p| == 0 then p
    else p[..|p| - 1] + [AddToSection(p[|p| - 1], line)]
  }

  /** A bullet or a citation line added to the open section. */
  function AddToSection(s: CitedSection, line: string): CitedSection
  {
    if StartsWith(line, "- ") then s.(bullets := s.bullets + [line[2..]])
    else match ParseCitation(line)
      case Some(c) => s.(citations := s.citations + [c])
      case None => s
  }

  /** Read the merged markdown's lines back, first to last. */
  function ReadMerged(lines: seq<string>): seq<CitedSection>
  {
    if |lines| == 0 then [] else ReadLineInto(ReadMerged(lines[..|lines| - 1]), lines[|lines| - 1])
  }

  /** The reader, one line after `before`. */
  lemma ReadLine(before: seq<string>, line: string)
    ensures ReadMerged(before + [line]) == ReadLineInto(ReadMerged(before), line)
  {
    var lines := before + [line];
    assert lines[..|lines| - 1] == before;
  }

  /** A heading line opens a section with no bullets and no citations. */
  lemma ReadHeadingLine(before: seq<string>, heading: string)
    ensures ReadMerged(before + ["## " + heading]) == ReadMerged(before) + [CitedSection(heading, [], [])]
  {
    ReadLine(before, "## " + heading);
    assert ("## " + heading)[3..] == heading;
  }

  /** A line other than a heading goes into the open section. */
  lemma ReadBodyLine(before: seq<string>, p: seq<CitedSection>, s: CitedSection, line: string)
    requires ReadMerged(before) == p + [s]
    requires !StartsWith(line, "## ")
    ensures ReadMerged(before + [line]) == p + [AddToSection(s, line)]
  {
    ReadLine(before, line);
    assert (p + [s])[..|p|] == p;
  }

  /** No line is a heading. */
  predicate NoHeadings(lines: seq<string>)
  {
    forall k :: 0 <= k < |lines| ==> !StartsWith(lines[k], "## ")
  }

  /** Lines added one by one to a section. */
  function AddLines(s: CitedSection, lines: seq<string>): CitedSection
  {
    if |lines| == 0 then s else AddToSection(AddLines(s, lines[..|lines| - 1]), lines[|lines| - 1])
  }

  lemma AppendLast<T>(a: seq<T>, more: seq<T>)
    requires |more| > 0
    ensures a + more[..|more| - 1] + [more[|more| - 1]] == a + more
  {
    assert more[..|more| - 1] + [more[|more| - 1]] == more;
  }

  lemma SnocRegroup(before: seq<string>, lines: seq<string>, line: string)
    ensures before + (lines + [line]) == before + lines + [line]
  {
  }

  /** Lines without headings all go into the open section. */
  lemma {:induction false} ReadBody(before: seq<string>, p: seq<CitedSection>, s: CitedSection, lines: seq<string>)
    requires ReadMerged(before) == p + [s]
    requires NoHeadings(lines)
    ensures ReadMerged(before + lines) == p + [AddLines(s, lines)]
  {
    if |lines| == 0 {
      assert before + lines == before;
    } else {
      var init, l := lines[..|lines| - 1], lines[|lines| - 1];
      assert NoHeadings(init);
      ReadBody(before, p, s, init);
      assert lines == init + [l];
      SnocRegroup(before, init, l);
      ReadBodyLine(before + init, p, AddLines(s, init), l);
    }
  }

  /** Adding two runs of lines is adding the first, then the second. */
  lemma {:induction false} AddLinesAppend(s: CitedSection, a: seq<string>, b: seq<string>)
    ensures AddLines(s, a + b) == AddLines(AddLines(s, a), b)
  {
    if |b| == 0 {
      assert a + b == a;
    } else {
      var init := b[..|b| - 1];
      AddLinesAppend(s, a, init);
      assert (a + b)[..|a + b| - 1] == a + init;
    }
  }

  /** Bullet lines add their bullets, in order. */
  lemma {:induction false} AddBullets(heading: string, bullets: seq<string>, citations: seq<Citation>, more: seq<string>)
    ensures AddLines(CitedSection(heading, bullets, citations), DashedBullets(more))
         == CitedSection(heading, bullets + more, citations)
  {
    if |more| == 0 {
      assert bullets + more == bullets;
    } else {
      var init, b := more[..|more| - 1], more[|more| - 1];
      AddBullets(heading, bullets, citations, init);
      var line := "- " + b;
      assert DashedBullets(more)[..|more| - 1] == DashedBullets(init);
      assert line[..2] == "- " && line[2..] == b;
      AppendLast(bullets, more);
    }
  }

  /** A citation line adds its citation to a section. */
  lemma AddCitationLine(s: CitedSection, c: Citation)
    ensures AddToSection(s, CitationLine(c)) == s.(citations := s.citations + [c])
  {
    CitationLineStart(c);
    CitationRoundTrip(c);
  }

  /** A citation line is neither a heading nor a bullet. */
  lemma CitationLineStart(c: Citation)
    ensures !StartsWith(CitationLine(c), "## ") && !StartsWith(CitationLine(c), "- ")
  {
    var line := CitationLine(c);
    assert line[0] == ' ';
  }

  /** Citation lines add their citations, in order. */
  lemma {:induction false} AddCitations(heading: string, bullets: seq<string>, citations: seq<Citation>, more: seq<Citation>)
    ensures AddLines(CitedSection(heading, bullets, citations), CitationLines(more))
         == CitedSection(heading, bullets, citations + more)
  {
    if |more| == 0 {
      assert citations + more == citations;
    } else {
      var init, c := more[..|more| - 1], more[|more| - 1];
      AddCitations(heading, bullets, citations, init);
      assert CitationLines(more)[..|more| - 1] == CitationLines(init);
      AddCitationLine(CitedSection(heading, bullets, citations + init), c);
      AppendLast(citations, more);
    }
  }

  lemma DashedNoHeadings(bullets: seq<string>)
    ensures NoHeadings(DashedBullets(bullets))
  {
    forall k | 0 <= k < |bullets|
      ensures !StartsWith(DashedBullets(bullets)[k], "## ")
    {
      PrefixedAt("- ", bullets, k);
      assert DashedBullets(bullets)[k][0] == '-';
    }
  }

  lemma CitationNoHeadings(citations: seq<Citation>)
    ensures NoHeadings(CitationLines(citations))
  {
    forall k | 0 <= k < |citations|
      ensures !StartsWith(CitationLines(citations)[k], "## ")
    {
      CitationLinesAt(citations, k);
      CitationLineStart(citations[k]);
    }
  }

  lemma {:induction false} CitationLinesAt(citations: seq<Citation>, k: nat)
    requires k < |citations|
    ensures CitationLines(citations)[k] == CitationLine(citations[k])
  {
    if k < |citations| - 1 {
      CitationLinesAt(citations[..|citations| - 1], k);
    }
  }

  /** The lines after a section's heading. */
  function SectionBody(s: MergedSection): seq<string>
  {
    DashedBullets(MergedBullets(s)) + CitationLines(MergedCitations(s)) + [""]
  }

  lemma SectionBodyNoHeadings(s: MergedSection)
    ensures NoHeadings(SectionBody(s))
  {
    DashedNoHeadings(MergedBullets(s));
    CitationNoHeadings(MergedCitations(s));
  }

  /** The lines after a heading give the section its bullets and its citations. */
  lemma SectionBodyAdded(s: MergedSection)
    ensures AddLines(CitedSection(s.heading, [], []), SectionBody(s))
         == CitedSection(s.heading, MergedBullets(s), MergedCitations(s))
  {
    var open := CitedSection(s.heading, [], []);
    var dashed, cites := DashedBullets(MergedBullets(s)), CitationLines(MergedCitations(s));
    AddLinesAppend(open, dashed + cites, [""]);
    AddLinesAppend(open, dashed, cites);
    AddBullets(s.heading, [], [], MergedBullets(s));
    assert [] + MergedBullets(s) == MergedBullets(s);
    AddCitations(s.heading, MergedBullets(s), [], MergedCitations(s));
    assert [] + MergedCitations(s) == MergedCitations(s);
    assert ParseCitation("") == None;
  }

  lemma SplitHead(prefix: seq<string>, head: seq<string>, dashed: seq<string>, cites: seq<string>)
    ensures prefix + (head + dashed + cites + [""]) == prefix + head + (dashed + cites + [""])
  {
  }

  /** One section's lines read back as one more section. */
  lemma ReadSectionLines(prefix: seq<string>, s: MergedSection)
    ensures ReadMerged(prefix + MergedSectionLines(s))
         == ReadMerged(prefix) + [CitedSection(s.heading, MergedBullets(s), MergedCitations(s))]
  {
    var head := ["## " + s.heading];
    ReadHeadingLine(prefix, s.heading);
    SectionBodyNoHeadings(s);
    ReadBody(prefix + head, ReadMerged(prefix), CitedSection(s.heading, [], []), SectionBody(s));
    SectionBodyAdded(s);
    SplitHead(prefix, head, DashedBullets(MergedBullets(s)), CitationLines(MergedCitations(s)));
  }

  /** The rendered lines read back as the sections, in order, each with its bullets
      and its citations in order. */
  lemma {:induction false} MergedRoundTrip(sections: seq<MergedSection>)
    ensures ReadMerged(MergedLines(sections)) == Cited(sections)
  {
    if |sections| > 0 {
      var init := sections[..|sections| - 1];
      MergedRoundTrip(init);
      ReadSectionLines(MergedLines(init), sections[|sections| - 1]);
    }
  }

  /** No heading and no bullet of the sections holds a newline. */
  ghost predicate SingleLineSections(sections: seq<MergedSection>)
  {
    forall k :: 0 <= k < |sections| ==> SingleLineSection(sections[k])
  }

  ghost predicate SingleLineSection(s: MergedSection)
  {
    '\n' !in s.heading && forall b :: b in MergedBullets(s) ==> '\n' !in b
  }

  /** No heading and no bullet of the merged notes holds a newline. */
  ghost predicate MergedSingleLine(m: MergedNotes)
  {
    SingleLineSections(SectionsOf(m))
  }

  lemma CitationLineOneLine(c: Citation)
    ensures '\n' !in CitationLine(c)
  {
    var a, b := NatToString(c.startTime), NatToString(c.endTime);
    assert forall i :: 0 <= i < |a| ==> a[i] != '\n';
    assert forall i :: 0 <= i < |b| ==> b[i] != '\n';
    if c.chunkIndex < 0 {
      var n := NatToString(-c.chunkIndex);
      assert forall i :: 0 <= i < |n| ==> n[i] != '\n';
    } else {
      var n := NatToString(c.chunkIndex);
      assert forall i :: 0 <= i < |n| ==> n[i] != '\n';
    }
  }

  lemma {:induction false} CitationLinesOneLine(citations: seq<Citation>)
    ensures forall k :: 0 <= k < |CitationLines(citations)| ==> '\n' !in CitationLines(citations)[k]
  {
    if |citations| > 0 {
      CitationLinesOneLine(citations[..|citations| - 1]);
      CitationLineOneLine(citations[|citations| - 1]);
    }
  }

  lemma SectionLinesOneLine(s: MergedSection)
    requires SingleLineSection(s)
    ensures forall k :: 0 <= k < |MergedSectionLines(s)| ==> '\n' !in MergedSectionLines(s)[k]
  {
    PrefixedOneLine("- ", MergedBullets(s));
    CitationLinesOneLine(MergedCitations(s));
    var h := "## " + s.heading;
    assert forall i :: 0 <= i < |h| ==> h[i] != '\n';
  }

  lemma {:induction false} MergedLinesOneLine(sections: seq<MergedSection>)
    requires SingleLineSections(sections)
    ensures forall k :: 0 <= k < |MergedLines(sections)| ==> '\n' !in MergedLines(sections)[k]
  {
    if |sections| > 0 {
      var init, last := sections[..|sections| - 1], sections[|sections| - 1];
      assert SingleLineSection(sections[|sections| - 1]);
      assert SingleLineSections(init);
      MergedLinesOneLine(init);
      SectionLinesOneLine(last);
    }
  }

  /** When no heading or bullet holds a newline, `merged.md` reads back as the
      generator's sections: one per `## ` heading in order, each with its bullets and
      citations in order, missing keys giving empty lists. */
  lemma MergedMarkdownRoundTrip(m: MergedNotes)
    requires MergedSingleLine(m)
    ensures ReadMerged(Split('\n', MergedMarkdown(m))) == Cited(SectionsOf(m))
  {
    var sections := SectionsOf(m);
    if |sections| == 0 {
      assert Split('\n', MergedMarkdown(m)) == [""];
      ReadLine([], "");
      assert [] + [""] == [""];
    } else {
      assert |MergedLines(sections)| >= |MergedSectionLines(sections[|sections| - 1])| > 0;
      MergedLinesOneLine(sections);
      SplitJoin('\n', MergedLines(sections));
      MergedRoundTrip(sections);
    }
  }

  // ---------------------------------------------------------------
  // `trigger_merge` and `trigger_polish`
  // ---------------------------------------------------------------

  /** `merge_with_slides`: the merged notes for the transcript chunks and the outline's
      JSON text; a missing key is a call that raises. */
  type Merger = map<(seq<TimedText>, string), MergedNotes>

  /** `polish_notes`: the polished notes for a source text; a missing key is a call
      that raises. */
  type Polisher = map<string, string>

  /** The response of `trigger_merge` (its `status` is always `"merged"`). */
  datatype MergeReply = MergeReply(sessionId: int, sections: nat)

  /** What `trigger_merge` answers, given the session's chunks and its outline row
      (`None` when there is none). */
  function MergeResult(sessions: Sessions, sessionId: int, chunks: seq<TimedText>,
                       outline: Option<string>, merger: Merger): Result<MergeReply, HttpError>
  {
    if sessionId !in sessions then Err(NotFound(sessionId))
    else if chunks == [] then Err(HttpError(400, NoChunks))
    else if outline.None? then Err(HttpError(400, NoOutline))
    else if (chunks, outline.value) !in merger then Err(ServerError)
    else Ok(MergeReply(sessionId, |SectionsOf(merger[(chunks, outline.value)])|))
  }

  /** The checks of `trigger_merge` come in order: an unknown session is 404 whatever
      else is missing, then missing chunks are 400 whatever the outline, then a
      missing outline is 400; only with all three present is the generator asked, and
      the reply counts its sections. */
  lemma MergeChecks(sessions: Sessions, sessionId: int, chunks: seq<TimedText>,
                    outline: Option<string>, merger: Merger)
    ensures sessionId !in sessions ==> MergeResult(sessions, sessionId, chunks, outline, merger) == Err(NotFound(sessionId))
    ensures sessionId in sessions && chunks == [] ==>
      MergeResult(sessions, sessionId, chunks, outline, merger) == Err(HttpError(400, NoChunks))
    ensures sessionId in sessions && chunks != [] && outline.None? ==>
      MergeResult(sessions, sessionId, chunks, outline, merger) == Err(HttpError(400, NoOutline))
    ensures MergeResult(sessions, sessionId, chunks, outline, merger).Ok? <==>
      sessionId in sessions && chunks != [] && outline.Some? && (chunks, outline.value) in merger
    ensures MergeResult(sessions, sessionId, chunks, outline, merger).Ok? ==>
      MergeResult(sessions, sessionId, chunks, outline, merger).value
        == MergeReply(sessionId, |SectionsOf(merger[(chunks, outline.value)])|)
  {
  }

  /** The source `trigger_polish` polishes: the merged notes when `merged.md` exists,
      else the live draft, else a 400. */
  function PolishSource(files: map<string, string>, dataDir: string): Result<string, HttpError>
  {
    var merged, live := NotePath(dataDir, "merged.md"), NotePath(dataDir, "live_draft.md");
    if merged in files then Ok(files[merged])
    else if live in files then Ok(files[live])
    else Err(HttpError(400, NothingToPolish))
  }

  /** What `trigger_polish` writes to `polished.md`, or the error it answers. */
  function PolishResult(sessions: Sessions, files: map<string, string>, sessionId: int,
                        polisher: Polisher): Result<string, HttpError>
  {
    if sessionId !in sessions then Err(NotFound(sessionId))
    else match PolishSource(files, sessions[sessionId])
      case Err(e) => Err(e)
      case Ok(source) => if source in polisher then Ok(polisher[source]) else Err(ServerError)
  }

  /** `trigger_polish` answers 404 for an unknown session; then it polishes the merged
      notes whenever they exist, the live draft only when there are no merged notes,
      and answers 400 exactly when neither exists. */
  lemma PolishChoice(sessions: Sessions, files: map<string, string>, sessionId: int, polisher: Polisher)
    ensures sessionId !in sessions ==> PolishResult(sessions, files, sessionId, polisher) == Err(NotFound(sessionId))
    ensures sessionId in sessions ==>
      var d := sessions[sessionId];
      var merged, live := NotePath(d, "merged.md"), NotePath(d, "live_draft.md");
      var r := PolishResult(sessions, files, sessionId, polisher);
      (merged in files ==>
         r == (if files[merged] in polisher then Ok(polisher[files[merged]]) else Err(ServerError)))
      && (merged !in files && live in files ==>
         r == (if files[live] in polisher then Ok(polisher[files[live]]) else Err(ServerError)))
      && (r == Err(HttpError(400, NothingToPolish)) <==> merged !in files && live !in files)
  {
  }

  /** The text files after `trigger_polish`: the polished notes in `polished.md`. */
  function FilesAfterPolish(sessions: Sessions, files: map<string, string>, sessionId: int,
                            polisher: Polisher): map<string, string>
  {
    var r := PolishResult(sessions, files, sessionId, polisher);
    if r.Ok? then files[NotePath(sessions[sessionId], "polished.md") := r.value] else files
  }

  /** The text files after `trigger_merge`: the rendered notes in `merged.md`. */
  function FilesAfterMerge(sessions: Sessions, files: map<string, string>, sessionId: int,
                           chunks: seq<TimedText>, outline: Option<string>, merger: Merger): map<string, string>
  {
    if MergeResult(sessions, sessionId, chunks, outline, merger).Ok? then
      files[NotePath(sessions[sessionId], "merged.md") := MergedMarkdown(merger[(chunks, outline.value)])]
    else files
  }

  /** The JSON documents after `trigger_merge`: the generator's answer in
      `merged_raw.json`. */
  function DocumentsAfterMerge(sessions: Sessions, documents: map<string, MergedNotes>, sessionId: int,
                               chunks: seq<TimedText>, outline: Option<string>, merger: Merger): map<string, MergedNotes>
  {
    if MergeResult(sessions, sessionId, chunks, outline, merger).Ok? then
      documents[NotePath(sessions[sessionId], "merged_raw.json") := merger[(chunks, outline.value)]]
    else documents
  }

  /** After a successful merge, `get_notes` shows the rendered notes under `merged`,
      which read back as the generator's sections, as many as the merge reply
      counted; the live draft and the polished notes are as before. */
  lemma MergeThenGetNotes(sessions: Sessions, files: map<string, string>, sessionId: int,
                          chunks: seq<TimedText>, outline: Option<string>, merger: Merger)
    requires MergeResult(sessions, sessionId, chunks, outline, merger).Ok?
    requires MergedSingleLine(merger[(chunks, outline.value)])
    ensures
      var after := FilesAfterMerge(sessions, files, sessionId, chunks, outline, merger);
      var notes := NotesFor(sessions, after, sessionId).value.notes;
      var d := sessions[sessionId];
      "merged" in notes
      && ReadMerged(Split('\n', notes["merged"])) == Cited(SectionsOf(merger[(chunks, outline.value)]))
      && |ReadMerged(Split('\n', notes["merged"]))| == MergeResult(sessions, sessionId, chunks, outline, merger).value.sections
      && ShowsFile(notes, files, d, "live_draft.md")
      && ShowsFile(notes, files, d, "polished.md")
  {
    var d := sessions[sessionId];
    var m := merger[(chunks, outline.value)];
    var after := FilesAfterMerge(sessions, files, sessionId, chunks, outline, merger);
    assert after == files[NotePath(d, "merged.md") := MergedMarkdown(m)];
    NotesForKeys(sessions, after, sessionId);
    NotePathsDistinct(d);
    MergedMarkdownRoundTrip(m);
  }

  /** Polishing never touches the notes it reads: `merged.md` and `live_draft.md` are
      the same afterwards. */
  lemma PolishKeepsSources(sessions: Sessions, files: map<string, string>, sessionId: int, polisher: Polisher)
    requires sessionId in sessions
    ensures
      var after := FilesAfterPolish(sessions, files, sessionId, polisher);
      var d := sessions[sessionId];
      PolishSource(after, d) == PolishSource(files, d)
  {
    NotePathsDistinct(sessions[sessionId]);
  }

  // ---------------------------------------------------------------
  // The endpoints over the session's files
  // ---------------------------------------------------------------

  /** The notes endpoints' view of the database and the disk: the sessions table, the
      text files and the JSON documents, each by path. */
  class NotesStore {
    var sessions: Sessions
    var files: map<string, string>
    var documents: map<string, MergedNotes>

    constructor(sessions: Sessions, files: map<string, string>, documents: map<string, MergedNotes>)
      ensures this.sessions == sessions && this.files == files && this.documents == documents
    {
      this.sessions := sessions;
      this.files := files;
      this.documents := documents;
    }

    /** `get_notes`. */
    method GetNotes(sessionId: int) returns (r: Result<NotesView, HttpError>)
      ensures r == NotesFor(sessions, files, sessionId)
    {
      if sessionId !in sessions {
        return Err(NotFound(sessionId));
      }
      var dataDir := sessions[sessionId];
      var notes: map<string, string> := map[];
      for i := 0 to |NoteNames|
        invariant notes == NotesFound(files, dataDir, NoteNames[..i])
      {
        assert NoteNames[..i + 1][..i] == NoteNames[..i];
        var path := PathJoin(NotesDir(dataDir), NoteNames[i]);
        if path in files {
          notes := notes[NoteKey(NoteNames[i]) := files[path]];
        }
      }
      assert NoteNames[..|NoteNames|] == NoteNames;
      return Ok(NotesView(sessionId, notes));
    }

    /** `trigger_merge`: on success `merged.md` holds the rendered notes and
        `merged_raw.json` the generator's answer; on any error nothing is written. */
    method TriggerMerge(sessionId: int, chunks: seq<TimedText>, outline: Option<string>, merger: Merger)
      returns (r: Result<MergeReply, HttpError>)
      modifies this`files, this`documents
      ensures r == MergeResult(sessions, sessionId, chunks, outline, merger)
      ensures files == FilesAfterMerge(sessions, old(files), sessionId, chunks, outline, merger)
      ensures documents == DocumentsAfterMerge(sessions, old(documents), sessionId, chunks, outline, merger)
    {
      if sessionId !in sessions {
        return Err(NotFound(sessionId));
      }
      var dataDir := sessions[sessionId];
      if chunks == [] {
        return Err(HttpError(400, NoChunks));
      }
      if outline.None? {
        return Err(HttpError(400, NoOutline));
      }
      if (chunks, outline.value) !in merger {
        return Err(ServerError);
      }
      var merged := merger[(chunks, outline.value)];
      var md := RenderMerged(merged);
      files := files[NotePath(dataDir, "merged.md") := md];
      documents := documents[NotePath(dataDir, "merged_raw.json") := merged];
      return Ok(MergeReply(sessionId, |SectionsOf(merged)|));
    }

    /** `trigger_polish`: on success `polished.md` holds the polished notes and the
        reply carries the session id; on any error nothing is written. */
    method TriggerPolish(sessionId: int, polisher: Polisher) returns (r: Result<int, HttpError>)
      modifies this`files
      ensures var p := PolishResult(sessions, old(files), sessionId, polisher);
        (r.Ok? <==> p.Ok?) && (r.Ok? ==> r.value == sessionId) && (r.Err? ==> r.error == p.error)
      ensures files == FilesAfterPolish(sessions, old(files), sessionId, polisher)
    {
      if sessionId !in sessions {
        return Err(NotFound(sessionId));
      }
      var notesDir := PathJoin(sessions[sessionId], "notes");
      var mergedPath := PathJoin(notesDir, "merged.md");
      var livePath := PathJoin(notesDir, "live_draft.md");
      var source;
      if mergedPath in files {
        source := files[mergedPath];
      } else if livePath in files {
        source := files[livePath];
      } else {
        return Err(HttpError(400, NothingToPolish));
      }
      if source !in polisher {
        return Err(ServerError);
      }
      files := files[PathJoin(notesDir, "polished.md") := polisher[source]];
      return Ok(sessionId);
    }
  }
}
