/** The prompt serialisers of `app/services/notes.py`: `_format_chunks` renders
    transcript chunks one per line as `[S s–E s] text`, `_format_slide_outline`
    renders the slide outline as `## title` lines each followed by its indented
    bullets. Both join their lines with a newline.

    Times are whole seconds: the `:.0f` rounding of the stored float times is not
    modelled. Each rendering is paired with a reader that recovers its input from
    the rendered text. */
module NotesFormat {
  import opened Wrappers
  import opened Text

  /** `"\n"`, the line separator of both formatters. */
  const Newline: string := "\n"

  // ---------------------------------------------------------------
  // `_format_chunks`
  // ---------------------------------------------------------------

  /** A transcript chunk as the formatter reads it: start and end time in whole
      seconds and the text. */
  datatype TimedText = TimedText(startTime: nat, endTime: nat, text: string)

  /** `f"{start:.0f}s–{end:.0f}s"`, with an en dash: the time range both the chunk
      lines and the merged notes' citations show. */
  function TimeRange(startTime: nat, endTime: nat): string
  {
    NatToString(startTime) + ("s\U{2013}" + (NatToString(endTime) + "s"))
  }

  /** `f"{t} {c['text']}"` with `t` the bracketed time range. */
  function ChunkLine(c: TimedText): string
  {
    "[" + (NatToString(c.startTime) + ("s\U{2013}" + (NatToString(c.endTime) + ("s] " + c.text))))
  }

  /** The `lines` list of `_format_chunks`: one line per chunk, in order. */
  function ChunkLines(chunks: seq<TimedText>): (r: seq<string>)
    ensures |r| == |chunks|
    ensures forall k :: 0 <= k < |r| ==> r[k] == ChunkLine(chunks[k])
  {
    if |chunks| == 0 then []
    else ChunkLines(chunks[..|chunks| - 1]) + [ChunkLine(chunks[|chunks| - 1])]
  }

  /** What `_format_chunks` returns. */
  function ChunksText(chunks: seq<TimedText>): (r: string)
    ensures |chunks| == 0 ==> r == ""
    ensures |chunks| == 1 ==> r == ChunkLine(chunks[0])
  {
    Join(Newline, ChunkLines(chunks))
  }

  /** `_format_chunks`. */
  method FormatChunks(chunks: seq<TimedText>) returns (out: string)
    ensures out == ChunksText(chunks)
  {
    var lines: seq<string> := [];
    for i := 0 to |chunks|
      invariant lines == ChunkLines(chunks[..i])
    {
      assert chunks[..i + 1][..i] == chunks[..i];
      var c := chunks[i];
      var t := "[" + NatToString(c.startTime) + "s\U{2013}" + NatToString(c.endTime) + "s]";
      assert t + " " + c.text == ChunkLine(c);
      lines := lines + [t + " " + c.text];
    }
    assert chunks[..|chunks|] == chunks;
    out := Join(Newline, lines);
  }

  /** Read one chunk line back: the bracketed time range, a space, then the text. */
  function ParseChunkLine(line: string): Option<TimedText>
  {
    if !StartsWith(line, "[") then None
    else match ReadNat(line[1..])
      case None => None
      case Some((startTime, r1)) =>
        if !StartsWith(r1, "s\U{2013}") then None
        else match ReadNat(r1[2..])
          case None => None
          case Some((endTime, r2)) =>
            if !StartsWith(r2, "s] ") then None
            else Some(TimedText(startTime, endTime, r2[3..]))
  }

  /** The reader accepts a line whose three pieces read back. */
  lemma ParseChunkLineOf(line: string, startTime: nat, r1: string, endTime: nat, r2: string)
    requires StartsWith(line, "[") && ReadNat(line[1..]) == Some((startTime, r1))
    requires StartsWith(r1, "s\U{2013}") && ReadNat(r1[2..]) == Some((endTime, r2))
    requires StartsWith(r2, "s] ")
    ensures ParseChunkLine(line) == Some(TimedText(startTime, endTime, r2[3..]))
  {
  }

  /** A chunk line reads back as its chunk. */
  lemma ChunkLineRoundTrip(c: TimedText)
    ensures ParseChunkLine(ChunkLine(c)) == Some(c)
  {
    var line := ChunkLine(c);
    var r2 := "s] " + c.text;
    var r1 := "s\U{2013}" + (NatToString(c.endTime) + r2);
    ReadNatRendered(c.startTime, r1);
    ReadNatRendered(c.endTime, r2);
    ParseChunkLineOf(line, c.startTime, r1, c.endTime, r2);
  }

  /** A chunk line holds a newline only where its text does. */
  lemma ChunkLineOneLine(c: TimedText)
    requires '\n' !in c.text
    ensures '\n' !in ChunkLine(c)
  {
    var a, b := NatToString(c.startTime), NatToString(c.endTime);
    assert forall i :: 0 <= i < |a| ==> a[i] != '\n';
    assert forall i :: 0 <= i < |b| ==> b[i] != '\n';
  }

  /** When no chunk text holds a newline, the formatted transcript splits into
      exactly one line per chunk, and each line reads back as its chunk. */
  lemma ChunksTextRoundTrip(chunks: seq<TimedText>)
    requires |chunks| > 0
    requires forall k :: 0 <= k < |chunks| ==> '\n' !in chunks[k].text
    ensures |Split('\n', ChunksText(chunks))| == |chunks|
    ensures forall k :: 0 <= k < |chunks| ==> ParseChunkLine(Split('\n', ChunksText(chunks))[k]) == Some(chunks[k])
  {
    var lines := ChunkLines(chunks);
    forall k | 0 <= k < |lines|
      ensures '\n' !in lines[k]
    {
      ChunkLineOneLine(chunks[k]);
    }
    SplitJoin('\n', lines);
    forall k | 0 <= k < |chunks|
      ensures ParseChunkLine(lines[k]) == Some(chunks[k])
    {
      ChunkLineRoundTrip(chunks[k]);
    }
  }

  // ---------------------------------------------------------------
  // `_format_slide_outline`
  // ---------------------------------------------------------------

  /** An outline section as the formatter reads it: its title and its bullets, `None`
      when the `bullets` key is missing. */
  datatype OutlineSection = OutlineSection(title: string, bullets: Option<seq<string>>)

  /** `s.get("bullets", [])`. */
  function BulletsOf(s: OutlineSection): seq<string>
  {
    if s.bullets.Some? then s.bullets.value else []
  }

  /** One `"  - b"` line per bullet, in order. */
  function IndentedBullets(bullets: seq<string>): seq<string>
  {
    Prefixed("  - ", bullets)
  }

  /** The lines of one section: its heading, then its bullets. */
  function SectionLines(s: OutlineSection): seq<string>
  {
    ["## " + s.title] + IndentedBullets(BulletsOf(s))
  }

  /** The `lines` list of `_format_slide_outline`. */
  function OutlineLines(sections: seq<OutlineSection>): seq<string>
  {
    if |sections| == 0 then []
    else OutlineLines(sections[..|sections| - 1]) + SectionLines(sections[|sections| - 1])
  }

  /** What `_format_slide_outline` returns. */
  function OutlineText(sections: seq<OutlineSection>): (r: string)
    ensures |sections| == 0 ==> r == ""
  {
    Join(Newline, OutlineLines(sections))
  }

  /** `_format_slide_outline`. */
  method FormatSlideOutline(sections: seq<OutlineSection>) returns (out: string)
    ensures out == OutlineText(sections)
  {
    var lines: seq<string> := [];
    for i := 0 to |sections|
      invariant lines == OutlineLines(sections[..i])
    {
      assert sections[..i + 1][..i] == sections[..i];
      var s := sections[i];
      lines := lines + ["## " + s.title];
      var bullets := if s.bullets.Some? then s.bullets.value else [];
      ghost var before := lines;
      for j := 0 to |bullets|
        invariant lines == before + IndentedBullets(bullets[..j])
      {
        assert bullets[..j + 1][..j] == bullets[..j];
        lines := lines + ["  - " + bullets[j]];
      }
      assert bullets[..|bullets|] == bullets;
    }
    assert sections[..|sections|] == sections;
    out := Join(Newline, lines);
  }

  /** A section as read back from the rendered outline. */
  datatype ReadSection = ReadSection(title: string, bullets: seq<string>)

  /** The sections the formatter is given, with a missing `bullets` key read as no
      bullets. */
  function Normalized(sections: seq<OutlineSection>): (r: seq<ReadSection>)
    ensures |r| == |sections|
  {
    if |sections| == 0 then []
    else Normalized(sections[..|sections| - 1])
         + [ReadSection(sections[|sections| - 1].title, BulletsOf(sections[|sections| - 1]))]
  }

  /** Read rendered outline lines back: a `## ` line opens a section, a `  - ` line
      adds a bullet to the open section. */
  function ParseOutline(lines: seq<string>): seq<ReadSection>
  {
    if |lines| == 0 then []
    else
      var p := ParseOutline(lines[..|lines| - 1]);
      var l := lines[|lines| - 1];
      if StartsWith(l, "## ") then p + [ReadSection(l[3..], [])]
      else if StartsWith(l, "  - ") && |p| > 0 then
        p[..|p| - 1] + [p[|p| - 1].(bullets := p[|p| - 1].bullets + [l[4..]])]
      else p
  }

  /** A heading line opens a section with no bullets. */
  lemma ParseHeadingLine(prefix: seq<string>, title: string)
    ensures ParseOutline(prefix + ["## " + title]) == ParseOutline(prefix) + [ReadSection(title, [])]
  {
    var lines := prefix + ["## " + title];
    assert lines[..|lines| - 1] == prefix;
    assert ("## " + title)[3..] == title;
  }

  /** A bullet line adds its bullet to the open section. */
  lemma ParseBulletLine(before: seq<string>, p: seq<ReadSection>, title: string, bullets: seq<string>, b: string)
    requires ParseOutline(before) == p + [ReadSection(title, bullets)]
    ensures ParseOutline(before + ["  - " + b]) == p + [ReadSection(title, bullets + [b])]
  {
    var line := "  - " + b;
    var lines := before + [line];
    assert lines[..|lines| - 1] == before;
    assert line[0] == ' ';
    assert line[4..] == b;
    var q := p + [ReadSection(title, bullets)];
    assert q[..|q| - 1] == p;
  }

  /** A heading followed by its bullet lines reads back as one more section. */
  lemma {:induction false} ParseSectionLines(prefix: seq<string>, title: string, bullets: seq<string>)
    ensures ParseOutline(prefix + ["## " + title] + IndentedBullets(bullets))
         == ParseOutline(prefix) + [ReadSection(title, bullets)]
    decreases |bullets|
  {
    var headed := prefix + ["## " + title];
    if |bullets| == 0 {
      assert headed + IndentedBullets(bullets) == headed;
      ParseHeadingLine(prefix, title);
    } else {
      var init, b := bullets[..|bullets| - 1], bullets[|bullets| - 1];
      ParseSectionLines(prefix, title, init);
      var before := headed + IndentedBullets(init);
      assert IndentedBullets(bullets) == IndentedBullets(init) + ["  - " + b];
      assert headed + (IndentedBullets(init) + ["  - " + b]) == before + ["  - " + b];
      ParseBulletLine(before, ParseOutline(prefix), title, init, b);
      assert init + [b] == bullets;
    }
  }

  /** The rendered outline lines read back as the sections, in order, each with its
      bullets in order. */
  lemma {:induction false} OutlineRoundTrip(sections: seq<OutlineSection>)
    ensures ParseOutline(OutlineLines(sections)) == Normalized(sections)
  {
    if |sections| > 0 {
      var init, last := sections[..|sections| - 1], sections[|sections| - 1];
      OutlineRoundTrip(init);
      var prefix := OutlineLines(init);
      assert OutlineLines(sections) == prefix + ["## " + last.title] + IndentedBullets(BulletsOf(last));
      ParseSectionLines(prefix, last.title, BulletsOf(last));
    }
  }

  /** No title and no bullet holds a newline. */
  ghost predicate SingleLine(sections: seq<OutlineSection>)
  {
    forall k :: 0 <= k < |sections| ==>
      '\n' !in sections[k].title && forall b :: b in BulletsOf(sections[k]) ==> '\n' !in b
  }

  lemma {:induction false} OutlineLinesOneLine(sections: seq<OutlineSection>)
    requires SingleLine(sections)
    ensures forall k :: 0 <= k < |OutlineLines(sections)| ==> '\n' !in OutlineLines(sections)[k]
  {
    if |sections| > 0 {
      var init, last := sections[..|sections| - 1], sections[|sections| - 1];
      assert SingleLine(init);
      OutlineLinesOneLine(init);
      PrefixedOneLine("  - ", BulletsOf(last));
    }
  }

  /** When no title or bullet holds a newline, the formatted outline text reads back
      as the sections: one `## title` line per section in section order, each
      followed by its bullets in order, a missing `bullets` key giving none. */
  lemma OutlineTextRoundTrip(sections: seq<OutlineSection>)
    requires |sections| > 0 && SingleLine(sections)
    ensures ParseOutline(Split('\n', OutlineText(sections))) == Normalized(sections)
  {
    assert |OutlineLines(sections)| >= |SectionLines(sections[|sections| - 1])| > 0;
    OutlineLinesOneLine(sections);
    SplitJoin('\n', OutlineLines(sections));
    OutlineRoundTrip(sections);
  }
}
