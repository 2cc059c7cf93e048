/** Slide outline post-processing of `app/services/slides.py`.

    The PDF and PPTX libraries are abstracted away: a PDF page arrives as its text
    lines and its embedded images, a PPTX slide as its shapes. Image bytes and the
    files they are written to are not modelled; a candidate keeps the path it
    would be written to. */
module Slides {
  import opened Wrappers
  import opened Text

  /** `MAX_IMAGES`: images kept per lecture. */
  const MaxImages: nat := 10
  /** `MIN_PIXEL_AREA`: smaller images (icons) are discarded. */
  const MinPixelArea: int := 100 * 100

  /** An extracted image that passed the area filter. */
  datatype Candidate = Candidate(page: nat, path: string, filename: string, area: int)

  /** One outline section; `slideRef` is the single entry of `slide_refs`. */
  datatype Section = Section(title: string, bullets: seq<string>, slideRef: nat, imagePaths: seq<string>)

  // ---------------------------------------------------------------
  // `_filter_images`
  // ---------------------------------------------------------------

  /** Largest area first. */
  ghost predicate Descending(s: seq<Candidate>)
  {
    forall i, j :: 0 <= i < j < |s| ==> s[i].area >= s[j].area
  }

  /** Insert `x` into a descending sequence after every element whose area is at
      least its own. */
  function InsertByArea(t: seq<Candidate>, x: Candidate): seq<Candidate>
  {
    if |t| == 0 then [x]
    else if t[|t| - 1].area >= x.area then t + [x]
    else InsertByArea(t[..|t| - 1], x) + [t[|t| - 1]]
  }

  /** `sorted(candidates, key=area, reverse=True)`: Python's sort is stable also when
      reversed, so equal areas keep their input order. */
  function SortByArea(s: seq<Candidate>): seq<Candidate>
  {
    if |s| == 0 then [] else InsertByArea(SortByArea(s[..|s| - 1]), s[|s| - 1])
  }

  /** The elements with area `a`, in order. */
  function WithArea(s: seq<Candidate>, a: int): seq<Candidate>
  {
    if |s| == 0 then [] else WithArea(s[..|s| - 1], a) + (if s[|s| - 1].area == a then [s[|s| - 1]] else [])
  }

  /** Every element has area at least `v`. */
  ghost predicate AtLeast(s: seq<Candidate>, v: int)
  {
    forall i :: 0 <= i < |s| ==> s[i].area >= v
  }

  lemma DescendingSnoc(s: seq<Candidate>, x: Candidate)
    requires Descending(s) && AtLeast(s, x.area)
    ensures Descending(s + [x])
  {
  }

  lemma DescendingInit(s: seq<Candidate>)
    requires |s| > 0 && Descending(s)
    ensures Descending(s[..|s| - 1]) && AtLeast(s[..|s| - 1], s[|s| - 1].area)
  {
  }

  lemma {:induction false} InsertAtLeast(t: seq<Candidate>, x: Candidate, v: int)
    requires AtLeast(t, v) && x.area >= v
    ensures AtLeast(InsertByArea(t, x), v)
  {
    if |t| > 0 && t[|t| - 1].area < x.area {
      InsertAtLeast(t[..|t| - 1], x, v);
    }
  }

  lemma {:induction false} InsertDescending(t: seq<Candidate>, x: Candidate)
    requires Descending(t)
    ensures Descending(InsertByArea(t, x))
  {
    if |t| == 0 {
    } else if t[|t| - 1].area >= x.area {
      DescendingSnoc(t, x);
    } else {
      var init, last := t[..|t| - 1], t[|t| - 1];
      DescendingInit(t);
      InsertDescending(init, x);
      InsertAtLeast(init, x, last.area);
      DescendingSnoc(InsertByArea(init, x), last);
    }
  }

  lemma {:induction false} InsertMultiset(t: seq<Candidate>, x: Candidate)
    ensures multiset(InsertByArea(t, x)) == multiset(t) + multiset{x}
  {
    if |t| > 0 && t[|t| - 1].area < x.area {
      var init, last := t[..|t| - 1], t[|t| - 1];
      assert t == init + [last];
      InsertMultiset(init, x);
    }
  }

  lemma {:induction false} InsertByAreaStable(t: seq<Candidate>, x: Candidate, a: int)
    requires Descending(t)
    ensures WithArea(InsertByArea(t, x), a) == WithArea(t, a) + (if x.area == a then [x] else [])
  {
    if |t| == 0 {
      assert WithArea([x], a) == WithArea([], a) + (if x.area == a then [x] else []);
    } else if t[|t| - 1].area >= x.area {
      assert (t + [x])[..|t|] == t;
    } else {
      var init, last := t[..|t| - 1], t[|t| - 1];
      InsertByAreaStable(init, x, a);
      var r := InsertByArea(init, x);
      assert (r + [last])[..|r|] == r;
    }
  }

  /** The sort puts larger areas first. */
  lemma {:induction false} SortDescending(s: seq<Candidate>)
    ensures Descending(SortByArea(s))
  {
    if |s| > 0 {
      SortDescending(s[..|s| - 1]);
      InsertDescending(SortByArea(s[..|s| - 1]), s[|s| - 1]);
    }
  }

  /** The sort is a permutation. */
  lemma {:induction false} SortPermutation(s: seq<Candidate>)
    ensures multiset(SortByArea(s)) == multiset(s)
  {
    if |s| > 0 {
      var init, last := s[..|s| - 1], s[|s| - 1];
      SortPermutation(init);
      InsertMultiset(SortByArea(init), last);
      assert s == init + [last];
    }
  }

  /** The sort keeps the input order among equal areas. */
  lemma {:induction false} SortStable(s: seq<Candidate>, a: int)
    ensures WithArea(SortByArea(s), a) == WithArea(s, a)
  {
    if |s| > 0 {
      var init, last := s[..|s| - 1], s[|s| - 1];
      SortStable(init, a);
      SortDescending(init);
      InsertByAreaStable(SortByArea(init), last, a);
    }
  }

  /** The filenames occurring in `s`. */
  function Filenames(s: seq<Candidate>): set<string>
  {
    if |s| == 0 then {} else Filenames(s[..|s| - 1]) + {s[|s| - 1].filename}
  }

  /** The `seen`/`unique` loop: each filename's first occurrence, in order. */
  function Dedupe(s: seq<Candidate>): seq<Candidate>
  {
    if |s| == 0 then []
    else if s[|s| - 1].filename in Filenames(s[..|s| - 1]) then Dedupe(s[..|s| - 1])
    else Dedupe(s[..|s| - 1]) + [s[|s| - 1]]
  }

  /** `unique[:MAX_IMAGES]`. */
  function Cap(s: seq<Candidate>): seq<Candidate>
  {
    if |s| <= MaxImages then s else s[..MaxImages]
  }

  /** What `_filter_images` returns. */
  function Selection(candidates: seq<Candidate>): seq<Candidate>
  {
    Cap(Dedupe(SortByArea(candidates)))
  }

  lemma {:induction false} FilenamesContain(s: seq<Candidate>)
    ensures forall k :: 0 <= k < |s| ==> s[k].filename in Filenames(s)
  {
    if |s| > 0 {
      FilenamesContain(s[..|s| - 1]);
    }
  }

  lemma {:induction false} FilenamesWitness(s: seq<Candidate>, f: string)
    requires f in Filenames(s)
    ensures exists k :: 0 <= k < |s| && s[k].filename == f
  {
    if s[|s| - 1].filename != f {
      FilenamesWitness(s[..|s| - 1], f);
      var k :| 0 <= k < |s| - 1 && s[..|s| - 1][k].filename == f;
      assert s[k].filename == f;
    }
  }

  lemma {:induction false} DedupeFilenames(s: seq<Candidate>)
    ensures Filenames(Dedupe(s)) == Filenames(s)
    ensures |Dedupe(s)| == |Filenames(s)|
  {
    if |s| > 0 {
      var init, last := s[..|s| - 1], s[|s| - 1];
      DedupeFilenames(init);
      var d := Dedupe(init);
      if last.filename !in Filenames(init) {
        assert (d + [last])[..|d|] == d;
      }
    }
  }

  lemma {:induction false} DedupeDistinct(s: seq<Candidate>)
    ensures forall i, j :: 0 <= i < j < |Dedupe(s)| ==> Dedupe(s)[i].filename != Dedupe(s)[j].filename
  {
    if |s| > 0 {
      var init, last := s[..|s| - 1], s[|s| - 1];
      DedupeDistinct(init);
      var d := Dedupe(init);
      if last.filename !in Filenames(init) {
        DedupeFilenames(init);
        FilenamesContain(d);
        var d' := d + [last];
        forall i, j | 0 <= i < j < |d'|
          ensures d'[i].filename != d'[j].filename
        {
          if j == |d| {
            assert d'[i] == d[i] && d[i].filename in Filenames(d);
          } else {
            assert d'[i] == d[i] && d'[j] == d[j];
          }
        }
      }
    }
  }

  lemma {:induction false} DedupeMembers(s: seq<Candidate>)
    ensures forall k :: 0 <= k < |Dedupe(s)| ==> Dedupe(s)[k] in s
  {
    if |s| > 0 {
      var init, last := s[..|s| - 1], s[|s| - 1];
      DedupeMembers(init);
      assert forall y :: y in init ==> y in s;
    }
  }

  lemma {:induction false} DedupeAtLeast(s: seq<Candidate>, v: int)
    requires AtLeast(s, v)
    ensures AtLeast(Dedupe(s), v)
  {
    if |s| > 0 {
      DedupeAtLeast(s[..|s| - 1], v);
    }
  }

  lemma {:induction false} DedupeDescending(s: seq<Candidate>)
    requires Descending(s)
    ensures Descending(Dedupe(s))
  {
    if |s| > 0 {
      var init, last := s[..|s| - 1], s[|s| - 1];
      DescendingInit(s);
      DedupeDescending(init);
      if last.filename !in Filenames(init) {
        DedupeAtLeast(init, last.area);
        DescendingSnoc(Dedupe(init), last);
      }
    }
  }

  /** No element of `s` with the same filename as an element of `d` has a larger area. */
  ghost predicate KeepsLargest(d: seq<Candidate>, s: seq<Candidate>)
  {
    forall k, m :: 0 <= k < |d| && 0 <= m < |s| && s[m].filename == d[k].filename ==> s[m].area <= d[k].area
  }

  /** On a descending sequence deduplication keeps, for every filename, a copy with
      the largest area. */
  lemma {:induction false} DedupeKeepsLargest(s: seq<Candidate>)
    requires Descending(s)
    ensures KeepsLargest(Dedupe(s), s)
  {
    if |s| > 0 {
      var init, last := s[..|s| - 1], s[|s| - 1];
      DescendingInit(s);
      DedupeKeepsLargest(init);
      DedupeAtLeast(init, last.area);
      assert s == init + [last];
      if last.filename in Filenames(init) {
        KeepsLargestOld(Dedupe(init), init, last);
      } else {
        DedupeFilenames(init);
        FilenamesContain(init);
        FilenamesContain(Dedupe(init));
        KeepsLargestNew(Dedupe(init), init, last);
      }
    }
  }

  lemma KeepsLargestOld(d: seq<Candidate>, init: seq<Candidate>, last: Candidate)
    requires KeepsLargest(d, init) && AtLeast(d, last.area)
    ensures KeepsLargest(d, init + [last])
  {
    var s := init + [last];
    forall k, m | 0 <= k < |d| && 0 <= m < |s| && s[m].filename == d[k].filename
      ensures s[m].area <= d[k].area
    {
      if m < |init| {
        assert s[m] == init[m];
      }
    }
  }

  lemma KeepsLargestNew(d: seq<Candidate>, init: seq<Candidate>, last: Candidate)
    requires KeepsLargest(d, init) && AtLeast(d, last.area)
    requires last.filename !in Filenames(init) && Filenames(d) == Filenames(init)
    requires forall k :: 0 <= k < |init| ==> init[k].filename in Filenames(init)
    requires forall k :: 0 <= k < |d| ==> d[k].filename in Filenames(d)
    ensures KeepsLargest(d + [last], init + [last])
  {
    var s, d' := init + [last], d + [last];
    forall k, m | 0 <= k < |d'| && 0 <= m < |s| && s[m].filename == d'[k].filename
      ensures s[m].area <= d'[k].area
    {
      if k < |d| && m < |init| {
        assert s[m] == init[m] && d'[k] == d[k];
      } else if k < |d| || m < |init| {
        // the filename of `last` is new to `init`
        assert false;
      }
    }
  }

  /** `Cap` keeps a prefix of at most `MAX_IMAGES` elements. */
  lemma CapPrefix(d: seq<Candidate>)
    ensures |Cap(d)| <= MaxImages && |Cap(d)| <= |d|
    ensures forall k :: 0 <= k < |Cap(d)| ==> Cap(d)[k] == d[k]
    ensures |d| <= MaxImages ==> Cap(d) == d
  {
  }

  /** `_filter_images` returns at most `MAX_IMAGES` images with pairwise distinct
      filenames. */
  lemma SelectionDistinct(candidates: seq<Candidate>)
    ensures var r := Selection(candidates);
      |r| <= MaxImages && forall i, j :: 0 <= i < j < |r| ==> r[i].filename != r[j].filename
  {
    var d := Dedupe(SortByArea(candidates));
    DedupeDistinct(SortByArea(candidates));
    CapPrefix(d);
  }

  /** The selected images come largest area first. */
  lemma SelectionDescending(candidates: seq<Candidate>)
    ensures Descending(Selection(candidates))
  {
    var d := Dedupe(SortByArea(candidates));
    SortDescending(candidates);
    DedupeDescending(SortByArea(candidates));
    CapPrefix(d);
  }

  /** Every selected image is one of the candidates. */
  lemma SelectionMembers(candidates: seq<Candidate>)
    ensures forall k :: 0 <= k < |Selection(candidates)| ==> Selection(candidates)[k] in candidates
  {
    var sorted := SortByArea(candidates);
    var d := Dedupe(sorted);
    SortPermutation(candidates);
    DedupeMembers(sorted);
    CapPrefix(d);
    forall k | 0 <= k < |Cap(d)|
      ensures Cap(d)[k] in candidates
    {
      assert d[k] in multiset(sorted);
    }
  }

  /** For each selected filename no candidate with that filename has a larger area:
      duplicates lose to the largest copy. */
  lemma SelectionKeepsLargest(candidates: seq<Candidate>)
    ensures KeepsLargest(Selection(candidates), candidates)
  {
    var sorted := SortByArea(candidates);
    var d := Dedupe(sorted);
    SortDescending(candidates);
    SortPermutation(candidates);
    DedupeKeepsLargest(sorted);
    CapPrefix(d);
    var r := Cap(d);
    forall k, m | 0 <= k < |r| && 0 <= m < |candidates| && candidates[m].filename == r[k].filename
      ensures candidates[m].area <= r[k].area
    {
      assert candidates[m] in multiset(sorted);
      var j :| 0 <= j < |sorted| && sorted[j] == candidates[m];
      assert r[k] == d[k];
    }
  }

  /** With at most `MAX_IMAGES` distinct filenames nothing is cut: every filename is
      selected, once. */
  lemma SelectionComplete(candidates: seq<Candidate>)
    requires |Filenames(candidates)| <= MaxImages
    ensures Filenames(Selection(candidates)) == Filenames(candidates)
    ensures |Selection(candidates)| == |Filenames(candidates)|
  {
    var sorted := SortByArea(candidates);
    DedupeFilenames(sorted);
    FilenamesSorted(candidates);
    CapPrefix(Dedupe(sorted));
  }

  lemma FilenamesSorted(candidates: seq<Candidate>)
    ensures Filenames(SortByArea(candidates)) == Filenames(candidates)
  {
    SortPermutation(candidates);
    FilenamesPermutation(SortByArea(candidates), candidates);
  }

  lemma FilenamesPermutation(s: seq<Candidate>, t: seq<Candidate>)
    requires multiset(s) == multiset(t)
    ensures Filenames(s) == Filenames(t)
  {
    FilenamesContain(s);
    FilenamesContain(t);
    forall f | f in Filenames(s)
      ensures f in Filenames(t)
    {
      FilenamesWitness(s, f);
      var k :| 0 <= k < |s| && s[k].filename == f;
      assert s[k] in multiset(t);
    }
    forall f | f in Filenames(t)
      ensures f in Filenames(s)
    {
      FilenamesWitness(t, f);
      var k :| 0 <= k < |t| && t[k].filename == f;
      assert t[k] in multiset(s);
    }
  }

  /** `_filter_images`: sort by area, keep the first image of each filename, cap. */
  method FilterImages(candidates: seq<Candidate>) returns (selected: seq<Candidate>)
    ensures selected == Selection(candidates)
  {
    var seen: set<string> := {};
    var unique: seq<Candidate> := [];
    var ordered := SortByArea(candidates);
    var i := 0;
    while i < |ordered|
      invariant 0 <= i <= |ordered|
      invariant seen == Filenames(ordered[..i])
      invariant unique == Dedupe(ordered[..i])
    {
      var img := ordered[i];
      assert ordered[..i + 1][..i] == ordered[..i];
      if img.filename !in seen {
        seen := seen + {img.filename};
        unique := unique + [img];
      }
      i := i + 1;
    }
    assert ordered[..i] == ordered;
    selected := if |unique| <= MaxImages then unique else unique[..MaxImages];
  }

  // ---------------------------------------------------------------
  // Image candidates
  // ---------------------------------------------------------------

  /** `f"slide_{page:02d}_img_{id}.{ext}"`. */
  function ImageFilename(page: nat, id: nat, ext: string): string
  {
    "slide_" + ZeroPad(page, 2) + "_img_" + NatToString(id) + "." + ext
  }

  /** Distinct images get distinct names: the page, the image id and the extension
      can be read back from the filename, so de-duplication by filename only ever
      merges the same image id on the same page. */
  lemma ImageFilenameInjective(page: nat, id: nat, ext: string, page': nat, id': nat, ext': string)
    requires ImageFilename(page, id, ext) == ImageFilename(page', id', ext')
    ensures page == page' && id == id' && ext == ext'
  {
    var p, p' := ZeroPad(page, 2), ZeroPad(page', 2);
    var n, n' := NatToString(id), NatToString(id');
    var r, r' := "img_" + (n + ['.'] + ext), "img_" + (n' + ['.'] + ext');
    FilenameShape(page, id, ext);
    FilenameShape(page', id', ext');
    PrefixCancel("slide_", p + ['_'] + r, p' + ['_'] + r');
    NoSeparatorInDigits('_', p);
    NoSeparatorInDigits('_', p');
    FirstSeparator('_', p, r, p', r');
    ZeroPadInjective(page, page', 2);
    PrefixCancel("img_", n + ['.'] + ext, n' + ['.'] + ext');
    NoSeparatorInDigits('.', n);
    NoSeparatorInDigits('.', n');
    FirstSeparator('.', n, ext, n', ext');
    NatToStringInjective(id, id');
  }

  /** The filename regrouped around its two separators. */
  lemma FilenameShape(page: nat, id: nat, ext: string)
    ensures ImageFilename(page, id, ext)
         == "slide_" + (ZeroPad(page, 2) + ['_'] + ("img_" + (NatToString(id) + ['.'] + ext)))
  {
  }

  /** A separator that is not a digit does not occur in a run of digits. */
  lemma NoSeparatorInDigits(sep: char, d: string)
    requires !IsDigit(sep) && forall i :: 0 <= i < |d| ==> IsDigit(d[i])
    ensures sep !in d
  {
  }

  /** The candidate for one image that passed the area filter. */
  function MakeCandidate(page: nat, imagesDir: string, id: nat, ext: string, area: int): (c: Candidate)
    ensures c.page == page && c.area == area && c.filename == ImageFilename(page, id, ext)
    ensures c.path == PathJoin(imagesDir, c.filename)
  {
    var filename := ImageFilename(page, id, ext);
    Candidate(page, PathJoin(imagesDir, filename), filename, area)
  }

  /** What `doc.extract_image` reports about an embedded image; `ext` is absent when
      the library gives none. */
  datatype Extracted = Extracted(width: int, height: int, ext: Option<string>)

  /** One entry of `page.get_images`: its xref, and the extraction, `None` when it raises. */
  datatype PdfImage = PdfImage(xref: nat, extracted: Option<Extracted>)

  /** A PDF page: its text lines and its embedded images. */
  datatype PdfPage = PdfPage(lines: seq<string>, images: seq<PdfImage>)

  /** One embedded image: skipped when extraction raises or the image is smaller than
      `MIN_PIXEL_AREA`; the extension defaults to `png`. */
  function PdfCandidate(page: nat, imagesDir: string, img: PdfImage): (r: seq<Candidate>)
    ensures |r| <= 1
    ensures |r| == 1 <==>
      img.extracted.Some? && img.extracted.value.width * img.extracted.value.height >= MinPixelArea
    ensures |r| == 1 ==> r[0].page == page && r[0].area == img.extracted.value.width * img.extracted.value.height
  {
    match img.extracted
    case None => []
    case Some(e) =>
      if e.width * e.height < MinPixelArea then []
      else
        var ext := if e.ext.Some? then e.ext.value else "png";
        [MakeCandidate(page, imagesDir, img.xref, ext, e.width * e.height)]
  }

  /** The candidates of one PDF page, in `get_images` order. */
  function PdfPageCandidates(page: nat, imagesDir: string, images: seq<PdfImage>): seq<Candidate>
  {
    if |images| == 0 then []
    else PdfPageCandidates(page, imagesDir, images[..|images| - 1]) + PdfCandidate(page, imagesDir, images[|images| - 1])
  }

  /** The inner image loop of `_parse_pdf` for one page. */
  method CollectPdfImages(page: nat, imagesDir: string, images: seq<PdfImage>) returns (found: seq<Candidate>)
    ensures found == PdfPageCandidates(page, imagesDir, images)
  {
    found := [];
    var i := 0;
    while i < |images|
      invariant 0 <= i <= |images|
      invariant found == PdfPageCandidates(page, imagesDir, images[..i])
    {
      assert images[..i + 1][..i] == images[..i];
      var img := images[i];
      if img.extracted.Some? {
        var e := img.extracted.value;
        if e.width * e.height >= MinPixelArea {
          var ext := if e.ext.Some? then e.ext.value else "png";
          var filename := ImageFilename(page, img.xref, ext);
          found := found + [Candidate(page, PathJoin(imagesDir, filename), filename, e.width * e.height)];
        }
      }
      i := i + 1;
    }
    assert images[..i] == images;
  }

  /** Every candidate lies on `page` and passed the area filter. */
  ghost predicate OnPageFiltered(s: seq<Candidate>, page: nat)
  {
    forall k :: 0 <= k < |s| ==> s[k].page == page && s[k].area >= MinPixelArea
  }

  /** Every PDF candidate lies on its page and passed the area filter. */
  lemma {:induction false} PdfCandidatesFiltered(page: nat, imagesDir: string, images: seq<PdfImage>)
    ensures OnPageFiltered(PdfPageCandidates(page, imagesDir, images), page)
  {
    if |images| > 0 {
      PdfCandidatesFiltered(page, imagesDir, images[..|images| - 1]);
    }
  }

  /** A picture shape: its id, its size in pixels (EMU converted at 96 DPI) and its
      image's content type, `None` when reading the image raises. */
  datatype Picture = Picture(shapeId: nat, widthPx: int, heightPx: int, contentType: Option<string>)

  /** `content_type.split("/")[-1]`: what follows the last `/`. */
  function LastSegment(s: string): (r: string)
    ensures |r| <= |s| && r == s[|s| - |r|..] && '/' !in r
    ensures |r| < |s| ==> s[|s| - |r| - 1] == '/'
  {
    if |s| == 0 then ""
    else if s[|s| - 1] == '/' then ""
    else LastSegment(s[..|s| - 1]) + [s[|s| - 1]]
  }

  /** The PPTX file extension: the content type's subtype, `jpeg` written `jpg`. */
  function PptxExt(contentType: string): string
  {
    var ext := LastSegment(contentType);
    if ext == "jpeg" then "jpg" else ext
  }

  /** One picture: skipped when its image cannot be read or it is smaller than
      `MIN_PIXEL_AREA`. */
  function PictureCandidate(slide: nat, imagesDir: string, pic: Picture): (r: seq<Candidate>)
    ensures |r| <= 1
    ensures |r| == 1 <==> pic.contentType.Some? && pic.widthPx * pic.heightPx >= MinPixelArea
    ensures |r| == 1 ==> r[0].page == slide && r[0].area == pic.widthPx * pic.heightPx
  {
    if pic.contentType.None? || pic.widthPx * pic.heightPx < MinPixelArea then []
    else [MakeCandidate(slide, imagesDir, pic.shapeId, PptxExt(pic.contentType.value), pic.widthPx * pic.heightPx)]
  }

  // ---------------------------------------------------------------
  // Titles and bullets
  // ---------------------------------------------------------------

  /** `[line.strip() for line in lines if line.strip()]`. */
  function StrippedLines(lines: seq<string>): (r: seq<string>)
    ensures forall k :: 0 <= k < |r| ==> r[k] != ""
  {
    if |lines| == 0 then []
    else (if Strip(lines[0]) != "" then [Strip(lines[0])] else []) + StrippedLines(lines[1..])
  }

  /** The section of PDF page `page`: the first stripped non-empty line as title, or
      `Page k`; the remaining stripped non-empty lines as bullets. */
  function PdfSection(page: nat, lines: seq<string>): Section
  {
    var ls := StrippedLines(lines);
    Section(if |ls| > 0 then ls[0] else "Page " + NatToString(page),
            if |ls| > 1 then ls[1..] else [],
            page, [])
  }

  lemma {:induction false} StrippedLinesSkip(lines: seq<string>, j: nat)
    requires j <= |lines| && forall i :: 0 <= i < j ==> Strip(lines[i]) == ""
    ensures StrippedLines(lines) == StrippedLines(lines[j..])
  {
    if j > 0 {
      var rest := lines[1..];
      assert Strip(lines[0]) == "";
      assert StrippedLines(lines) == StrippedLines(rest);
      forall i | 0 <= i < j - 1
        ensures Strip(rest[i]) == ""
      {
        assert rest[i] == lines[i + 1];
      }
      StrippedLinesSkip(rest, j - 1);
      assert rest[j - 1..] == lines[j..];
    }
  }

  /** The title is the first line that is not blank, stripped, and the bullets are the
      non-blank lines after it. */
  lemma PdfSectionTitle(page: nat, lines: seq<string>, j: nat)
    requires j < |lines| && Strip(lines[j]) != ""
    requires forall i :: 0 <= i < j ==> Strip(lines[i]) == ""
    ensures PdfSection(page, lines).title == Strip(lines[j])
    ensures PdfSection(page, lines).bullets == StrippedLines(lines[j + 1..])
  {
    StrippedLinesSkip(lines, j);
    assert lines[j..][1..] == lines[j + 1..];
  }

  /** A page without any non-blank line is titled `Page k` and has no bullets. */
  lemma PdfSectionUntitled(page: nat, lines: seq<string>)
    requires forall i :: 0 <= i < |lines| ==> Strip(lines[i]) == ""
    ensures PdfSection(page, lines).title == "Page " + NatToString(page)
    ensures PdfSection(page, lines).bullets == []
  {
    StrippedLinesSkip(lines, |lines|);
  }

  /** A PPTX shape: the text of its text frame (absent when it has none), whether it is
      the title placeholder (`placeholder_format.idx == 0`), and its picture when it is
      one. */
  datatype Shape = Shape(text: Option<string>, titlePlaceholder: bool, picture: Option<Picture>)

  /** The state of the loop over a slide's shapes. */
  datatype Scan = Scan(title: Option<string>, texts: seq<string>, candidates: seq<Candidate>)

  /** One iteration of the shape loop: an empty text frame skips the shape (its picture
      too); the first non-empty title placeholder becomes the title and skips the rest;
      any other non-empty frame is collected; a picture adds its candidate. */
  function ScanShape(slide: nat, imagesDir: string, st: Scan, shape: Shape): Scan
  {
    if shape.text.Some? && Strip(shape.text.value) == "" then st
    else if shape.text.Some? && st.title.None? && shape.titlePlaceholder then
      st.(title := Some(Strip(shape.text.value)))
    else
      var st1 := if shape.text.Some? then st.(texts := st.texts + [Strip(shape.text.value)]) else st;
      if shape.picture.Some? then st1.(candidates := st1.candidates + PictureCandidate(slide, imagesDir, shape.picture.value))
      else st1
  }

  /** The shape loop over a whole slide. */
  function ScanShapes(slide: nat, imagesDir: string, shapes: seq<Shape>): Scan
  {
    if |shapes| == 0 then Scan(None, [], [])
    else ScanShape(slide, imagesDir, ScanShapes(slide, imagesDir, shapes[..|shapes| - 1]), shapes[|shapes| - 1])
  }

  /** A shape whose text can become the title. */
  predicate IsTitleShape(shape: Shape)
  {
    shape.text.Some? && shape.titlePlaceholder && Strip(shape.text.value) != ""
  }

  /** The stripped text a shape contributes when its frame is not blank. */
  function FrameText(shape: Shape): seq<string>
  {
    if shape.text.Some? && Strip(shape.text.value) != "" then [Strip(shape.text.value)] else []
  }

  /** The stripped texts of the non-empty text frames, in order. */
  function FrameTexts(shapes: seq<Shape>): seq<string>
  {
    if |shapes| == 0 then [] else FrameTexts(shapes[..|shapes| - 1]) + FrameText(shapes[|shapes| - 1])
  }

  /** The frame texts of a suffix grow with the last shape. */
  lemma FrameTextsTail(shapes: seq<Shape>, j: nat)
    requires j < |shapes|
    ensures FrameTexts(shapes[j..]) == FrameTexts(shapes[..|shapes| - 1][j..]) + FrameText(shapes[|shapes| - 1])
  {
    var tail := shapes[j..];
    assert shapes[..|shapes| - 1][j..] == tail[..|tail| - 1];
  }

  /** Once the title is set, a shape only adds its frame text. */
  lemma ScanShapeTitled(slide: nat, imagesDir: string, st: Scan, shape: Shape)
    requires st.title.Some?
    ensures ScanShape(slide, imagesDir, st, shape).title == st.title
    ensures ScanShape(slide, imagesDir, st, shape).texts == st.texts + FrameText(shape)
  {
  }

  /** Without a title placeholder every non-empty frame is collected. */
  lemma {:induction false} ScanUntitled(slide: nat, imagesDir: string, shapes: seq<Shape>)
    requires forall i :: 0 <= i < |shapes| ==> !IsTitleShape(shapes[i])
    ensures ScanShapes(slide, imagesDir, shapes).title == None
    ensures ScanShapes(slide, imagesDir, shapes).texts == FrameTexts(shapes)
  {
    if |shapes| > 0 {
      ScanUntitled(slide, imagesDir, shapes[..|shapes| - 1]);
    }
  }

  /** The shape that sets the title, with the untitled shapes before it. */
  lemma ScanTitledLast(slide: nat, imagesDir: string, shapes: seq<Shape>)
    requires |shapes| > 0 && IsTitleShape(shapes[|shapes| - 1])
    requires forall i :: 0 <= i < |shapes| - 1 ==> !IsTitleShape(shapes[i])
    ensures ScanShapes(slide, imagesDir, shapes).title == Some(Strip(shapes[|shapes| - 1].text.value))
    ensures ScanShapes(slide, imagesDir, shapes).texts == FrameTexts(shapes[..|shapes| - 1])
  {
    ScanUntitled(slide, imagesDir, shapes[..|shapes| - 1]);
  }

  /** After the title shape at `j`, one more shape adds only its frame text. */
  lemma ScanTitledStep(slide: nat, imagesDir: string, shapes: seq<Shape>, j: nat, title: string)
    requires j + 1 < |shapes|
    requires ScanShapes(slide, imagesDir, shapes[..|shapes| - 1]).title == Some(title)
    requires ScanShapes(slide, imagesDir, shapes[..|shapes| - 1]).texts
      == FrameTexts(shapes[..j]) + FrameTexts(shapes[..|shapes| - 1][j + 1..])
    ensures ScanShapes(slide, imagesDir, shapes).title == Some(title)
    ensures ScanShapes(slide, imagesDir, shapes).texts == FrameTexts(shapes[..j]) + FrameTexts(shapes[j + 1..])
  {
    var st0 := ScanShapes(slide, imagesDir, shapes[..|shapes| - 1]);
    var last := shapes[|shapes| - 1];
    ScanShapeTitled(slide, imagesDir, st0, last);
    FrameTextsTail(shapes, j + 1);
    var a, b, c := FrameTexts(shapes[..j]), FrameTexts(shapes[..|shapes| - 1][j + 1..]), FrameText(last);
    assert (a + b) + c == a + (b + c);
  }

  /** With a title placeholder the first non-empty one is the title, and exactly the
      other non-empty frames are collected, in order. */
  lemma {:induction false} ScanTitled(slide: nat, imagesDir: string, shapes: seq<Shape>, j: nat)
    requires j < |shapes| && IsTitleShape(shapes[j])
    requires forall i :: 0 <= i < j ==> !IsTitleShape(shapes[i])
    ensures ScanShapes(slide, imagesDir, shapes).title == Some(Strip(shapes[j].text.value))
    ensures ScanShapes(slide, imagesDir, shapes).texts == FrameTexts(shapes[..j]) + FrameTexts(shapes[j + 1..])
    decreases |shapes|
  {
    if |shapes| == j + 1 {
      ScanTitledLast(slide, imagesDir, shapes);
      assert shapes[j + 1..] == [];
    } else {
      var init := shapes[..|shapes| - 1];
      assert init[j] == shapes[j];
      assert forall i :: 0 <= i < j ==> init[i] == shapes[i];
      ScanTitled(slide, imagesDir, init, j);
      assert init[..j] == shapes[..j];
      ScanTitledStep(slide, imagesDir, shapes, j, Strip(shapes[j].text.value));
    }
  }

  /** A PPTX section from the scan: without a title placeholder the first text is the
      title (or `Slide k`) and the rest are bullets; with one, all texts are bullets. */
  function PptxSection(slide: nat, st: Scan): Section
  {
    if st.title.None? then
      Section(if |st.texts| > 0 then st.texts[0] else "Slide " + NatToString(slide),
              if |st.texts| > 1 then st.texts[1..] else [],
              slide, [])
    else Section(st.title.value, st.texts, slide, [])
  }

  /** With a title placeholder, its stripped text is the title and every other
      non-empty frame is a bullet. */
  lemma PptxSectionTitled(slide: nat, imagesDir: string, shapes: seq<Shape>, j: nat)
    requires j < |shapes| && IsTitleShape(shapes[j])
    requires forall i :: 0 <= i < j ==> !IsTitleShape(shapes[i])
    ensures PptxSection(slide, ScanShapes(slide, imagesDir, shapes)).title == Strip(shapes[j].text.value)
    ensures PptxSection(slide, ScanShapes(slide, imagesDir, shapes)).bullets == FrameTexts(shapes[..j]) + FrameTexts(shapes[j + 1..])
  {
    ScanTitled(slide, imagesDir, shapes, j);
  }

  /** Without a title placeholder, the first non-empty frame is the title (`Slide k`
      when there is none) and the others are the bullets. */
  lemma PptxSectionUntitled(slide: nat, imagesDir: string, shapes: seq<Shape>)
    requires forall i :: 0 <= i < |shapes| ==> !IsTitleShape(shapes[i])
    ensures var texts := FrameTexts(shapes);
      && PptxSection(slide, ScanShapes(slide, imagesDir, shapes)).title
           == (if |texts| > 0 then texts[0] else "Slide " + NatToString(slide))
      && PptxSection(slide, ScanShapes(slide, imagesDir, shapes)).bullets
           == (if |texts| > 1 then texts[1..] else [])
  {
    ScanUntitled(slide, imagesDir, shapes);
  }

  lemma ScanShapeFiltered(slide: nat, imagesDir: string, st: Scan, shape: Shape)
    requires OnPageFiltered(st.candidates, slide)
    ensures OnPageFiltered(ScanShape(slide, imagesDir, st, shape).candidates, slide)
  {
  }

  /** Every PPTX candidate of a slide lies on it and passed the area filter. */
  lemma {:induction false} ScanCandidatesFiltered(slide: nat, imagesDir: string, shapes: seq<Shape>)
    ensures OnPageFiltered(ScanShapes(slide, imagesDir, shapes).candidates, slide)
  {
    if |shapes| > 0 {
      ScanCandidatesFiltered(slide, imagesDir, shapes[..|shapes| - 1]);
      ScanShapeFiltered(slide, imagesDir, ScanShapes(slide, imagesDir, shapes[..|shapes| - 1]), shapes[|shapes| - 1]);
    }
  }

  /** `f"{title}\n" + "\n".join(bullets)`, the slide's raw text. */
  function PptxRawText(section: Section): string
  {
    section.title + "\n" + Join("\n", section.bullets)
  }

  /** The shape loop of `_parse_pptx` for one slide. */
  method ScanSlide(slide: nat, imagesDir: string, shapes: seq<Shape>) returns (st: Scan)
    ensures st == ScanShapes(slide, imagesDir, shapes)
  {
    var title: Option<string> := None;
    var texts: seq<string> := [];
    var found: seq<Candidate> := [];
    var i := 0;
    while i < |shapes|
      invariant 0 <= i <= |shapes|
      invariant Scan(title, texts, found) == ScanShapes(slide, imagesDir, shapes[..i])
    {
      assert shapes[..i + 1][..i] == shapes[..i];
      ghost var prev := Scan(title, texts, found);
      var shape := shapes[i];
      assert ScanShapes(slide, imagesDir, shapes[..i + 1]) == ScanShape(slide, imagesDir, prev, shape);
      i := i + 1;
      var skip := false;
      if shape.text.Some? {
        var frameText := Strip(shape.text.value);
        if frameText == "" {
          skip := true;
        } else if title.None? && shape.titlePlaceholder {
          title := Some(frameText);
          skip := true;
        } else {
          texts := texts + [frameText];
        }
      }
      if !skip && shape.picture.Some? {
        var pic := shape.picture.value;
        if pic.contentType.Some? && pic.widthPx * pic.heightPx >= MinPixelArea {
          var ext := PptxExt(pic.contentType.value);
          var filename := ImageFilename(slide, pic.shapeId, ext);
          found := found + [Candidate(slide, PathJoin(imagesDir, filename), filename, pic.widthPx * pic.heightPx)];
        }
      }
    }
    assert shapes[..i] == shapes;
    st := Scan(title, texts, found);
  }

  // ---------------------------------------------------------------
  // Attaching the selected images
  // ---------------------------------------------------------------

  /** The selected filenames on `page`, in selected order:
      `page_to_images.get(page, [])`. */
  function ImagesOn(selected: seq<Candidate>, page: nat): seq<string>
  {
    if |selected| == 0 then []
    else ImagesOn(selected[..|selected| - 1], page)
         + (if selected[|selected| - 1].page == page then [selected[|selected| - 1].filename] else [])
  }

  /** Exactly the selected images of a page are listed for it. */
  lemma {:induction false} ImagesOnSpec(selected: seq<Candidate>, page: nat)
    ensures forall k :: 0 <= k < |selected| && selected[k].page == page ==> selected[k].filename in ImagesOn(selected, page)
    ensures forall f :: f in ImagesOn(selected, page) ==>
      exists k :: 0 <= k < |selected| && selected[k].page == page && selected[k].filename == f
  {
    if |selected| > 0 {
      var init := selected[..|selected| - 1];
      ImagesOnSpec(init, page);
      forall f | f in ImagesOn(selected, page)
        ensures exists k :: 0 <= k < |selected| && selected[k].page == page && selected[k].filename == f
      {
        if f !in ImagesOn(init, page) {
          assert selected[|selected| - 1].filename == f;
        } else {
          var k :| 0 <= k < |init| && init[k].page == page && init[k].filename == f;
          assert selected[k] == init[k];
        }
      }
    }
  }

  /** The sections with their images: each gets the selected images of its page. */
  function Attached(sections: seq<Section>, selected: seq<Candidate>): (r: seq<Section>)
    ensures |r| == |sections|
    ensures forall k :: 0 <= k < |r| ==> r[k] == sections[k].(imagePaths := ImagesOn(selected, sections[k].slideRef))
  {
    if |sections| == 0 then []
    else Attached(sections[..|sections| - 1], selected)
         + [sections[|sections| - 1].(imagePaths := ImagesOn(selected, sections[|sections| - 1].slideRef))]
  }

  /** The attachment step of both parsers: group the selected filenames by page, then
      give each section the list of its page. */
  method AttachImages(sections: seq<Section>, selected: seq<Candidate>) returns (result: seq<Section>)
    ensures result == Attached(sections, selected)
  {
    var pageToImages: map<nat, seq<string>> := map[];
    var i := 0;
    while i < |selected|
      invariant 0 <= i <= |selected|
      invariant forall p :: p in pageToImages ==> pageToImages[p] == ImagesOn(selected[..i], p)
      invariant forall p :: p !in pageToImages ==> ImagesOn(selected[..i], p) == []
    {
      assert selected[..i + 1][..i] == selected[..i];
      var img := selected[i];
      var list := if img.page in pageToImages then pageToImages[img.page] else [];
      pageToImages := pageToImages[img.page := list + [img.filename]];
      i := i + 1;
    }
    assert selected[..i] == selected;
    result := sections;
    var k := 0;
    while k < |sections|
      invariant 0 <= k <= |sections| && |result| == |sections|
      invariant forall j :: 0 <= j < k ==> result[j] == sections[j].(imagePaths := ImagesOn(selected, sections[j].slideRef))
      invariant forall j :: k <= j < |sections| ==> result[j] == sections[j]
    {
      var pageNum := result[k].slideRef;
      var paths := if pageNum in pageToImages then pageToImages[pageNum] else [];
      result := result[k := result[k].(imagePaths := paths)];
      k := k + 1;
    }
  }

  // ---------------------------------------------------------------
  // The two parsers
  // ---------------------------------------------------------------

  /** The untitled sections of a PDF, page `k + 1` from `pages[k]`. */
  function PdfSections(pages: seq<PdfPage>): seq<Section>
  {
    if |pages| == 0 then [] else PdfSections(pages[..|pages| - 1]) + [PdfSection(|pages|, pages[|pages| - 1].lines)]
  }

  /** Section `k` comes from page `k + 1`. */
  lemma {:induction false} PdfSectionsAt(pages: seq<PdfPage>)
    ensures |PdfSections(pages)| == |pages|
    ensures forall k :: 0 <= k < |pages| ==> PdfSections(pages)[k] == PdfSection(k + 1, pages[k].lines)
  {
    if |pages| > 0 {
      var init := pages[..|pages| - 1];
      PdfSectionsAt(init);
      forall k | 0 <= k < |init|
        ensures PdfSections(pages)[k] == PdfSection(k + 1, pages[k].lines)
      {
        assert pages[k] == init[k];
      }
    }
  }

  /** All PDF candidates, page by page. */
  function PdfCandidates(pages: seq<PdfPage>, imagesDir: string): seq<Candidate>
  {
    if |pages| == 0 then []
    else PdfCandidates(pages[..|pages| - 1], imagesDir) + PdfPageCandidates(|pages|, imagesDir, pages[|pages| - 1].images)
  }

  /** The page loop of `_parse_pdf`: one untitled section per page and the page's
      candidates, in page order. */
  method ScanPdfPages(pages: seq<PdfPage>, imagesDir: string) returns (sections: seq<Section>, candidates: seq<Candidate>)
    ensures sections == PdfSections(pages)
    ensures candidates == PdfCandidates(pages, imagesDir)
  {
    sections := [];
    candidates := [];
    var i := 0;
    while i < |pages|
      invariant 0 <= i <= |pages|
      invariant sections == PdfSections(pages[..i])
      invariant candidates == PdfCandidates(pages[..i], imagesDir)
    {
      assert pages[..i + 1][..i] == pages[..i];
      var found := CollectPdfImages(i + 1, imagesDir, pages[i].images);
      candidates := candidates + found;
      sections := sections + [PdfSection(i + 1, pages[i].lines)];
      i := i + 1;
    }
    assert pages[..i] == pages;
  }

  /** `_parse_pdf`, without the raw pages: one section per page, then the globally
      filtered images attached by page. */
  method ParsePdf(pages: seq<PdfPage>, imagesDir: string) returns (sections: seq<Section>)
    ensures sections == Attached(PdfSections(pages), Selection(PdfCandidates(pages, imagesDir)))
  {
    var candidates;
    sections, candidates := ScanPdfPages(pages, imagesDir);
    var selected := FilterImages(candidates);
    sections := AttachImages(sections, selected);
  }

  /** One raw page entry. */
  datatype RawPage = RawPage(page: nat, text: string)

  /** The untitled section of slide `k` from its shapes. */
  function SlideSection(k: nat, imagesDir: string, shapes: seq<Shape>): Section
  {
    PptxSection(k, ScanShapes(k, imagesDir, shapes))
  }

  /** The untitled sections of a PPTX, slide `k + 1` from `slides[k]`. */
  function PptxSections(slides: seq<seq<Shape>>, imagesDir: string): seq<Section>
  {
    if |slides| == 0 then []
    else PptxSections(slides[..|slides| - 1], imagesDir) + [SlideSection(|slides|, imagesDir, slides[|slides| - 1])]
  }

  /** Section `k` comes from slide `k + 1`. */
  lemma {:induction false} PptxSectionsAt(slides: seq<seq<Shape>>, imagesDir: string)
    ensures |PptxSections(slides, imagesDir)| == |slides|
    ensures forall k :: 0 <= k < |slides| ==>
      PptxSections(slides, imagesDir)[k] == SlideSection(k + 1, imagesDir, slides[k])
  {
    if |slides| > 0 {
      var init := slides[..|slides| - 1];
      PptxSectionsAt(init, imagesDir);
      forall k | 0 <= k < |init|
        ensures PptxSections(slides, imagesDir)[k] == SlideSection(k + 1, imagesDir, slides[k])
      {
        assert slides[k] == init[k];
      }
    }
  }

  /** The raw page of every section, numbered from 1. */
  function RawPages(sections: seq<Section>): (r: seq<RawPage>)
    ensures |r| == |sections|
  {
    if |sections| == 0 then []
    else RawPages(sections[..|sections| - 1]) + [RawPage(|sections|, PptxRawText(sections[|sections| - 1]))]
  }

  /** Raw page `k` is page `k + 1` with the text of section `k`. */
  lemma {:induction false} RawPagesAt(sections: seq<Section>)
    ensures forall k :: 0 <= k < |sections| ==> RawPages(sections)[k] == RawPage(k + 1, PptxRawText(sections[k]))
  {
    if |sections| > 0 {
      var init := sections[..|sections| - 1];
      RawPagesAt(init);
      forall k | 0 <= k < |init|
        ensures RawPages(sections)[k] == RawPage(k + 1, PptxRawText(sections[k]))
      {
        assert sections[k] == init[k];
      }
    }
  }

  /** All PPTX candidates, slide by slide. */
  function PptxCandidates(slides: seq<seq<Shape>>, imagesDir: string): seq<Candidate>
  {
    if |slides| == 0 then []
    else PptxCandidates(slides[..|slides| - 1], imagesDir) + ScanShapes(|slides|, imagesDir, slides[|slides| - 1]).candidates
  }

  /** One more slide adds its section and its candidates at the end. */
  lemma PptxSlidesStep(slides: seq<seq<Shape>>, imagesDir: string, i: nat)
    requires i < |slides|
    ensures PptxSections(slides[..i + 1], imagesDir)
            == PptxSections(slides[..i], imagesDir) + [SlideSection(i + 1, imagesDir, slides[i])]
    ensures PptxCandidates(slides[..i + 1], imagesDir)
            == PptxCandidates(slides[..i], imagesDir) + ScanShapes(i + 1, imagesDir, slides[i]).candidates
  {
    assert slides[..i + 1][..i] == slides[..i];
  }

  /** One more section adds its raw page at the end. */
  lemma RawPagesSnoc(sections: seq<Section>, section: Section)
    ensures RawPages(sections + [section]) == RawPages(sections) + [RawPage(|sections| + 1, PptxRawText(section))]
  {
    assert (sections + [section])[..|sections|] == sections;
  }

  /** The slide loop of `_parse_pptx`: one untitled section, one raw page and the
      slide's candidates per slide, in slide order. */
  method ScanPptxSlides(slides: seq<seq<Shape>>, imagesDir: string)
    returns (sections: seq<Section>, rawPages: seq<RawPage>, candidates: seq<Candidate>)
    ensures sections == PptxSections(slides, imagesDir)
    ensures rawPages == RawPages(sections)
    ensures candidates == PptxCandidates(slides, imagesDir)
  {
    sections := [];
    rawPages := [];
    candidates := [];
    var i := 0;
    while i < |slides|
      invariant 0 <= i <= |slides|
      invariant |sections| == i
      invariant sections == PptxSections(slides[..i], imagesDir)
      invariant rawPages == RawPages(sections)
      invariant candidates == PptxCandidates(slides[..i], imagesDir)
    {
      PptxSlidesStep(slides, imagesDir, i);
      var st := ScanSlide(i + 1, imagesDir, slides[i]);
      candidates := candidates + st.candidates;
      var section := PptxSection(i + 1, st);
      RawPagesSnoc(sections, section);
      rawPages := rawPages + [RawPage(i + 1, PptxRawText(section))];
      sections := sections + [section];
      i := i + 1;
    }
    assert slides[..i] == slides;
  }

  /** `_parse_pptx`: one section and one raw page per slide, then the globally
      filtered images attached by slide. */
  method ParsePptx(slides: seq<seq<Shape>>, imagesDir: string) returns (sections: seq<Section>, rawPages: seq<RawPage>)
    ensures sections == Attached(PptxSections(slides, imagesDir), Selection(PptxCandidates(slides, imagesDir)))
    ensures rawPages == RawPages(PptxSections(slides, imagesDir))
  {
    var candidates;
    sections, rawPages, candidates := ScanPptxSlides(slides, imagesDir);
    var selected := FilterImages(candidates);
    sections := AttachImages(sections, selected);
  }
}
