/** `read_text_from_file`: choose how to read the input from its suffix,
    and for a PDF join the text of its pages. */
module Extract {
  import opened Results
  import opened Text
  import opened Paths

  /** How the input is read. */
  datatype Kind = Pdf | PlainText

  /** The suffix decides: `.pdf` in any case is a PDF, anything else is text. */
  function KindOf(path: string): Kind {
    if LowerSuffix(path) == ".pdf" then Pdf else PlainText
  }

  /** `extract_text() or ""`: a page whose extraction gives nothing counts as "". */
  function PageText(page: Option<string>): string {
    page.GetOr("")
  }

  /** The list of page texts, one per page and in page order. */
  function PageTexts(pages: seq<Option<string>>): (parts: seq<string>)
    ensures |parts| == |pages|
    ensures forall i :: 0 <= i < |pages| ==> parts[i] == PageText(pages[i])
  {
    seq(|pages|, i requires 0 <= i < |pages| => PageText(pages[i]))
  }

  /** `"\n".join(parts)`. */
  function Join(parts: seq<string>): string {
    if |parts| == 0 then ""
    else if |parts| == 1 then parts[0]
    else parts[0] + ("\n" + Join(parts[1..]))
  }

  /** Where part `i` starts in `Join(parts)`: each earlier part and one separator. */
  function Offset(parts: seq<string>, i: nat): nat
    requires i <= |parts|
  {
    if i == 0 then 0 else |parts[0]| + 1 + Offset(parts[1..], i - 1)
  }

  /** The joined text is the parts plus one separator between each pair:
      its length is the parts' lengths plus `n - 1` for `n > 0` parts. */
  lemma {:induction false} JoinLength(parts: seq<string>)
    requires |parts| > 0
    ensures |Join(parts)| + 1 == Offset(parts, |parts|)
  {
    if |parts| > 1 {
      JoinLength(parts[1..]);
    }
  }

  /** Part `i` sits whole at `Offset(parts, i)` of the joined text and, unless
      it is the last, a newline separator follows it; so every part keeps its
      slot and its order, an empty part included. */
  lemma {:induction false} JoinSlot(parts: seq<string>, i: nat)
    requires i < |parts|
    ensures Offset(parts, i) + |parts[i]| <= |Join(parts)|
    ensures i + 1 < |parts| ==> Offset(parts, i) + |parts[i]| < |Join(parts)|
    ensures Join(parts)[Offset(parts, i)..Offset(parts, i) + |parts[i]|] == parts[i]
    ensures i + 1 < |parts| ==> Join(parts)[Offset(parts, i) + |parts[i]|] == '\n'
  {
    if |parts| > 1 {
      var lead, rest := parts[0] + "\n", Join(parts[1..]);
      assert Join(parts) == lead + rest;
      if i == 0 {
        assert Join(parts)[..|parts[0]|] == lead[..|parts[0]|];
      } else {
        JoinSlot(parts[1..], i - 1);
        var o := Offset(parts[1..], i - 1);
        assert parts[1..][i - 1] == parts[i];
        SliceAfter(lead, rest, o, o + |parts[i]|);
      }
    }
  }

  /** Indexing past a prefix `a` of `a + b` indexes into `b`. */
  lemma SliceAfter(a: string, b: string, x: nat, y: nat)
    requires x <= y <= |b|
    ensures (a + b)[|a| + x..|a| + y] == b[x..y]
    ensures y < |b| ==> (a + b)[|a| + y] == b[y]
  {
  }

  /** Why reading the input fails: a PDF with no PDF reader installed. */
  datatype ReadError = PdfReaderMissing

  /** What `read_text_from_file` returns: for a PDF, the stripped join of its
      page texts (when a reader is available); otherwise the stripped file text.
      The pages and the decoded file text stand for what the PDF library and
      the file system would give. */
  function ReadText(path: string, pdfReaderAvailable: bool, pages: seq<Option<string>>, fileText: string): Result<string, ReadError> {
    if KindOf(path) == Pdf then
      if pdfReaderAvailable then Ok(Strip(Join(PageTexts(pages)))) else Err(PdfReaderMissing)
    else Ok(Strip(fileText))
  }

  /** `read_text_from_file`, building the list of page texts step by step. */
  method ReadTextFromFile(path: string, pdfReaderAvailable: bool, pages: seq<Option<string>>, fileText: string)
    returns (r: Result<string, ReadError>)
    ensures r == ReadText(path, pdfReaderAvailable, pages, fileText)
    ensures r.Err? <==> LowerSuffix(path) == ".pdf" && !pdfReaderAvailable
    ensures r.Ok? ==> r.value == "" || (!IsSpace(r.value[0]) && !IsSpace(r.value[|r.value| - 1]))
  {
    if LowerSuffix(path) == ".pdf" {
      if !pdfReaderAvailable {
        return Err(PdfReaderMissing);
      }
      var parts: seq<string> := [];
      for k := 0 to |pages|
        invariant |parts| == k
        invariant forall i :: 0 <= i < k ==> parts[i] == PageText(pages[i])
      {
        var txt := if pages[k].Some? then pages[k].value else "";
        parts := parts + [txt];
      }
      assert parts == PageTexts(pages);
      r := Ok(Strip(Join(parts)));
    } else {
      r := Ok(Strip(fileText));
    }
  }

  /** Only the two cases of the dispatch: a PDF input whose reader is
      missing fails, every other input gives text with no whitespace at
      either end; a whitespace-only input gives "". */
  lemma ReadTextOutcome(path: string, pdfReaderAvailable: bool, pages: seq<Option<string>>, fileText: string)
    ensures KindOf(path) == PlainText ==>
      ReadText(path, pdfReaderAvailable, pages, fileText) == Ok(Strip(fileText))
    ensures KindOf(path) == PlainText && AllSpace(fileText) ==>
      ReadText(path, pdfReaderAvailable, pages, fileText) == Ok("")
    ensures KindOf(path) == Pdf && pdfReaderAvailable && |pages| > 0 ==>
      var joined := Join(PageTexts(pages));
      ReadText(path, pdfReaderAvailable, pages, fileText) == Ok(Strip(joined))
        && |joined| + 1 == Offset(PageTexts(pages), |pages|)
  {
    if KindOf(path) == Pdf && pdfReaderAvailable && |pages| > 0 {
      JoinLength(PageTexts(pages));
    }
  }

  /** A `.pdf` name in any letter case is read as a PDF. */
  lemma UpperCasePdfIsPdf()
    ensures KindOf("docs/aula.PDF") == Pdf
  {
    assert Lower(".PDF") == ".pdf" by {
      assert LowerChar('.') == '.' && LowerChar('P') == 'p' && LowerChar('D') == 'd' && LowerChar('F') == 'f';
    }
    JoinedWithExtension("docs/", "aula", ".PDF");
    assert "docs/" + ("aula" + ".PDF") == "docs/aula.PDF";
  }

  /** A name whose only dot is its first character has no suffix, so the
      hidden file `.pdf` is read as plain text. */
  lemma HiddenPdfIsText()
    ensures KindOf("docs/.pdf") == PlainText
  {
    NameOfJoined("docs/", ".pdf");
    assert "docs/" + ".pdf" == "docs/.pdf";
    assert LastIndexOf(".pdf", '.') == 0 by { assert ".pdf"[0] == '.'; }
  }
}
