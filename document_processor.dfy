/** Text extraction from a PDF: page texts gathered in page order, any failure
    turned into the empty text. */
module DocumentProcessor {
  import opened Outcomes

  /** What opening a file with the PDF reader gives: the exception the reader raised,
      or, page by page and in page order, the text extracted or the exception raised. */
  type Document = Outcome<seq<Outcome<string>>>

  /** Every page yielded its text. */
  predicate AllExtracted(pages: seq<Outcome<string>>)
  {
    forall i :: 0 <= i < |pages| ==> pages[i].Done?
  }

  /** The texts of the pages, when every page yielded one. */
  function Texts(pages: seq<Outcome<string>>): seq<string>
    requires AllExtracted(pages)
  {
    if pages == [] then [] else [pages[0].value] + Texts(pages[1..])
  }

  /** The page texts in page order, each followed by a line break. */
  function Lines(texts: seq<string>): string
  {
    if texts == [] then "" else texts[0] + "\n" + Lines(texts[1..])
  }

  /** The number of characters in all page texts together. */
  function TotalLength(texts: seq<string>): nat
  {
    if texts == [] then 0 else |texts[0]| + TotalLength(texts[1..])
  }

  /** `extract_text_from_pdf`: appends each page text and a line break, in page order;
      a reader that cannot open the file, or any page that fails, makes the whole
      result the empty text (text gathered from earlier pages is dropped). Never fails. */
  method ExtractTextFromPdf(doc: Document) returns (text: string)
    ensures doc.Raised? ==> text == ""
    ensures doc.Done? && !AllExtracted(doc.value) ==> text == ""
    ensures doc.Done? && AllExtracted(doc.value) ==> text == Lines(Texts(doc.value))
    ensures doc == Done([]) ==> text == ""
  {
    if doc.Raised? {
      return "";
    }
    var pages := doc.value;
    text := "";
    var i := 0;
    while i < |pages|
      invariant 0 <= i <= |pages|
      invariant AllExtracted(pages[..i])
      invariant text == Lines(Texts(pages[..i]))
    {
      match pages[i] {
        case Raised(_) =>
          return "";
        case Done(t) =>
          TextsAppend(pages[..i], pages[i]);
          LinesAppend(Texts(pages[..i]), t);
          assert pages[..i + 1] == pages[..i] + [pages[i]];
          text := text + t + "\n";
      }
      i := i + 1;
    }
    assert pages[..i] == pages;
  }

  /** The texts are the pages' own texts, one per page, in page order; so statements
      about `texts` below are statements about the pages. */
  lemma {:induction false} TextsArePageTexts(pages: seq<Outcome<string>>)
    requires AllExtracted(pages)
    ensures |Texts(pages)| == |pages|
    ensures forall i :: 0 <= i < |pages| ==> Texts(pages)[i] == pages[i].value
  {
    if pages != [] {
      TextsArePageTexts(pages[1..]);
      assert forall i :: 1 <= i < |pages| ==> Texts(pages)[i] == Texts(pages[1..])[i - 1];
    }
  }

  /** Extending the pages by one extracted page extends the texts by its text. */
  lemma {:induction false} TextsAppend(pages: seq<Outcome<string>>, page: Outcome<string>)
    requires AllExtracted(pages) && page.Done?
    ensures AllExtracted(pages + [page])
    ensures Texts(pages + [page]) == Texts(pages) + [page.value]
  {
    if pages != [] {
      assert (pages + [page])[1..] == pages[1..] + [page];
      TextsAppend(pages[1..], page);
    }
  }

  /** Appending one page text adds that text and one line break at the end, which is
      what the extraction loop does at each page. */
  lemma {:induction false} LinesAppend(texts: seq<string>, t: string)
    ensures Lines(texts + [t]) == Lines(texts) + t + "\n"
  {
    if texts == [] {
      assert [] + [t] == [t];
    } else {
      assert (texts + [t])[1..] == texts[1..] + [t];
      LinesAppend(texts[1..], t);
    }
  }

  /** The lines of two runs of pages are the lines of the first run followed by those
      of the second. */
  lemma {:induction false} LinesConcat(a: seq<string>, b: seq<string>)
    ensures Lines(a + b) == Lines(a) + Lines(b)
  {
    if a == [] {
      assert [] + b == b;
    } else {
      assert (a + b)[1..] == a[1..] + b;
      LinesConcat(a[1..], b);
    }
  }

  /** The text is as long as all page texts together plus one line break per page. */
  lemma {:induction false} LinesLength(texts: seq<string>)
    ensures |Lines(texts)| == TotalLength(texts) + |texts|
  {
    if texts != [] {
      LinesLength(texts[1..]);
    }
  }

  /** With at least one page the text ends with a line break. */
  lemma {:induction false} LinesEndWithBreak(texts: seq<string>)
    requires |texts| > 0
    ensures var text := Lines(texts); |text| > 0 && text[|text| - 1] == '\n'
  {
    if |texts| > 1 {
      LinesEndWithBreak(texts[1..]);
    }
  }

  /** Page `k` appears in the text, in page order: right after the lines of the pages
      before it comes its own text, then a line break. */
  lemma {:induction false} LinesPageAt(texts: seq<string>, k: nat)
    requires k < |texts|
    ensures var start, text := |Lines(texts[..k])|, Lines(texts);
      start + |texts[k]| < |text| &&
      text[start..start + |texts[k]| + 1] == texts[k] + "\n"
  {
    assert texts == texts[..k] + ([texts[k]] + texts[k + 1..]);
    LinesConcat(texts[..k], [texts[k]] + texts[k + 1..]);
    assert ([texts[k]] + texts[k + 1..])[1..] == texts[k + 1..];
  }
}
