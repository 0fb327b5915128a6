/** A document made of headed sections, the shape `generateMarkdown`
    (components/NewsletterPreview.tsx) appends: a title block, then each
    heading followed by its body, then a footer. The lemmas here hold for
    any headings and bodies; module Markdown supplies the newsletter's. */
module Outline {
  import opened Text

  /** The title block, the headings in order, the text that follows each
      heading up to the next heading (the last one's up to the footer), and
      the footer. */
  datatype Layout = Layout(preamble: string, headings: seq<string>, bodies: seq<string>, footer: string)

  /** One body per heading. */
  predicate Shaped(d: Layout)
  {
    |d.bodies| == |d.headings|
  }

  /** Every heading starts a line: the title block and every body but the
      last end in a line break. */
  predicate Fits(d: Layout)
  {
    Shaped(d)
    && EndsLine(d.preamble)
    && forall j :: 0 <= j < |d.bodies| - 1 ==> EndsLine(d.bodies[j])
  }

  /** The sections in the order they are appended: the title block, each
      heading with its body, the footer. */
  function Sections(d: Layout): (sections: seq<string>)
    requires Shaped(d)
    ensures |sections| == |d.headings| + 2
  {
    seq(|d.headings| + 2, i requires 0 <= i < |d.headings| + 2 =>
      if i == 0 then d.preamble
      else if i <= |d.headings| then d.headings[i - 1] + d.bodies[i - 1]
      else d.footer)
  }

  /** The whole document. */
  function Document(d: Layout): string
    requires Shaped(d)
  {
    Concat(Sections(d))
  }

  /** Where heading `j` starts in the document: it opens section `j + 1`. */
  function HeadingPosition(d: Layout, j: nat): nat
    requires Shaped(d) && j < |d.headings|
  {
    Offset(Sections(d), j + 1)
  }

  /** The document opens with the title block. */
  lemma StartsWithPreamble(d: Layout)
    requires Shaped(d)
    ensures OccursAt(Document(d), d.preamble, 0)
  {
    PartAt(Sections(d), 0);
  }

  /** Where the footer starts: it opens the last section. */
  function FooterPosition(d: Layout): nat
    requires Shaped(d)
  {
    Offset(Sections(d), |d.headings| + 1)
  }

  /** The document ends with the footer. */
  lemma EndsWithFooter(d: Layout)
    requires Shaped(d)
    ensures OccursAt(Document(d), d.footer, FooterPosition(d))
    ensures FooterPosition(d) + |d.footer| == |Document(d)|
  {
    PartAt(Sections(d), |d.headings| + 1);
    OffsetEnd(Sections(d));
  }

  /** Section `j + 1` is heading `j` followed by its body. */
  lemma HeadingSection(d: Layout, j: nat)
    requires Shaped(d) && j < |d.headings|
    ensures Sections(d)[j + 1] == d.headings[j] + d.bodies[j]
    ensures d.headings[j] <= Sections(d)[j + 1]
  {
    PrefixAppend(d.headings[j], d.bodies[j]);
  }

  /** Every section before the last heading's ends in a line break. */
  lemma SectionEndsLine(d: Layout, i: nat)
    requires Fits(d) && i < |d.headings|
    ensures EndsLine(Sections(d)[i])
  {
    if i > 0 {
      HeadingSection(d, i - 1);
      EndsLineAppend(d.headings[i - 1], d.bodies[i - 1]);
    }
  }

  /** Heading `j` starts a line of the document at its position. */
  lemma HeadingAt(d: Layout, j: nat)
    requires Fits(d) && j < |d.headings|
    ensures 0 < HeadingPosition(d, j)
    ensures OccursAt(Document(d), d.headings[j], HeadingPosition(d, j))
    ensures Document(d)[HeadingPosition(d, j) - 1] == NL
  {
    HeadingSection(d, j);
    SectionEndsLine(d, j);
    PrefixStartsLine(Sections(d), j + 1, d.headings[j]);
  }

  /** Heading `i` ends before heading `j` starts when `i < j`. */
  lemma HeadingBefore(d: Layout, i: nat, j: nat)
    requires Shaped(d) && i < j < |d.headings|
    ensures HeadingPosition(d, i) + |d.headings[i]| <= HeadingPosition(d, j)
  {
    var sections := Sections(d);
    assert |d.headings[i]| <= |sections[i + 1]| by {
      HeadingSection(d, i);
    }
    OffsetGrows(sections, i + 1, j + 1);
  }

  /** Every heading appears, each at the start of a line, in order: each
      heading ends before the next one starts. */
  lemma SectionsInOrder(d: Layout)
    requires Fits(d)
    ensures forall j :: 0 <= j < |d.headings| ==>
      OccursAt(Document(d), d.headings[j], HeadingPosition(d, j))
      && 0 < HeadingPosition(d, j)
      && Document(d)[HeadingPosition(d, j) - 1] == NL
    ensures forall i, j :: 0 <= i < j < |d.headings| ==>
      HeadingPosition(d, i) + |d.headings[i]| <= HeadingPosition(d, j)
  {
    forall j | 0 <= j < |d.headings|
      ensures OccursAt(Document(d), d.headings[j], HeadingPosition(d, j))
      ensures 0 < HeadingPosition(d, j) && Document(d)[HeadingPosition(d, j) - 1] == NL
    {
      HeadingAt(d, j);
    }
    forall i, j | 0 <= i < j < |d.headings|
      ensures HeadingPosition(d, i) + |d.headings[i]| <= HeadingPosition(d, j)
    {
      HeadingBefore(d, i, j);
    }
  }

  /** Heading `j`, its body and the next heading sit together at the
      heading's position: the body is exactly the text between two
      consecutive headings. */
  lemma Between(d: Layout, j: nat)
    requires Fits(d) && j + 1 < |d.headings|
    ensures OccursAt(Document(d), d.headings[j] + d.bodies[j] + d.headings[j + 1], HeadingPosition(d, j))
  {
    var sections, doc := Sections(d), Document(d);
    PartAt(sections, j + 1);
    HeadingAt(d, j + 1);
    OccursAtAppend(doc, sections[j + 1], d.headings[j + 1], HeadingPosition(d, j));
    HeadingSection(d, j);
  }

  /** Heading `j + 1` starts right after heading `j` and its body. */
  lemma NextHeading(d: Layout, j: nat)
    requires Shaped(d) && j + 1 < |d.headings|
    ensures HeadingPosition(d, j + 1) == HeadingPosition(d, j) + |d.headings[j] + d.bodies[j]|
  {
    PartAt(Sections(d), j + 1);
    HeadingSection(d, j);
  }

  /** The last heading and its body are followed by the footer, which ends
      the document. */
  lemma LastSection(d: Layout)
    requires Shaped(d) && |d.headings| > 0
    ensures OccursAt(Document(d), d.headings[|d.headings| - 1] + d.bodies[|d.headings| - 1] + d.footer,
      HeadingPosition(d, |d.headings| - 1))
    ensures HeadingPosition(d, |d.headings| - 1)
      + |d.headings[|d.headings| - 1] + d.bodies[|d.headings| - 1] + d.footer| == |Document(d)|
  {
    RunEnd(Sections(d));
    HeadingSection(d, |d.headings| - 1);
  }
}
