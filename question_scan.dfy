/**
 * The question scanner: a single pass over the pages (the first page is
 * skipped), the lines of each page and then the page's images, keeping the
 * next expected question number, the open question and the list of finished
 * questions.
 */
module QuestionScan {
  import opened Options
  import opened Geometry
  import opened TextPatterns
  import opened LineGrouping

  /** What a content entry holds: the text of a line, or the marker of an image. */
  datatype Payload = Text(text: string) | Image

  /** One content entry of a question: its page, its rectangle and its payload. */
  datatype Item = Item(page: nat, box: Box, payload: Payload)

  /**
   * A detected question.  `startBox` is the heading line's rectangle;
   * `endBox` is the running rectangle whose right and bottom edges grow with
   * every entry appended to `content`.
   */
  datatype Question = Question(number: nat, page: nat, startBox: Box, endBox: Box, content: seq<Item>)

  /** The scanner's state: the next expected number, the open question and the finished ones. */
  datatype ScanState = ScanState(expected: nat, current: Option<Question>, questions: seq<Question>)

  /** What the scanner does with one line. */
  datatype LineKind = NewQuestion | Body | OptionRow | Noise

  const Initial := ScanState(1, None, [])

  // -------------------------------------------------------------- lines

  function Texts(line: seq<Word>): seq<string> {
    seq(|line|, k requires 0 <= k < |line| => line[k].text)
  }

  /** The line's text: its words' texts joined by single spaces. */
  function LineText(line: seq<Word>): (t: string)
    ensures line != [] ==> line[0].text <= t
  {
    JoinSpace(Texts(line))
  }

  /**
   * The line's rectangle: left and top of its first word, right and bottom of
   * its last.  No minimum or maximum is taken over the words in between.
   */
  function LineBox(line: seq<Word>): (b: Box)
    requires line != []
    ensures b.x0 == line[0].x0 && b.top == line[0].top
    ensures b.x1 == line[|line| - 1].x1 && b.bottom == line[|line| - 1].bottom
  {
    Box(line[0].x0, line[0].top, line[|line| - 1].x1, line[|line| - 1].bottom)
  }

  // ------------------------------------------------------ classification

  /** A line opens a question: its number is the expected one, or it is an unnumbered starter line while no question is open. */
  predicate Opens(expected: nat, open: bool, text: string) {
    LeadingNumber(text) == Some(expected)
    || (LeadingNumber(text) == None && IsStarterLine(text) && !open)
  }

  /**
   * The decision for one line.  A numbered line is tested only against the
   * expected number and never falls through to the starter test; a line that
   * does not open a question goes to the open question, whether or not it is
   * an option row, and is dropped when no question is open.
   */
  function Classify(expected: nat, open: bool, text: string): (k: LineKind)
    ensures k == NewQuestion <==> Opens(expected, open, text)
    ensures k == Noise <==> !open && !Opens(expected, open, text)
    ensures k == Body ==> !IsOptionRow(text)
    ensures k == OptionRow ==> IsOptionRow(text)
  {
    var isQuestion :=
      match LeadingNumber(text)
      case Some(n) => n == expected
      case None => IsStarterLine(text) && !open;
    if isQuestion then NewQuestion
    else if open && !IsOptionRow(text) then Body
    else if IsOptionRow(text) && open then OptionRow
    else Noise
  }

  // ---------------------------------------------------------- accumulation

  /** Appends an entry to a question and widens the right and bottom edges of its running rectangle. */
  function Extend(q: Question, item: Item): (r: Question)
    ensures r.number == q.number && r.page == q.page && r.startBox == q.startBox
    ensures r.content == q.content + [item]
    ensures r.endBox.x0 == q.endBox.x0 && r.endBox.top == q.endBox.top
    ensures r.endBox.x1 >= q.endBox.x1 && r.endBox.x1 >= item.box.x1
    ensures r.endBox.bottom >= q.endBox.bottom && r.endBox.bottom >= item.box.bottom
    ensures r.endBox.x1 == q.endBox.x1 || r.endBox.x1 == item.box.x1
    ensures r.endBox.bottom == q.endBox.bottom || r.endBox.bottom == item.box.bottom
  {
    q.(content := q.content + [item],
       endBox := q.endBox.(x1 := Max(q.endBox.x1, item.box.x1),
                           bottom := Max(q.endBox.bottom, item.box.bottom)))
  }

  /** Every question the state holds: the finished ones, then the open one. */
  function Finish(st: ScanState): (qs: seq<Question>)
    ensures |qs| == |st.questions| + (if st.current.Some? then 1 else 0)
    ensures qs[..|st.questions|] == st.questions
    ensures st.current.Some? ==> qs[|st.questions|] == st.current.value
  {
    st.questions + (if st.current.Some? then [st.current.value] else [])
  }

  function StepLine(st: ScanState, page: nat, line: seq<Word>): ScanState
    requires line != []
  {
    var text := LineText(line);
    var item := Item(page, LineBox(line), Text(text));
    match Classify(st.expected, st.current.Some?, text)
    case NewQuestion =>
      ScanState(st.expected + 1, Some(Question(st.expected, page, item.box, item.box, [item])), Finish(st))
    case Body => st.(current := Some(Extend(st.current.value, item)))
    case OptionRow => st.(current := Some(Extend(st.current.value, item)))
    case Noise => st
  }

  /** An image joins the open question when its top is not above the question's heading top. */
  function StepImage(st: ScanState, page: nat, img: Box): ScanState {
    if st.current.Some? && img.top >= st.current.value.startBox.top then
      st.(current := Some(Extend(st.current.value, Item(page, img, Image))))
    else st
  }

  function ScanLines(st: ScanState, page: nat, lines: seq<seq<Word>>): ScanState
    requires forall k :: 0 <= k < |lines| ==> lines[k] != []
  {
    if lines == [] then st
    else StepLine(ScanLines(st, page, lines[..|lines| - 1]), page, lines[|lines| - 1])
  }

  function ScanImages(st: ScanState, page: nat, imgs: seq<Box>): ScanState {
    if imgs == [] then st
    else StepImage(ScanImages(st, page, imgs[..|imgs| - 1]), page, imgs[|imgs| - 1])
  }

  /** One page: its lines in order, then its images. */
  function ScanPage(st: ScanState, page: nat, p: Page): ScanState {
    ScanImages(ScanLines(st, page, GroupLines(p.words)), page, p.images)
  }

  /** The pages the scanner visits: all but the first. */
  function Visited(doc: seq<Page>): (v: seq<Page>)
    ensures |v| == if doc == [] then 0 else |doc| - 1
    ensures forall k :: 0 <= k < |v| ==> v[k] == doc[k + 1]
  {
    if doc == [] then [] else doc[1..]
  }

  /** Folds a per-page step over `pages`, numbering them from 1. */
  function FoldPages(step: (ScanState, nat, Page) -> ScanState, st: ScanState, pages: seq<Page>): ScanState
    decreases |pages|
  {
    if pages == [] then st
    else step(FoldPages(step, st, pages[..|pages| - 1]), |pages|, pages[|pages| - 1])
  }

  /** The state after the first `k` visited pages; visited page `k` is page number `k` of the document. */
  function ScanPages(doc: seq<Page>, k: nat): ScanState
    requires k <= |Visited(doc)|
  {
    FoldPages(ScanPage, Initial, Visited(doc)[..k])
  }

  /** The detected questions of a document, in order. */
  function Detect(doc: seq<Page>): seq<Question> {
    Finish(ScanPages(doc, |Visited(doc)|))
  }

  // ------------------------------------------------------------ invariants

  /** The largest right edge among the entries. */
  function MaxRight(items: seq<Item>): (m: real)
    requires items != []
    ensures forall k :: 0 <= k < |items| ==> items[k].box.x1 <= m
    ensures exists k :: 0 <= k < |items| && items[k].box.x1 == m
  {
    if |items| == 1 then items[0].box.x1
    else Max(MaxRight(items[..|items| - 1]), items[|items| - 1].box.x1)
  }

  /** The lowest bottom edge among the entries. */
  function MaxBottom(items: seq<Item>): (m: real)
    requires items != []
    ensures forall k :: 0 <= k < |items| ==> items[k].box.bottom <= m
    ensures exists k :: 0 <= k < |items| && items[k].box.bottom == m
  {
    if |items| == 1 then items[0].box.bottom
    else Max(MaxBottom(items[..|items| - 1]), items[|items| - 1].box.bottom)
  }

  /** The heading text of question `n`: it carries the number `n`, or it is the unnumbered starter line of question 1. */
  predicate HeadingFor(text: string, n: nat) {
    LeadingNumber(text) == Some(n)
    || (LeadingNumber(text) == None && IsStarterLine(text) && n == 1)
  }

  /** Entries are in scan order: their pages never decrease. */
  predicate InOrder(items: seq<Item>) {
    forall i, j :: 0 <= i < j < |items| ==> items[i].page <= items[j].page
  }

  /**
   * The shape of every question the scanner builds: the first entry is the
   * heading line with the start rectangle; the running rectangle keeps the
   * start's left and top edges and its right and bottom edges are the largest
   * among all entries (the heading included); entries are in scan order.
   */
  predicate WellFormed(q: Question) {
    q.content != []
    && q.content[0].page == q.page && q.content[0].box == q.startBox
    && q.content[0].payload.Text? && HeadingFor(q.content[0].payload.text, q.number)
    && q.endBox.x0 == q.startBox.x0 && q.endBox.top == q.startBox.top
    && q.endBox.x1 == MaxRight(q.content) && q.endBox.bottom == MaxBottom(q.content)
    && InOrder(q.content)
  }

  /** Numbers are 1, 2, ..., n in order. */
  predicate Numbered(qs: seq<Question>) {
    forall i :: 0 <= i < |qs| ==> qs[i].number == i + 1
  }

  predicate PagesInOrder(qs: seq<Question>) {
    forall i, j :: 0 <= i < j < |qs| ==> qs[i].page <= qs[j].page
  }

  /** The question lies on a visited page and none of its entries lies after page `last`. */
  predicate WithinPages(q: Question, last: nat) {
    1 <= q.page && forall k :: 0 <= k < |q.content| ==> q.content[k].page <= last
  }

  /** Every question lies on visited pages `1..last`, and so does every entry. */
  predicate OnPages(qs: seq<Question>, last: nat) {
    forall i :: 0 <= i < |qs| ==> WithinPages(qs[i], last)
  }

  /** The scanner's invariant after the visited pages `1..last`. */
  predicate Inv(st: ScanState, last: nat) {
    var qs := Finish(st);
    st.expected == |qs| + 1
    && (st.current.None? ==> st.questions == [])
    && Numbered(qs) && PagesInOrder(qs) && OnPages(qs, last)
    && forall i :: 0 <= i < |qs| ==> WellFormed(qs[i])
  }

  lemma MaxAppend(items: seq<Item>, item: Item)
    requires items != []
    ensures MaxRight(items + [item]) == Max(MaxRight(items), item.box.x1)
    ensures MaxBottom(items + [item]) == Max(MaxBottom(items), item.box.bottom)
  {
    assert (items + [item])[..|items|] == items;
  }

  lemma ExtendKeepsShape(q: Question, item: Item, last: nat)
    requires WellFormed(q) && WithinPages(q, last) && item.page == last
    ensures WellFormed(Extend(q, item)) && WithinPages(Extend(q, item), last)
  {
    var r := Extend(q, item);
    MaxAppend(q.content, item);
    assert r.content[0] == q.content[0];
    assert InOrder(r.content) by {
      forall i, j | 0 <= i < j < |r.content|
        ensures r.content[i].page <= r.content[j].page
      {
        if j == |q.content| {
          assert r.content[i] == q.content[i];
        }
      }
    }
  }

  /** Extending the open question keeps the invariant. */
  lemma ExtendCurrentKeepsInv(st: ScanState, item: Item, last: nat)
    requires Inv(st, last) && st.current.Some? && item.page == last
    ensures Inv(st.(current := Some(Extend(st.current.value, item))), last)
  {
    var q := st.current.value;
    var qs := Finish(st);
    assert qs[|st.questions|] == q;
    ExtendKeepsShape(q, item, last);
    var qs' := Finish(st.(current := Some(Extend(q, item))));
    assert qs' == st.questions + [Extend(q, item)];
    assert forall i :: 0 <= i < |st.questions| ==> qs'[i] == qs[i];
  }

  /** Opening a question keeps the invariant. */
  lemma OpenKeepsInv(st: ScanState, last: nat, text: string, box: Box)
    requires Inv(st, last) && last >= 1
    requires Opens(st.expected, st.current.Some?, text)
    ensures Inv(ScanState(st.expected + 1,
                          Some(Question(st.expected, last, box, box, [Item(last, box, Text(text))])),
                          Finish(st)), last)
  {
    var q := Question(st.expected, last, box, box, [Item(last, box, Text(text))]);
    var qs := Finish(st);
    assert WellFormed(q);
    assert Finish(ScanState(st.expected + 1, Some(q), qs)) == qs + [q];
    forall i | 0 <= i < |qs|
      ensures qs[i].page <= last
    {
      assert qs[i].content[0].page == qs[i].page;
    }
  }

  lemma StepLineKeepsInv(st: ScanState, last: nat, line: seq<Word>)
    requires Inv(st, last) && last >= 1 && line != []
    ensures Inv(StepLine(st, last, line), last)
  {
    var text := LineText(line);
    var item := Item(last, LineBox(line), Text(text));
    var next := StepLine(st, last, line);
    match Classify(st.expected, st.current.Some?, text)
    case NewQuestion =>
      var q := Question(st.expected, last, item.box, item.box, [item]);
      assert Inv(ScanState(st.expected + 1, Some(q), Finish(st)), last) by {
        OpenKeepsInv(st, last, text, item.box);
      }
      assert next == ScanState(st.expected + 1, Some(q), Finish(st));
    case Body =>
      assert Inv(st.(current := Some(Extend(st.current.value, item))), last) by {
        ExtendCurrentKeepsInv(st, item, last);
      }
    case OptionRow =>
      assert Inv(st.(current := Some(Extend(st.current.value, item))), last) by {
        ExtendCurrentKeepsInv(st, item, last);
      }
    case Noise =>
  }

  lemma StepImageKeepsInv(st: ScanState, last: nat, img: Box)
    requires Inv(st, last)
    ensures Inv(StepImage(st, last, img), last)
  {
    if st.current.Some? && img.top >= st.current.value.startBox.top {
      ExtendCurrentKeepsInv(st, Item(last, img, Image), last);
    }
  }

  lemma {:induction false} ScanLinesKeepsInv(st: ScanState, last: nat, lines: seq<seq<Word>>)
    requires Inv(st, last) && last >= 1
    requires forall k :: 0 <= k < |lines| ==> lines[k] != []
    ensures Inv(ScanLines(st, last, lines), last)
    decreases |lines|
  {
    if lines != [] {
      ScanLinesKeepsInv(st, last, lines[..|lines| - 1]);
      StepLineKeepsInv(ScanLines(st, last, lines[..|lines| - 1]), last, lines[|lines| - 1]);
    }
  }

  lemma {:induction false} ScanImagesKeepsInv(st: ScanState, last: nat, imgs: seq<Box>)
    requires Inv(st, last)
    ensures Inv(ScanImages(st, last, imgs), last)
    decreases |imgs|
  {
    if imgs != [] {
      ScanImagesKeepsInv(st, last, imgs[..|imgs| - 1]);
      StepImageKeepsInv(ScanImages(st, last, imgs[..|imgs| - 1]), last, imgs[|imgs| - 1]);
    }
  }

  lemma InvNextPage(st: ScanState, last: nat)
    requires Inv(st, last)
    ensures Inv(st, last + 1)
  {
  }

  lemma ScanPageKeepsInv(st: ScanState, k: nat, p: Page, next: ScanState)
    requires k >= 1 && Inv(st, k - 1)
    requires next == ScanPage(st, k, p)
    ensures Inv(next, k)
  {
    InvNextPage(st, k - 1);
    var lines := GroupLines(p.words);
    ScanLinesKeepsInv(st, k, lines);
    ScanImagesKeepsInv(ScanLines(st, k, lines), k, p.images);
  }

  /** Any per-page step that keeps the invariant, page after page, keeps it over a whole fold. */
  lemma {:induction false} FoldKeepsInv(step: (ScanState, nat, Page) -> ScanState, pages: seq<Page>)
    requires forall st, k, p :: k >= 1 && Inv(st, k - 1) ==> Inv(step(st, k, p), k)
    ensures Inv(FoldPages(step, Initial, pages), |pages|)
    decreases |pages|
  {
    if pages != [] {
      FoldKeepsInv(step, pages[..|pages| - 1]);
    }
  }

  /** The invariant holds after the visited pages. */
  lemma DetectKeepsInv(doc: seq<Page>)
    ensures Inv(ScanPages(doc, |Visited(doc)|), |Visited(doc)|)
  {
    forall st: ScanState, k: nat, p: Page | k >= 1 && Inv(st, k - 1)
      ensures Inv(ScanPage(st, k, p), k)
    {
      ScanPageKeepsInv(st, k, p, ScanPage(st, k, p));
    }
    FoldKeepsInv(ScanPage, Visited(doc));
    assert Visited(doc)[..|Visited(doc)|] == Visited(doc);
  }

  /**
   * What the scan delivers: questions numbered 1, 2, ..., n in order, on
   * non-decreasing pages among the visited ones (never the first page), each
   * starting with its heading line, with the right and bottom edges of its
   * running rectangle the largest among its entries (the left and top edges
   * stay the heading's), and its entries in scan order.
   */
  lemma DetectShape(doc: seq<Page>)
    ensures Numbered(Detect(doc))
    ensures PagesInOrder(Detect(doc))
    ensures OnPages(Detect(doc), |Visited(doc)|)
    ensures forall i :: 0 <= i < |Detect(doc)| ==> WellFormed(Detect(doc)[i])
  {
    DetectKeepsInv(doc);
  }

  /** The number of detected questions is the number of accepted headings: one less than the final expected number. */
  lemma DetectCount(doc: seq<Page>)
    ensures |Detect(doc)| + 1 == ScanPages(doc, |Visited(doc)|).expected
  {
    DetectKeepsInv(doc);
  }

  // ------------------------------------------------------ single steps

  /**
   * One line's effect on the questions held: an accepted heading closes the
   * open question (which stays as it was) and opens question `expected`; any
   * other line is appended to the open question or, with none open, dropped.
   * Finished questions are never touched again.
   */
  lemma StepLineEffect(st: ScanState, page: nat, line: seq<Word>)
    requires line != []
    ensures var r := StepLine(st, page, line);
            var text := LineText(line);
            var item := Item(page, LineBox(line), Text(text));
            if Opens(st.expected, st.current.Some?, text) then
              r.expected == st.expected + 1
              && Finish(r) == Finish(st) + [Question(st.expected, page, item.box, item.box, [item])]
            else
              r.expected == st.expected && r.questions == st.questions
              && Finish(r) == if st.current.Some? then st.questions + [Extend(st.current.value, item)] else Finish(st)
  {
  }

  /** A numbered line whose number is not the expected one never opens a question, not even through the starter test. */
  lemma WrongNumberNeverOpens(st: ScanState, page: nat, line: seq<Word>, n: nat)
    requires line != [] && LeadingNumber(LineText(line)) == Some(n) && n != st.expected
    ensures StepLine(st, page, line).expected == st.expected
    ensures StepLine(st, page, line).questions == st.questions
    ensures st.current.None? ==> StepLine(st, page, line) == st
  {
  }

  /** An option row never opens a question: it joins the open question, or is dropped when none is open. */
  lemma OptionRowNeverOpens(st: ScanState, page: nat, line: seq<Word>)
    requires line != [] && IsOptionRow(LineText(line))
    ensures Classify(st.expected, st.current.Some?, LineText(line)) == (if st.current.Some? then OptionRow else Noise)
    ensures StepLine(st, page, line).expected == st.expected
    ensures StepLine(st, page, line).questions == st.questions
  {
  }

  /**
   * When no extracted word text is empty or holds whitespace, the line text
   * splits back into exactly the words' texts, so the word count of the
   * starter test is the number of words on the line.
   */
  lemma LineWordCount(line: seq<Word>)
    requires forall k :: 0 <= k < |line| ==> IsWord(line[k].text)
    ensures Split(LineText(line)) == Texts(line)
    ensures |Split(LineText(line))| == |line|
  {
    var ts := Texts(line);
    assert forall k :: 0 <= k < |ts| ==> IsWord(ts[k]) by {
      forall k | 0 <= k < |ts| ensures IsWord(ts[k]) {
        assert ts[k] == line[k].text;
      }
    }
    SplitJoinSpace(ts);
  }

  /** Before the first heading, every line that does not open a question is discarded. */
  lemma LinesBeforeFirstHeadingDropped(st: ScanState, page: nat, line: seq<Word>)
    requires line != [] && st.current.None?
    requires !Opens(st.expected, false, LineText(line))
    ensures StepLine(st, page, line) == st
  {
  }

  /** A starter line can open only the first question: it needs no question open, hence nothing finished. */
  lemma StarterOpensOnlyFirst(st: ScanState, last: nat, line: seq<Word>)
    requires Inv(st, last) && line != []
    requires LeadingNumber(LineText(line)) == None
    requires Opens(st.expected, st.current.Some?, LineText(line))
    ensures st.current.None? && Finish(st) == []
    ensures Finish(StepLine(st, last, line))[0].number == 1
  {
  }

  /** An image is attached only to an open question, and only when its top is not above that question's heading. */
  lemma ImageAttachment(st: ScanState, page: nat, img: Box)
    ensures var r := StepImage(st, page, img);
            r.expected == st.expected && r.questions == st.questions
            && (r.current != st.current <==> st.current.Some? && img.top >= st.current.value.startBox.top)
  {
    if st.current.Some? {
      var q := st.current.value;
      assert |Extend(q, Item(page, img, Image)).content| == |q.content| + 1;
    }
  }

  // ------------------------------------------------------- the scanner

  lemma ScanPagesStep(doc: seq<Page>, k: nat)
    requires k < |Visited(doc)|
    ensures ScanPages(doc, k + 1)
            == ScanImages(ScanLines(ScanPages(doc, k), k + 1, GroupLines(Visited(doc)[k].words)), k + 1, Visited(doc)[k].images)
  {
    assert Visited(doc)[..k + 1][..k] == Visited(doc)[..k];
  }

  /** One line, as the source runs it on its three state variables. */
  method ScanLine(expected0: nat, current0: Option<Question>, questions0: seq<Question>,
                  pageNum: nat, line: seq<Word>)
    returns (expectedQuestion: nat, current: Option<Question>, questions: seq<Question>)
    requires line != []
    ensures ScanState(expectedQuestion, current, questions)
            == StepLine(ScanState(expected0, current0, questions0), pageNum, line)
  {
    expectedQuestion, current, questions := expected0, current0, questions0;
    var lineText := LineText(line);
    var numMatch := LeadingNumber(lineText);
    var optionMatch := IsOptionRow(lineText);
    ghost var kind := Classify(expectedQuestion, current.Some?, lineText);
    var isQuestion := false;
    if numMatch.Some? {
      isQuestion := numMatch.value == expectedQuestion;
    } else if IsStarterLine(lineText) {
      if current.None? {
        isQuestion := true;
      }
    }
    assert isQuestion <==> kind == NewQuestion;
    if isQuestion {
      if current.Some? {
        questions := questions + [current.value];
      }
      var bbox := LineBox(line);
      current := Some(Question(expectedQuestion, pageNum, bbox, bbox, [Item(pageNum, bbox, Text(lineText))]));
      expectedQuestion := expectedQuestion + 1;
    } else if current.Some? && !optionMatch {
      assert kind == Body;
      var bbox := LineBox(line);
      current := Some(Extend(current.value, Item(pageNum, bbox, Text(lineText))));
    } else if optionMatch {
      var bbox := LineBox(line);
      if current.Some? {
        assert kind == OptionRow;
        current := Some(Extend(current.value, Item(pageNum, bbox, Text(lineText))));
      }
    }
  }

  /** The page's lines, in order. */
  method ScanPageLines(expected0: nat, current0: Option<Question>, questions0: seq<Question>,
                       pageNum: nat, lines: seq<seq<Word>>)
    returns (expectedQuestion: nat, current: Option<Question>, questions: seq<Question>)
    requires forall k :: 0 <= k < |lines| ==> lines[k] != []
    ensures ScanState(expectedQuestion, current, questions)
            == ScanLines(ScanState(expected0, current0, questions0), pageNum, lines)
  {
    expectedQuestion, current, questions := expected0, current0, questions0;
    var li := 0;
    while li < |lines|
      invariant 0 <= li <= |lines|
      invariant ScanState(expectedQuestion, current, questions)
                == ScanLines(ScanState(expected0, current0, questions0), pageNum, lines[..li])
    {
      expectedQuestion, current, questions := ScanLine(expectedQuestion, current, questions, pageNum, lines[li]);
      assert lines[..li + 1][..li] == lines[..li];
      li := li + 1;
    }
    assert lines[..li] == lines;
  }

  /** The page's images, in order, each attached to the open question when it lies below its heading's top. */
  method AttachImages(expectedQuestion: nat, current0: Option<Question>, questions: seq<Question>,
                      pageNum: nat, images: seq<Box>)
    returns (current: Option<Question>)
    ensures ScanState(expectedQuestion, current, questions)
            == ScanImages(ScanState(expectedQuestion, current0, questions), pageNum, images)
  {
    current := current0;
    var ii := 0;
    while ii < |images|
      invariant 0 <= ii <= |images|
      invariant ScanState(expectedQuestion, current, questions)
                == ScanImages(ScanState(expectedQuestion, current0, questions), pageNum, images[..ii])
    {
      var img := images[ii];
      if current.Some? && img.top >= current.value.startBox.top {
        current := Some(Extend(current.value, Item(pageNum, img, Image)));
      }
      assert images[..ii + 1][..ii] == images[..ii];
      ii := ii + 1;
    }
    assert images[..ii] == images;
  }

  /**
   * The scanner as the source runs it: pages after the first, in order; on
   * each page the grouped lines, then the images; a question is finished
   * when the next heading is accepted or the document ends.
   */
  method DetectQuestions(doc: seq<Page>) returns (questions: seq<Question>)
    ensures questions == Detect(doc)
    ensures Numbered(questions) && PagesInOrder(questions)
    ensures OnPages(questions, |Visited(doc)|)
    ensures forall i :: 0 <= i < |questions| ==> WellFormed(questions[i])
  {
    questions := [];
    var current: Option<Question> := None;
    var expectedQuestion: nat := 1;
    var pages := Visited(doc);
    var k := 0;
    while k < |pages|
      invariant 0 <= k <= |pages|
      invariant ScanState(expectedQuestion, current, questions) == ScanPages(doc, k)
    {
      var page := pages[k];
      var lines := GroupWords(page.words);
      ScanPagesStep(doc, k);
      expectedQuestion, current, questions := ScanPageLines(expectedQuestion, current, questions, k + 1, lines);
      current := AttachImages(expectedQuestion, current, questions, k + 1, page.images);
      k := k + 1;
    }
    if current.Some? {
      questions := questions + [current.value];
    }
    DetectShape(doc);
  }
}
