# Question segmentation of PaperPPT, modelled in Dafny

PaperPPT turns a PDF of numbered multiple-choice questions into slides.
Its core is `MCQQuestionSplitter.detect_questions`. It scans the pages
after the first. On each page it groups the extracted words into lines by
vertical position. It then runs a small state machine over the lines. The
state is the next expected question number, the open question and the
finished questions. Each line either opens a question, is appended to the
open question, or is dropped. Afterwards the page's images are attached to
the open question. A second, smaller part, `capture_question_image`,
computes the rectangle of the page that is rendered for one question.

The model follows the code as written:

- `options.dfy`: the `Option` type.
- `geometry.dfy`: rectangles, words, pages, `Min`/`Max`/`Abs` over reals.
- `text_patterns.dfy`: the pure line tests. These are the single-space
  join, the leading-number pattern `^\s*(\d+)[.\s]`, `str.split()`, the
  case-insensitive starter-word pattern and the option-row pattern
  `^[A-D][\.\)]`.
- `line_grouping.dfy`: the grouping of a page's words into lines. The
  loop is the method `GroupWords`. It is proved equal to the function
  `GroupLines`, which carries the partition and tolerance lemmas.
- `question_scan.dfy`: the state machine. `ScanLine` is the body of the
  line loop on the source's three state variables. It is proved equal to
  the single step `StepLine`. `ScanPageLines`, `AttachImages` and
  `DetectQuestions` are the source's loops. Each is proved equal to a fold
  (`ScanLines`, `ScanImages`, `Detect`). The invariant `Inv` holds across
  every step. It says questions are numbered 1..n, pages never decrease
  and the heading is the first entry. The running rectangle's right and
  bottom edges are the largest among the entries, and its left and top
  edges stay those of the heading.
- `crop_region.dfy`: the crop rectangle. `CaptureBox` updates a four-slot
  array as the source updates its `bbox` list. It is proved equal to
  `Crop`, whose edges are given in closed form by lemmas.

Some behaviour one might expect of such a splitter is absent from the
code, and so from the model. Font name and size are extracted
(`MCQQuestionSplitter.py:60`) but never read, so there is no
reference-font filter. There is no option counter or four-option cap, no
clamp of a crop against the next question's start, no widening of the
right edge, and no extra margin on the last page. Two consequences follow.
A crop is not clamped above the next question on the same page. Also,
every same-page entry moves the top edge down by 0.2 and the bottom edge
up by 30, so these offsets accumulate.

## Model

| member | source | states |
|---|---|---|
| TextPatterns.JoinSpace | MCQQuestionSplitter.py:85 | The line text starts with the first word's text, and a single space follows it when there are more words; one word is its own text and no words give the empty string. |
| TextPatterns.SplitJoinSpace | MCQQuestionSplitter.py:85-99 | When every word text is non-empty and free of whitespace, splitting the joined line on whitespace gives back exactly those texts, so the word count of the starter test is the number of words. The extractor keeps blanks inside a text, so the source does not guarantee this condition. |
| TextPatterns.IsOptionRow | MCQQuestionSplitter.py:93 | The option-row pattern: a letter A-D, then `.` or `)`. Such a line has no leading number and matches no starter word. |
| TextPatterns.LeadingNumberIsPatternMatch | MCQQuestionSplitter.py:88 | `LeadingNumber(s) == Some(n)` exactly when `s` is optional whitespace, a digit run of value `n`, then `.` or whitespace. This is the regular expression's reading, in both directions. |
| TextPatterns.SplitCountsWordStarts | MCQQuestionSplitter.py:99 | The number of words `split()` yields is the number of positions where a non-space character follows a space or the start. |
| TextPatterns.StarterLineHasFourWords | MCQQuestionSplitter.py:99 | A line that passes the starter test has more than three word beginnings. |
| TextPatterns.StarterIsPlainPrefix | MCQQuestionSplitter.py:90-91 | The starter pattern is anchored only at the start: a line that matches still matches whatever text is appended to it. |
| TextPatterns.StarterMatchesInsects | MCQQuestionSplitter.py:90-91 | The starter pattern needs no word boundary: "Insects have six legs" matches through "In". |
| LineGrouping.GroupLines | MCQQuestionSplitter.py:64-80 | Every line produced is non-empty. |
| LineGrouping.GroupLinesPartition | MCQQuestionSplitter.py:64-80 | Concatenating the lines gives back the page's words in order; no words give no lines, and some words give some lines. |
| LineGrouping.GroupLinesBands | MCQQuestionSplitter.py:68-77 | Every word of a line has its top within 3 of the line's first word's top; the first words of consecutive lines are more than 3 apart, since the anchor is never moved by later words. |
| LineGrouping.GroupWords | MCQQuestionSplitter.py:64-80 | The word loop with its anchor `current_y` yields exactly `GroupLines(words)`, and its lines concatenate back to the words. |
| QuestionScan.LineText | MCQQuestionSplitter.py:85 | The line text is the words' texts joined by single spaces, and it starts with the first word's text. |
| QuestionScan.LineWordCount | MCQQuestionSplitter.py:85-99 | When no word text is empty or holds whitespace, splitting the line text gives back the words' texts, so the starter test counts the words of the line. |
| QuestionScan.LineBox | MCQQuestionSplitter.py:107-108 | A line's rectangle takes its left and top from the first word and its right and bottom from the last word, as the source builds it at :107-108, :121-122 and :128-129. |
| QuestionScan.Visited | MCQQuestionSplitter.py:54 | The visited pages are the document without its first page, in order: visited page k is document page k, as `enumerate(pdf.pages[1:], 1)` numbers them. |
| QuestionScan.OptionRowNeverOpens | MCQQuestionSplitter.py:93-133 | An option row never opens a question and never changes `expected` or the finished questions. It is appended to the open question, or dropped when none is open. |
| QuestionScan.Classify | MCQQuestionSplitter.py:88-133 | A line opens a question exactly when its number is the expected one, or it has no number, passes the starter test and no question is open. It is dropped exactly when no question is open and it does not open one; otherwise it is appended, as body when it is not an option row and as an option row when it is. |
| QuestionScan.Extend | MCQQuestionSplitter.py:122-125 | Appending an entry keeps number, page, start box and the running box's left and top edges. The running right and bottom edges become the larger of the old edge and the entry's edge. |
| QuestionScan.Finish | MCQQuestionSplitter.py:144-145 | The emitted list is the finished questions, unchanged and in order, followed by the open question when there is one and by nothing otherwise. |
| QuestionScan.ExtendKeepsShape | MCQQuestionSplitter.py:120-141 | Appending a line or image keeps a question well formed. The heading stays first, the running right and bottom edges stay the maxima over all entries, and entries stay in page order. |
| QuestionScan.OpenKeepsInv | MCQQuestionSplitter.py:104-116 | Accepting a heading finishes the open question, opens question `expected` on the current page with the heading as its only entry, and keeps the scanner invariant. |
| QuestionScan.StepLineKeepsInv | MCQQuestionSplitter.py:83-133 | Every line keeps the scanner invariant: numbers 1..n in order, pages non-decreasing, every question well formed, and `expected` one more than the number of questions held. |
| QuestionScan.StepImageKeepsInv | MCQQuestionSplitter.py:136-141 | Every image keeps the scanner invariant. |
| QuestionScan.ScanPageKeepsInv | MCQQuestionSplitter.py:53-141 | A whole page, lines then images, keeps the invariant and moves its page bound to that page. |
| QuestionScan.DetectKeepsInv | MCQQuestionSplitter.py:53-141 | The invariant holds after all visited pages. |
| QuestionScan.DetectShape | MCQQuestionSplitter.py:47-147 | The emitted questions are numbered 1, 2, ..., n in order. Their pages never decrease and lie among the visited pages, never the first. Each starts with its heading line. Its running box's right and bottom edges are the largest among its entries, and its left and top edges stay the heading's. |
| QuestionScan.DetectCount | MCQQuestionSplitter.py:110-117 | Exactly one question is emitted per accepted heading: the count is one less than the final expected number. |
| QuestionScan.StepLineEffect | MCQQuestionSplitter.py:104-133 | An accepted heading adds the new question after all held questions, which stay unchanged, and increments `expected` by one. Any other line leaves `expected` and the finished questions alone. It is appended to the open question, or dropped when none is open. |
| QuestionScan.WrongNumberNeverOpens | MCQQuestionSplitter.py:96-101 | A numbered line with a number other than the expected one never opens a question, not even through the starter test. With no question open it is dropped. |
| QuestionScan.LinesBeforeFirstHeadingDropped | MCQQuestionSplitter.py:120-133 | With no question open, a line that does not open one leaves the state unchanged. |
| QuestionScan.StarterOpensOnlyFirst | MCQQuestionSplitter.py:99-101 | An unnumbered starter line opens a question only when nothing has been opened before, so it can only open question 1. |
| QuestionScan.ImageAttachment | MCQQuestionSplitter.py:136-141 | An image changes the state exactly when a question is open and the image's top is not above that question's start top; `expected` and finished questions never change. |
| QuestionScan.ScanLine | MCQQuestionSplitter.py:83-133 | The source's branch structure on its three state variables computes exactly `StepLine`. |
| QuestionScan.ScanPageLines | MCQQuestionSplitter.py:83-133 | The loop over a page's lines computes exactly `ScanLines`. |
| QuestionScan.AttachImages | MCQQuestionSplitter.py:136-141 | The loop over a page's images computes exactly `ScanImages`. |
| QuestionScan.DetectQuestions | MCQQuestionSplitter.py:47-147 | The whole scan returns `Detect(doc)`. Its questions are numbered 1..n, on non-decreasing visited pages, and each is well formed. |
| CropRegion.FoldItem | MCQQuestionSplitter.py:157-161 | One same-page entry takes the smaller left edge and the larger right edge. The top becomes the smaller top plus 0.2 and the bottom the larger bottom minus 30; each of the four edges comes from one of the two rectangles. |
| CropRegion.Crop | MCQQuestionSplitter.py:164-171 | The crop lies within the page: left and top at least 0, right at most the width, bottom at most the height. |
| CropRegion.BoundsIgnoresOtherPages | MCQQuestionSplitter.py:155-161 | Entries on other pages leave the folded box unchanged: folding only the same-page entries gives the same box. |
| CropRegion.CropIgnoresOtherPages | MCQQuestionSplitter.py:155-171 | The crop depends only on the entries on the question's page. |
| CropRegion.BoundsHorizontal | MCQQuestionSplitter.py:155-161 | The folded left edge is the least left edge among the start box and the same-page entries, and the right edge the greatest right edge. |
| CropRegion.BoundsBottom | MCQQuestionSplitter.py:155-161 | Closed form of the folded bottom: the largest of the start bottom minus 30 per same-page entry and each same-page entry's bottom minus 30 per same-page entry from it on. |
| CropRegion.BoundsTop | MCQQuestionSplitter.py:155-161 | Closed form of the folded top: the least of the start top plus 0.2 per same-page entry and each same-page entry's top plus 0.2 per same-page entry from it on. |
| CropRegion.CropHorizontal | MCQQuestionSplitter.py:155-171 | x0 = max(0, min(start x0, same-page x0s) - 20) and x1 = min(width, max(start x1, same-page x1s) + 20), stated as bounds plus attainment. |
| CropRegion.CropBottomOfLowestLast | MCQQuestionSplitter.py:155-171 | When the last entry is on the question's page and lowest, the crop ends at min(height, its bottom - 10): the 30 cut outweighs the 20 padding. |
| CropRegion.CropHeadingOnly | MCQQuestionSplitter.py:154-171 | For a question holding only its heading, the crop is the heading box padded by 20 on the left, right and top (top moved by 0.2 first), with the bottom at the heading's bottom minus 10, clamped to the page. |
| CropRegion.CaptureBox | MCQQuestionSplitter.py:154-171 | The loop updating the four-slot box element by element, then padding and clamping, computes exactly `Crop`. |

## Left out

- PDF access (`pdfplumber.open`, `extract_words` with its tolerances and extra attributes, `page.images`) is outside the model. A document is a sequence of pages, each with its words in extraction order and its image rectangles.
- Images are taken as rectangles. The source reads each image's rectangle through the record's `bbox` key; whether the extractor supplies that key is outside the model.
- The page's width and height, which the source reads from the page object, are parameters of `Crop` and `CaptureBox`.
- Rendering and saving the crop (`page.crop(...).to_image`, `img.save`, the temporary path) are I/O and not modelled; `CaptureBox` returns the rectangle.
- The `print` of each accepted heading is logging and not modelled.
- `\d` and `int()` accept every Unicode decimal digit; the model accepts ASCII digits only.
- Coordinates are reals and arithmetic on them is exact. The source uses floating point. Its comparisons, minima and maxima are exact there too. Some of its arithmetic rounds in the source but is exact in the model (`InBand`, `GroupWords`, `Bounds`, `Crop`):
  - the difference `word['top'] - current_y` in the line tolerance test (`MCQQuestionSplitter.py:72`);
  - the additions of 0.2, repeated once per same-page entry (`MCQQuestionSplitter.py:160`);
  - the padding of 20 and the cut of 30.
- The docstring of `detect_questions` (`MCQQuestionSplitter.py:48`) speaks of questions numbered 1-40, but the code has no upper bound on the expected number, and neither has the model: any count of consecutive headings is accepted.
- The question record is a dictionary mutated in place. It is modelled as a value that each step rebuilds. The heading's content entry shares its list with the start box in the source, but neither is mutated afterwards, so no aliasing is observable.
- `TemplateManager`, `set_slide_timing`, `create_slide_with_question`, `convert_pdf_to_slides`, `cleanup` and `main` are file-system, slide-building and command-line glue and are not part of this model.
- MCQs_to_PPT.py is a GUI with background threads and is not part of this model.
