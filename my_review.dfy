/**
 * Presentation rules of the "my reviews" feed: which layout a review cell
 * takes, how a long review is folded to three lines with a "more" label,
 * which rows may be expanded, and how tall each cell is.
 *
 * Text measurement (a UITextView sized to the screen width) is not
 * modelled: it is the oracle `measure`, any function from a text to its
 * rendered height.
 */
module MyReview {
  import opened Wrappers

  /** Rendered height of a text at the feed's font and width. */
  type Measure = string -> real

  // Layout codes handed to a review cell.
  const WithImageAndContents := 0
  const WithImage := 1
  const WithContents := 2
  const WithoutImageAndContents := 3

  /** Line count at which measuring stops: the fourth line. */
  const MaxMeasuredLines := 4
  /** Characters erased from a four-line prefix before the label is appended. */
  const ErasedChars := 8
  /** The "more" label appended to a folded review: two spaces and 더보기. */
  const MoreLabel: string := "  더보기"
  /** A review taller than this is folded. */
  const FoldThreshold: real := 55.0

  // Cell geometry, in points.
  const TopPadding: real := 28.0
  const NameLabelHeight: real := 20.0
  const TagHeight: real := 22.0
  const TagTopPadding: real := 10.0
  const TempPadding: real := 15.0
  const ThreeLineHeight: real := 51.0
  const BottomPadding: real := 28.0
  const ImageBottomPadding: real := 12.0
  /** Height of the cell that stands in for an empty feed. */
  const EmptyCellHeight: real := 200.0

  /** A review as the server delivers it; only the fields the feed inspects are kept. */
  datatype Review = Review(imageURLs: Option<seq<string>>, contents: Option<string>)

  /** A review together with whether its text must be folded. */
  datatype ReviewCell = ReviewCell(data: Review, foldRequired: bool)

  /** What a dequeued cell is configured with. */
  datatype CellContent =
    | EmptyCell
    | ReviewCellContent(review: Review, text: string, isFoldRequired: bool, expanded: bool, layout: int)

  // ---------------------------------------------------------------------
  // Layout classification

  /** Swift's `list?.isEmpty`: absent when the list is absent. */
  function OptionalIsEmpty<T>(xs: Option<seq<T>>): Option<bool> {
    match xs
    case None => None
    case Some(s) => Some(|s| == 0)
  }

  /** Swift's `list?.count`: absent when the list is absent. */
  function OptionalCount<T>(xs: Option<seq<T>>): Option<nat> {
    match xs
    case None => None
    case Some(s) => Some(|s|)
  }

  predicate HasImage(r: Review) {
    r.imageURLs.Some? && r.imageURLs.value != []
  }

  predicate HasContents(r: Review) {
    r.contents.Some?
  }

  /** The layout code of a review cell, decided by image and text presence. */
  function LayoutEnumValue(r: Review): (code: int)
    ensures WithImageAndContents <= code <= WithoutImageAndContents
    ensures (code == WithImageAndContents || code == WithImage) <==> HasImage(r)
    ensures (code == WithImageAndContents || code == WithContents) <==> HasContents(r)
  {
    if OptionalIsEmpty(r.imageURLs) == Some(false) then
      if r.contents != None then WithImageAndContents else WithImage
    else
      if r.contents != None then WithContents else WithoutImageAndContents
  }

  /** The `containsPhoto` flag the cell-size computation is given: `list?.count != 0`. */
  function ContainsPhoto(urls: Option<seq<string>>): (b: bool)
    ensures b <==> urls == None || urls.value != []
  {
    OptionalCount(urls) != Some(0)
  }

  /** The cell-size flag and the layout classification disagree exactly on a missing URL list. */
  lemma ContainsPhotoDisagreesOnMissingList(r: Review)
    ensures ContainsPhoto(r.imageURLs) != HasImage(r) <==> r.imageURLs == None
    ensures r.imageURLs == None ==> ContainsPhoto(r.imageURLs) && LayoutEnumValue(r) >= WithContents
  {
  }

  // ---------------------------------------------------------------------
  // Measuring a review line by line

  /** The height recorded after the first j characters were measured (0 before any). */
  function PreviousHeight(review: string, measure: Measure, j: nat): real
    requires j <= |review|
  {
    if j == 0 then 0.0 else measure(review[..j])
  }

  /**
   * Number of times the measured height changed while the first j
   * characters were added one at a time: the line count after j steps.
   */
  function LinesUpTo(review: string, measure: Measure, j: nat): (n: nat)
    requires j <= |review|
    ensures n <= j
  {
    if j == 0 then 0
    else
      LinesUpTo(review, measure, j - 1)
      + (if measure(review[..j]) != PreviousHeight(review, measure, j - 1) then 1 else 0)
  }

  /** The first prefix length from `from` on at which four lines are counted, or the whole length. */
  function FoldPoint(review: string, measure: Measure, from: nat): (k: nat)
    requires from <= |review|
    ensures from <= k <= |review|
    ensures k == |review| || LinesUpTo(review, measure, k) == MaxMeasuredLines
    ensures forall j :: from <= j < k ==> LinesUpTo(review, measure, j) != MaxMeasuredLines
    decreases |review| - from
  {
    if from == |review| || LinesUpTo(review, measure, from) == MaxMeasuredLines then from
    else FoldPoint(review, measure, from + 1)
  }

  /** The line count grows by at most one per character, so it cannot pass four unseen. */
  lemma {:induction false} LinesStayBelowFour(review: string, measure: Measure, k: nat)
    requires k <= |review|
    requires forall j :: 0 <= j < k ==> LinesUpTo(review, measure, j) != MaxMeasuredLines
    ensures forall j :: 0 <= j < k ==> LinesUpTo(review, measure, j) < MaxMeasuredLines
    ensures LinesUpTo(review, measure, k) <= MaxMeasuredLines
  {
    if k > 0 {
      LinesStayBelowFour(review, measure, k - 1);
    }
  }

  /**
   * The line count and the measured prefix: the shortest prefix with four
   * lines, or the whole review when it never reaches four.
   */
  function MeasuredText(review: string, measure: Measure): (result: (nat, string))
    ensures result.0 <= MaxMeasuredLines
    ensures |result.1| <= |review| && result.1 == review[..|result.1|]
    ensures result.0 == LinesUpTo(review, measure, |result.1|)
    ensures result.0 < MaxMeasuredLines ==> result.1 == review
    ensures forall j :: 0 <= j < |result.1| ==> LinesUpTo(review, measure, j) < MaxMeasuredLines
  {
    var k := FoldPoint(review, measure, 0);
    LinesStayBelowFour(review, measure, k);
    (LinesUpTo(review, measure, k), review[..k])
  }

  /** Adds the review one character at a time, counting height changes, until the fourth line. */
  method CalculateTextInSize(review: string, measure: Measure) returns (lineCount: nat, text: string)
    ensures (lineCount, text) == MeasuredText(review, measure)
  {
    text := "";
    var previousHeight: real := 0.0;
    lineCount := 0;
    var i := 0;
    while i < |review|
      invariant 0 <= i <= |review|
      invariant text == review[..i]
      invariant previousHeight == PreviousHeight(review, measure, i)
      invariant lineCount == LinesUpTo(review, measure, i) && lineCount < MaxMeasuredLines
      invariant FoldPoint(review, measure, i) == FoldPoint(review, measure, 0)
    {
      assert review[..i + 1] == review[..i] + [review[i]];
      text := text + [review[i]];
      if previousHeight != measure(text) {
        previousHeight := measure(text);
        lineCount := lineCount + 1;
      }
      i := i + 1;
      if lineCount == MaxMeasuredLines {
        assert FoldPoint(review, measure, i) == i;
        return;
      }
    }
  }

  /**
   * The text a collapsed cell shows: the review itself when it measures at
   * most three lines; otherwise the four-line prefix minus its last eight
   * characters followed by the "more" label, or nothing at all when that
   * prefix is shorter than eight characters.
   */
  function FoldedContents(review: string, measure: Measure): (cut: string)
    ensures cut == review <==> MeasuredText(review, measure).0 < MaxMeasuredLines
    ensures cut == review
         || (|MoreLabel| <= |cut| < |review|
             && cut == review[..|cut| - |MoreLabel|] + MoreLabel)
         || cut == ""
  {
    var (lineCount, prefix) := MeasuredText(review, measure);
    if lineCount <= 3 then prefix
    else if |prefix| >= ErasedChars then prefix[..|prefix| - ErasedChars] + MoreLabel
    else ""
  }

  /**
   * The two outcomes for a review that reaches four lines: with a prefix of
   * at least eight characters, the prefix minus its last eight characters
   * followed by the label (three characters shorter than the prefix);
   * otherwise the empty text, with no label.
   */
  lemma FoldedContentsOutcomes(review: string, measure: Measure)
    ensures var (n, p) := MeasuredText(review, measure);
      && (n == MaxMeasuredLines && |p| < ErasedChars ==> FoldedContents(review, measure) == "")
      && (n == MaxMeasuredLines && |p| >= ErasedChars ==>
            FoldedContents(review, measure) == p[..|p| - ErasedChars] + MoreLabel
            && |FoldedContents(review, measure)| == |p| - 3)
  {
  }

  /**
   * The empty outcome does happen: a text that reaches four lines within
   * seven characters, here one where every character starts a new line.
   */
  lemma ShortFourLinePrefixFoldsToEmpty()
    ensures FoldedContents("abcd", (t: string) => |t| as real) == ""
  {
    var m := (t: string) => |t| as real;
    var review := "abcd";
    assert LinesUpTo(review, m, 1) == 1 by { assert review[..1] == "a"; }
    assert LinesUpTo(review, m, 2) == 2 by { assert review[..2] == "ab"; }
    assert LinesUpTo(review, m, 3) == 3 by { assert review[..3] == "abc"; }
    assert LinesUpTo(review, m, 4) == 4 by { assert review[..4] == "abcd"; }
  }

  /** Pops characters off the measured prefix, once per character of a copy of it. */
  method CutReviewContents(reviewDataContents: string, measure: Measure) returns (cutText: string)
    ensures cutText == FoldedContents(reviewDataContents, measure)
  {
    var eraseCount := 0;
    var lineCount;
    lineCount, cutText := CalculateTextInSize(reviewDataContents, measure);
    if lineCount > 3 {
      // Swift's `for char in cutText` iterates over a copy; the `continue`
      // taken on a space is the last statement of the body and changes nothing.
      var original := cutText;
      var i := 0;
      while i < |original|
        invariant 0 <= i <= |original| && i < ErasedChars
        invariant eraseCount == i
        invariant cutText == original[..|original| - i]
      {
        eraseCount := eraseCount + 1;
        cutText := cutText[..|cutText| - 1];
        if eraseCount > 7 {
          cutText := cutText + MoreLabel;
          break;
        }
        i := i + 1;
      }
    }
  }

  // ---------------------------------------------------------------------
  // Cell height

  /** The part of a cell's height taken by the photo strip, if any. */
  function PhotoArea(containsPhoto: bool, screenWidth: real): real {
    if containsPhoto then screenWidth * (105.0 / 375.0) + ImageBottomPadding else 0.0
  }

  function Min(a: real, b: real): real {
    if a <= b then a else b
  }

  /**
   * Height of a review cell: a fixed 95 points, the photo strip when
   * present, and the text: at most three lines while collapsed, all of it
   * when expanded, plus the bottom padding.
   */
  function CalculateReviewCellHeight(containsPhoto: bool, reviewText: Option<string>, isExpandState: bool,
                                     screenWidth: real, measure: Measure): (cellHeight: real)
    ensures var t := measure(reviewText.GetOr(""));
      cellHeight == 95.0 + PhotoArea(containsPhoto, screenWidth)
                  + (if isExpandState then t else Min(t, ThreeLineHeight)) + 28.0
    ensures !isExpandState && measure(reviewText.GetOr("")) >= ThreeLineHeight ==>
      cellHeight == 95.0 + PhotoArea(containsPhoto, screenWidth) + 51.0 + 28.0
  {
    var fixedHeight := TopPadding + NameLabelHeight + TagHeight + TagTopPadding + TempPadding;
    var withPhoto := if containsPhoto then fixedHeight + screenWidth * (105.0 / 375.0) + ImageBottomPadding
                     else fixedHeight;
    var textViewHeight := measure(reviewText.GetOr(""));
    if textViewHeight >= ThreeLineHeight then
      if !isExpandState then withPhoto + (ThreeLineHeight + BottomPadding)
      else withPhoto + (textViewHeight + BottomPadding)
    else withPhoto + (textViewHeight + BottomPadding)
  }

  /** Expanding a row never makes its cell shorter, and leaves a short text's cell as it is. */
  lemma ExpandingNeverShrinks(containsPhoto: bool, reviewText: Option<string>, screenWidth: real, measure: Measure)
    ensures CalculateReviewCellHeight(containsPhoto, reviewText, true, screenWidth, measure)
         >= CalculateReviewCellHeight(containsPhoto, reviewText, false, screenWidth, measure)
    ensures measure(reviewText.GetOr("")) < ThreeLineHeight ==>
      CalculateReviewCellHeight(containsPhoto, reviewText, true, screenWidth, measure)
      == CalculateReviewCellHeight(containsPhoto, reviewText, false, screenWidth, measure)
  {
  }

  // ---------------------------------------------------------------------
  // The feed screen

  /** The row labels produced for a list of cells: "" for a review without text. */
  function CutLabel(cell: ReviewCell, measure: Measure): string {
    match cell.data.contents
    case None => ""
    case Some(t) => FoldedContents(t, measure)
  }

  function CutLabels(cells: seq<ReviewCell>, measure: Measure): (labels: seq<string>)
    ensures |labels| == |cells|
    ensures forall i :: 0 <= i < |cells| ==> labels[i] == CutLabel(cells[i], measure)
  {
    seq(|cells|, i requires 0 <= i < |cells| => CutLabel(cells[i], measure))
  }

  /** `n` rows, all collapsed. */
  function Collapsed(n: nat): (states: seq<bool>)
    ensures |states| == n && forall i :: 0 <= i < n ==> !states[i]
  {
    seq(n, _ => false)
  }

  /** The cell built for one server review: folded iff its text is taller than 55 points. */
  function ViewModelFor(r: Review, measure: Measure): (cell: ReviewCell)
    ensures cell.data == r
    ensures cell.foldRequired <==> measure(r.contents.GetOr("")) > FoldThreshold
  {
    ReviewCell(r, measure(r.contents.GetOr("")) > FoldThreshold)
  }

  class MyReviewScreen {
    const measure: Measure
    var reviewData: seq<ReviewCell>
    var cutLabelList: seq<string>
    var expendStateList: seq<bool>

    /** Every row has an expand state and a label. */
    ghost predicate Valid()
      reads this
    {
      |expendStateList| == |reviewData| && |cutLabelList| >= |reviewData|
    }

    constructor (measure: Measure)
      ensures Valid()
      ensures this.measure == measure
      ensures reviewData == [] && cutLabelList == [] && expendStateList == []
    {
      this.measure := measure;
      reviewData := [];
      cutLabelList := [];
      expendStateList := [];
    }

    /** Appends one label per row, never clearing the labels already there. */
    method FetchCutStringList()
      modifies this
      ensures reviewData == old(reviewData) && expendStateList == old(expendStateList)
      ensures cutLabelList == old(cutLabelList) + CutLabels(reviewData, measure)
    {
      var k := 0;
      while k < |reviewData|
        invariant 0 <= k <= |reviewData|
        invariant reviewData == old(reviewData) && expendStateList == old(expendStateList)
        invariant cutLabelList == old(cutLabelList) + CutLabels(reviewData[..k], measure)
      {
        var viewModel := reviewData[k];
        assert CutLabels(reviewData[..k + 1], measure) == CutLabels(reviewData[..k], measure) + [CutLabel(viewModel, measure)];
        match viewModel.data.contents {
          case Some(reviewText) =>
            var cutText := CutReviewContents(reviewText, measure);
            cutLabelList := cutLabelList + [cutText];
          case None =>
            cutLabelList := cutLabelList + [""];
        }
        k := k + 1;
      }
      assert reviewData[..k] == reviewData;
    }

    /** Resets every row to collapsed. */
    method FetchExpendStateList()
      modifies this
      ensures reviewData == old(reviewData) && cutLabelList == old(cutLabelList)
      ensures expendStateList == Collapsed(|reviewData|)
    {
      expendStateList := seq(|reviewData|, _ => false);
    }

    /** Assigning the rows runs the property observer: labels are appended and expand states reset. */
    method AssignReviewData(newData: seq<ReviewCell>)
      requires Valid()
      modifies this
      ensures Valid()
      ensures reviewData == newData
      ensures cutLabelList == old(cutLabelList) + CutLabels(newData, measure)
      ensures expendStateList == Collapsed(|newData|)
    {
      reviewData := newData;
      FetchCutStringList();
      FetchExpendStateList();
    }

    /** Builds one cell per server review, in order, and assigns them as the rows. */
    method ProcessViewModel(reviewDataList: seq<Review>)
      requires Valid()
      modifies this
      ensures Valid()
      ensures |reviewData| == |reviewDataList|
      ensures forall i :: 0 <= i < |reviewDataList| ==>
        reviewData[i].data == reviewDataList[i]
        && (reviewData[i].foldRequired <==> measure(reviewDataList[i].contents.GetOr("")) > FoldThreshold)
      ensures cutLabelList == old(cutLabelList) + CutLabels(reviewData, measure)
      ensures expendStateList == Collapsed(|reviewDataList|)
    {
      var reviewResult: seq<ReviewCell> := [];
      for k := 0 to |reviewDataList|
        invariant |reviewResult| == k
        invariant forall i :: 0 <= i < k ==> reviewResult[i] == ViewModelFor(reviewDataList[i], measure)
      {
        var height := measure(reviewDataList[k].contents.GetOr(""));
        reviewResult := reviewResult + [ReviewCell(reviewDataList[k], height > FoldThreshold)];
      }
      AssignReviewData(reviewResult);
    }

    /** The cell's click handler: flips the clicked row and no other. */
    method ToggleExpand(clickedIndex: nat)
      requires Valid()
      requires clickedIndex < |expendStateList|
      modifies this
      ensures Valid()
      ensures reviewData == old(reviewData) && cutLabelList == old(cutLabelList)
      ensures |expendStateList| == |old(expendStateList)|
      ensures expendStateList[clickedIndex] == !old(expendStateList)[clickedIndex]
      ensures forall j :: 0 <= j < |expendStateList| && j != clickedIndex ==>
        expendStateList[j] == old(expendStateList)[j]
    {
      expendStateList := expendStateList[clickedIndex := !expendStateList[clickedIndex]];
    }

    /** Number of items in the feed's only section: one empty-view cell when there are no reviews. */
    function NumberOfItems(): (n: nat)
      reads this
      ensures n >= 1
      ensures reviewData != [] ==> n == |reviewData|
      ensures reviewData == [] ==> n == 1
    {
      if |reviewData| == 0 then 1 else |reviewData|
    }

    /** What the cell at `row` is configured with. */
    function CellForItem(row: nat): (cell: CellContent)
      reads this
      requires Valid() && row < NumberOfItems()
      ensures cell.EmptyCell? <==> reviewData == []
      ensures cell.ReviewCellContent? ==>
        var rc := reviewData[row];
        && cell.review == rc.data
        && cell.layout == LayoutEnumValue(rc.data)
        && cell.isFoldRequired == rc.foldRequired
        && (cell.expanded <==> rc.foldRequired && expendStateList[row])
        && (rc.foldRequired && !expendStateList[row] ==> cell.text == cutLabelList[row])
        && (!(rc.foldRequired && !expendStateList[row]) ==> cell.text == rc.data.contents.GetOr(""))
    {
      if |reviewData| == 0 then EmptyCell
      else
        var rc := reviewData[row];
        if rc.foldRequired then
          var reviewText := if expendStateList[row] then rc.data.contents else Some(cutLabelList[row]);
          ReviewCellContent(rc.data, reviewText.GetOr(""), true, expendStateList[row], LayoutEnumValue(rc.data))
        else
          ReviewCellContent(rc.data, rc.data.contents.GetOr(""), false, false, LayoutEnumValue(rc.data))
    }

    /** Height of the item at `row`: 200 points for the empty view, the review-cell rule otherwise. */
    function ItemHeight(row: nat, screenWidth: real): (h: real)
      reads this
      requires Valid() && row < NumberOfItems()
      requires screenWidth > 0.0
      ensures reviewData == [] ==> h == EmptyCellHeight
      ensures reviewData != [] ==>
        h == CalculateReviewCellHeight(ContainsPhoto(reviewData[row].data.imageURLs),
                                       reviewData[row].data.contents, expendStateList[row],
                                       screenWidth, measure)
    {
      if |reviewData| == 0 then screenWidth * 200.0 / screenWidth
      else CalculateReviewCellHeight(ContainsPhoto(reviewData[row].data.imageURLs),
                                     reviewData[row].data.contents, expendStateList[row],
                                     screenWidth, measure)
    }
  }

  /**
   * When the labels were produced for exactly the current rows, a folded,
   * collapsed row shows its review folded by FoldedContents.
   */
  lemma CollapsedRowShowsFoldedText(s: MyReviewScreen, row: nat)
    requires s.Valid() && row < |s.reviewData|
    requires s.cutLabelList == CutLabels(s.reviewData, s.measure)
    requires s.reviewData[row].foldRequired && !s.expendStateList[row]
    requires s.reviewData[row].data.contents.Some?
    ensures s.CellForItem(row).text == FoldedContents(s.reviewData[row].data.contents.value, s.measure)
  {
  }
}
