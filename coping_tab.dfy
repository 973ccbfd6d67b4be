/**
 * Decision rules of the restaurant detail's coping tab: what a pan gesture
 * does, how tall the category row and the content cell are, and how the
 * fetched prescriptions fill the two parallel lists the table reads.
 *
 * Window geometry (status bar, navigation bar, screen height) is a
 * parameter, and the height of a tip list as the cell calculator lays it
 * out is the oracle `listHeight`.
 */
module CopingTab {
  import opened Wrappers

  /** Height a list of tips takes in the content cell. */
  type ListHeight = seq<string> -> real

  /** What a pan gesture triggers. */
  datatype PanAction =
    | ScrollStarted(velocity: real)  // the parent starts scrolling up
    | Dismiss                        // swipe-to-dismiss and "child scroll ended"
    | Swipe(isRight: bool)           // move to the neighbouring tab
    | NoAction

  const ScrollUpVelocity: real := -10.0

  const SingleCategoryRowHeight: real := 20.0
  const CategoryRowHeightDefault: real := 72.0
  const MenuCellHeight: real := 44.0
  const BottomInset: real := 68.0
  const HeaderHeight: real := 126.0
  const BottomMargin: real := 52.0
  const FallbackTableHeight: real := 1000.0

  /** The table has a category section and a content section, one row each. */
  const NumberOfSections := 2
  const RowsPerSection := 1

  datatype CopingData = CopingData(recommend: seq<string>, tip: seq<string>)
  datatype CopingTabEntity = CopingTabEntity(category: string, prescription: CopingData)

  /** Outcome of the prescription request, as the completion handler sees it. */
  datatype NetworkResult<T> = Success(payload: Option<T>) | NetworkFail | OtherFailure

  /** Window geometry the content-cell height depends on. */
  datatype Geometry = Geometry(statusBarHeight: real, navigationBarHeight: real, screenHeight: real)

  /** What the content cell is filled with. */
  datatype ContentCellData = ContentCellData(category: string, data: CopingData, isOnlyCategory: bool)

  function Abs(x: real): real {
    if x < 0.0 then -x else x
  }

  /**
   * The pan decision: a vertical gesture (|vy| > |vx|) scrolls up when
   * moving up and dismisses when moving down; a horizontal one swipes to the
   * left-hand or right-hand tab.
   */
  function PanActionFor(vx: real, vy: real): (a: PanAction)
    ensures a.ScrollStarted? <==> Abs(vy) > Abs(vx) && vy < 0.0
    ensures a.ScrollStarted? ==> a.velocity == ScrollUpVelocity
    ensures a == Dismiss <==> Abs(vy) > Abs(vx) && vy > 0.0
    ensures a == Swipe(false) <==> Abs(vy) <= Abs(vx) && vx > 0.0
    ensures a == Swipe(true) <==> Abs(vy) <= Abs(vx) && vx < 0.0
    ensures a == NoAction <==> vx == 0.0 && vy == 0.0
  {
    var isVertical := Abs(vy) > Abs(vx);
    if isVertical && vy < 0.0 then ScrollStarted(ScrollUpVelocity)
    else if isVertical && vy > 0.0 then Dismiss
    else if !isVertical && vx > 0.0 then Swipe(false)
    else if !isVertical && vx < 0.0 then Swipe(true)
    else NoAction
  }

  /** The category row is short when there is a single category. */
  function CategoryRowHeight(categoryCount: nat): (h: real)
    ensures h == SingleCategoryRowHeight <==> categoryCount == 1
    ensures h == SingleCategoryRowHeight || h == CategoryRowHeightDefault
  {
    if categoryCount == 1 then SingleCategoryRowHeight else CategoryRowHeightDefault
  }

  class CopingTabScreen {
    var categoryNameList: seq<string>
    var copingDataList: seq<CopingData>
    var currentIdx: nat
    /** The fetched entities both lists were taken from. */
    ghost var entities: seq<CopingTabEntity>

    /** The i-th category name and the i-th prescription come from the same entity. */
    ghost predicate Valid()
      reads this
    {
      && |categoryNameList| == |entities|
      && |copingDataList| == |entities|
      && forall i :: 0 <= i < |entities| ==>
           categoryNameList[i] == entities[i].category && copingDataList[i] == entities[i].prescription
    }

    constructor ()
      ensures Valid()
      ensures categoryNameList == [] && copingDataList == [] && currentIdx == 0
    {
      categoryNameList := [];
      copingDataList := [];
      currentIdx := 0;
      entities := [];
    }

    /** The completion handler of the prescription request: only a decoded success changes the lists. */
    method HandlePrescriptionResult(result: NetworkResult<seq<CopingTabEntity>>)
      requires Valid()
      modifies this
      ensures Valid()
      ensures currentIdx == old(currentIdx)
      ensures result.Success? && result.payload.Some? ==> entities == result.payload.value
      ensures !(result.Success? && result.payload.Some?) ==>
        categoryNameList == old(categoryNameList) && copingDataList == old(copingDataList)
        && entities == old(entities)
    {
      match result {
        case Success(Some(data)) =>
          categoryNameList := seq(|data|, i requires 0 <= i < |data| => data[i].category);
          copingDataList := seq(|data|, i requires 0 <= i < |data| => data[i].prescription);
          entities := data;
        case _ =>
      }
    }

    /** The category cell's click handler. */
    method SelectCategory(idx: nat)
      requires Valid()
      modifies this
      ensures Valid()
      ensures currentIdx == idx
      ensures categoryNameList == old(categoryNameList) && copingDataList == old(copingDataList)
      ensures entities == old(entities)
    {
      currentIdx := idx;
    }

    /**
     * Height of the whole table: two headers, both tip lists of the current
     * category and two bottom margins, or 1000 when there is no current
     * category to measure.
     */
    function CopingTableViewHeight(listHeight: ListHeight): (h: real)
      reads this
      ensures copingDataList == [] || currentIdx >= |copingDataList| ==> h == FallbackTableHeight
      ensures currentIdx < |copingDataList| ==>
        h == 2.0 * HeaderHeight + 2.0 * BottomMargin
             + listHeight(copingDataList[currentIdx].recommend) + listHeight(copingDataList[currentIdx].tip)
    {
      if copingDataList == [] || !(|copingDataList| > currentIdx) then FallbackTableHeight
      else
        var cellHeight := listHeight(copingDataList[currentIdx].recommend) + listHeight(copingDataList[currentIdx].tip);
        HeaderHeight * 2.0 + cellHeight + BottomMargin * 2.0
    }

    /** The room left below the bars, the category row and the menu row. */
    function EstimatedMaximumHeight(g: Geometry): (room: real)
      reads this
      ensures room == g.screenHeight - g.statusBarHeight - g.navigationBarHeight
                      - CategoryRowHeight(|copingDataList|) - MenuCellHeight - BottomInset
    {
      var topElementsHeight := g.statusBarHeight + g.navigationBarHeight
                               + CategoryRowHeight(|copingDataList|) + MenuCellHeight;
      g.screenHeight - topElementsHeight - BottomInset
    }

    /** The content cell is as tall as the table, capped by the room on screen. */
    function ContentCellHeight(g: Geometry, listHeight: ListHeight): (h: real)
      reads this
      ensures h <= EstimatedMaximumHeight(g) && h <= CopingTableViewHeight(listHeight)
      ensures h == EstimatedMaximumHeight(g) || h == CopingTableViewHeight(listHeight)
    {
      var estimatedMaximumHeight := EstimatedMaximumHeight(g);
      var tableViewHeight := CopingTableViewHeight(listHeight);
      if estimatedMaximumHeight > tableViewHeight then tableViewHeight else estimatedMaximumHeight
    }

    /** Row heights: the category row in section 0, the capped content cell elsewhere. */
    function HeightForRow(section: int, g: Geometry, listHeight: ListHeight): (h: real)
      reads this
      ensures section == 0 ==> h == CategoryRowHeight(|copingDataList|)
      ensures section != 0 ==> h == ContentCellHeight(g, listHeight)
      ensures section != 0 ==> h <= EstimatedMaximumHeight(g) && h <= CopingTableViewHeight(listHeight)
    {
      if section == 0 then CategoryRowHeight(|copingDataList|) else ContentCellHeight(g, listHeight)
    }

    /** The content cell is filled only when the current index names a category. */
    function ContentCell(): (cell: Option<ContentCellData>)
      reads this
      requires Valid()
      ensures cell.Some? <==> currentIdx < |categoryNameList|
      ensures cell.Some? ==>
        cell.value.category == entities[currentIdx].category
        && cell.value.data == entities[currentIdx].prescription
        && (cell.value.isOnlyCategory <==> |entities| == 1)
    {
      if |categoryNameList| > currentIdx then
        Some(ContentCellData(categoryNameList[currentIdx], copingDataList[currentIdx], |copingDataList| == 1))
      else None
    }
  }

  /** Both places that size the category row use the same height. */
  lemma CategoryHeightSharedByBothSites(s: CopingTabScreen, g: Geometry, listHeight: ListHeight)
    ensures s.EstimatedMaximumHeight(g)
         == g.screenHeight - g.statusBarHeight - g.navigationBarHeight
            - s.HeightForRow(0, g, listHeight) - MenuCellHeight - BottomInset
  {
  }

  /** With a non-negative tip-list measure, the table is at least 356 points tall. */
  lemma TableHeightAtLeastChrome(s: CopingTabScreen, listHeight: ListHeight)
    requires forall l :: listHeight(l) >= 0.0
    ensures s.CopingTableViewHeight(listHeight) >= 2.0 * HeaderHeight + 2.0 * BottomMargin
  {
  }
}
