# HealthFoodMe presentation and session rules in Dafny

This project models the parts of the HealthFoodMe iOS client that are decision rules rather than UIKit wiring, and proves what they guarantee.

- **My-reviews feed** (`MyReview`, `my_review.dfy`):
  - the layout code of a review cell (image and/or text);
  - measuring a review line by line and folding it to three lines followed by the `  더보기` ("more") label;
  - the fold flag of each cell;
  - the label list and the per-row expand states, with in-place toggling;
  - the item count and the cell contents;
  - the cell-height rule.

  Text measurement is the oracle `measure: string -> real`. Every property holds for any such function.
- **Session holder** (`Session`, `session.dfy`): the `UserManager` singleton as a class. It has optional tokens, the current user and login flags, setters, a clear operation and derived getters. Each setter's contract states the whole new state through `Snapshot()`, so it is explicit that only its own field changes.
- **Review request mapping** (`ReviewRouting`, `review_router.dfy`): method, path, query parameters and header kind of the review route. The path is proved injective and invertible (`RestaurantIdOf`), and the query parameter is proved to name the same restaurant as the path.
- **Coping tab** (`CopingTab`, `coping_tab.dfy`):
  - the pan-gesture decision;
  - the category-row height;
  - the table height with its 1000-point fallback, and the cap on the content cell;
  - the fetched result filling two parallel lists;
  - the guarded content cell.

  A ghost list of the fetched entities ties the two lists together (`Valid()`).

`wrappers.dfy` holds the `Option` type that stands for Swift optionals.

Behaviour worth knowing, as the code has it:
- A missing access token does not mean logged out. `IsLogin` reads only the login status (UserManager.swift:29), and `ClearUserInform` leaves that status as it was. A cleared session can therefore still report itself logged in (`LoginSurvivesClear`).
- `cutLabelList` is appended to and never cleared, while rows are indexed from 0. A second assignment of the rows would therefore show the first batch's labels. The source assigns the rows once per screen load. `AssignReviewData` states the append exactly.

## Model

| member | source | states |
|---|---|---|
| MyReview.LayoutEnumValue | HealthFoodMe/HealthFoodMe/Presentation/Map/MyReviewScene/VC/MyReviewVC.swift:93-107 | code is 0..3; "has image" (codes 0, 1) iff the URL list is present and non-empty; "has contents" (codes 0, 2) iff the text is present, even when empty |
| MyReview.ContainsPhoto | HealthFoodMe/HealthFoodMe/Presentation/Map/MyReviewScene/VC/MyReviewVC.swift:277 | the size computation's photo flag is true iff the URL list is missing or non-empty |
| MyReview.ContainsPhotoDisagreesOnMissingList | HealthFoodMe/HealthFoodMe/Presentation/Map/MyReviewScene/VC/MyReviewVC.swift:277 | the photo flag and the layout's "has image" differ exactly when the URL list is missing; then the photo strip is reserved although the layout shows no image |
| MyReview.LinesUpTo | HealthFoodMe/HealthFoodMe/Presentation/Map/MyReviewScene/VC/MyReviewVC.swift:144-149 | line count after j characters: one more exactly at each step where the measured height differs from the previously recorded one (0 at the start); never more than j |
| MyReview.FoldPoint | HealthFoodMe/HealthFoodMe/Presentation/Map/MyReviewScene/VC/MyReviewVC.swift:150-152 | the first prefix length at which the count is 4, or the whole length; no earlier prefix reaches 4 |
| MyReview.LinesStayBelowFour | HealthFoodMe/HealthFoodMe/Presentation/Map/MyReviewScene/VC/MyReviewVC.swift:144-153 | if no prefix shorter than k counts 4 lines, all of them count fewer than 4 and the k-character prefix counts at most 4 |
| MyReview.MeasuredText | HealthFoodMe/HealthFoodMe/Presentation/Map/MyReviewScene/VC/MyReviewVC.swift:139-155 | the measured text is a prefix of the review, its line count is at most 4 and matches LinesUpTo; with fewer than 4 lines it is the whole review; every shorter prefix has fewer than 4 lines |
| MyReview.CalculateTextInSize | HealthFoodMe/HealthFoodMe/Presentation/Map/MyReviewScene/VC/MyReviewVC.swift:139-155 | the character-by-character loop with its early return at the fourth line returns exactly MeasuredText |
| MyReview.FoldedContents | HealthFoodMe/HealthFoodMe/Presentation/Map/MyReviewScene/VC/MyReviewVC.swift:157-178 | the folded text equals the review iff it measures fewer than 4 lines; otherwise it is a proper prefix of the review followed by `  더보기`, or empty |
| MyReview.FoldedContentsOutcomes | HealthFoodMe/HealthFoodMe/Presentation/Map/MyReviewScene/VC/MyReviewVC.swift:161-174 | for every review and measure: with four lines and a prefix of fewer than 8 characters the folded text is empty, with no label; with 8 or more it is the prefix minus its last 8 characters followed by `  더보기`, 3 characters shorter than the prefix |
| MyReview.ShortFourLinePrefixFoldsToEmpty | HealthFoodMe/HealthFoodMe/Presentation/Map/MyReviewScene/VC/MyReviewVC.swift:161-174 | the empty outcome can happen: under a measure where every character starts a new line, `abcd` folds to the empty text |
| MyReview.CutReviewContents | HealthFoodMe/HealthFoodMe/Presentation/Map/MyReviewScene/VC/MyReviewVC.swift:157-178 | the pop loop over a copy of the prefix returns exactly FoldedContents: prefix minus its last 8 characters plus the label, all popped when shorter than 8 |
| MyReview.CalculateReviewCellHeight | HealthFoodMe/HealthFoodMe/Presentation/Map/MyReviewScene/VC/MyReviewVC.swift:285-319 | height is 95 + photo strip (width·105/375 + 12) + text + 28, where the text counts in full when expanded and as min(height, 51) when collapsed; a collapsed text of 51 points or more adds exactly 51 + 28 |
| MyReview.ExpandingNeverShrinks | HealthFoodMe/HealthFoodMe/Presentation/Map/MyReviewScene/VC/MyReviewVC.swift:307-316 | an expanded row is never shorter than the collapsed one, and they are equal for a text under 51 points |
| MyReview.CutLabels | HealthFoodMe/HealthFoodMe/Presentation/Map/MyReviewScene/VC/MyReviewVC.swift:109-118 | one label per row in order: empty for a review without text, its folded text otherwise |
| MyReview.ViewModelFor | HealthFoodMe/HealthFoodMe/Presentation/Map/MyReviewScene/VC/MyReviewVC.swift:131-133 | the cell built for a review keeps that review and is folded iff the height of its text (or "") exceeds 55 |
| MyReview.Collapsed | HealthFoodMe/HealthFoodMe/Presentation/Map/MyReviewScene/VC/MyReviewVC.swift:121 | n expand states, all false |
| MyReview.MyReviewScreen.constructor | HealthFoodMe/HealthFoodMe/Presentation/Map/MyReviewScene/VC/MyReviewVC.swift:21-28 | rows, labels and expand states start empty |
| MyReview.MyReviewScreen.FetchCutStringList | HealthFoodMe/HealthFoodMe/Presentation/Map/MyReviewScene/VC/MyReviewVC.swift:109-118 | appends CutLabels of the rows after the existing labels and changes nothing else |
| MyReview.MyReviewScreen.FetchExpendStateList | HealthFoodMe/HealthFoodMe/Presentation/Map/MyReviewScene/VC/MyReviewVC.swift:120-122 | expand states become one false per row; rows and labels unchanged |
| MyReview.MyReviewScreen.AssignReviewData | HealthFoodMe/HealthFoodMe/Presentation/Map/MyReviewScene/VC/MyReviewVC.swift:21-25 | the rows become the new data; the label list grows by exactly one label per new row; every row is collapsed |
| MyReview.MyReviewScreen.ProcessViewModel | HealthFoodMe/HealthFoodMe/Presentation/Map/MyReviewScene/VC/MyReviewVC.swift:128-137 | exactly one row per server review, in order, folded iff the height of its text (or "") exceeds 55; then the observer's effects |
| MyReview.MyReviewScreen.ToggleExpand | HealthFoodMe/HealthFoodMe/Presentation/Map/MyReviewScene/VC/MyReviewVC.swift:239-241 | flips the clicked row's expand state, leaves every other state, the rows and the labels unchanged |
| MyReview.MyReviewScreen.NumberOfItems | HealthFoodMe/HealthFoodMe/Presentation/Map/MyReviewScene/VC/MyReviewVC.swift:222-229 | 1 (the empty-view cell) when there are no rows, the row count otherwise |
| MyReview.MyReviewScreen.CellForItem | HealthFoodMe/HealthFoodMe/Presentation/Map/MyReviewScene/VC/MyReviewVC.swift:231-264 | the empty cell iff there are no rows; otherwise the row's layout code and fold flag; the cut label when folded and collapsed, the full text (or "") otherwise |
| MyReview.MyReviewScreen.ItemHeight | HealthFoodMe/HealthFoodMe/Presentation/Map/MyReviewScene/VC/MyReviewVC.swift:268-283 | 200 points for the empty view; otherwise the cell-height rule with the row's photo flag, text and expand state |
| MyReview.CollapsedRowShowsFoldedText | HealthFoodMe/HealthFoodMe/Presentation/Map/MyReviewScene/VC/MyReviewVC.swift:244-252 | when the labels belong to the current rows, a folded collapsed row shows FoldedContents of its text |
| Session.UserManager.constructor | HealthFoodMe/HealthFoodMe/Application/Manager/User/UserManager.swift:14-33 | persisted fields as stored, no user, no login status, so not logged in |
| Session.UserManager.HasAccessToken | HealthFoodMe/HealthFoodMe/Application/Manager/User/UserManager.swift:24 | true iff an access token is stored |
| Session.UserManager.HasRefreshToken | HealthFoodMe/HealthFoodMe/Application/Manager/User/UserManager.swift:25 | true iff a refresh token is stored |
| Session.UserManager.IsAppleLoginned | HealthFoodMe/HealthFoodMe/Application/Manager/User/UserManager.swift:26-28 | defined only once the social type is set (force unwrap); returns the stored flag |
| Session.UserManager.IsLogin | HealthFoodMe/HealthFoodMe/Application/Manager/User/UserManager.swift:29 | true iff a login status was recorded and it is true |
| Session.UserManager.GetSocialToken | HealthFoodMe/HealthFoodMe/Application/Manager/User/UserManager.swift:30 | the stored social token, or "" when absent |
| Session.UserManager.GetAccessToken | HealthFoodMe/HealthFoodMe/Application/Manager/User/UserManager.swift:31 | the stored access token, or "" when absent |
| Session.UserManager.UpdateAuthToken | HealthFoodMe/HealthFoodMe/Application/Manager/User/UserManager.swift:35-38 | sets both tokens, so both "has" getters hold; every other field unchanged |
| Session.UserManager.SetCurrentUser | HealthFoodMe/HealthFoodMe/Application/Manager/User/UserManager.swift:40-42 | writes only the current user |
| Session.UserManager.SetLoginStatus | HealthFoodMe/HealthFoodMe/Application/Manager/User/UserManager.swift:44-46 | writes only the login status; IsLogin then equals the value passed |
| Session.UserManager.SetSocialType | HealthFoodMe/HealthFoodMe/Application/Manager/User/UserManager.swift:48-50 | writes only the social type, which makes IsAppleLoginned defined |
| Session.UserManager.SetUserId | HealthFoodMe/HealthFoodMe/Application/Manager/User/UserManager.swift:52-54 | writes only the user identifier |
| Session.UserManager.SetSocialToken | HealthFoodMe/HealthFoodMe/Application/Manager/User/UserManager.swift:56-58 | writes only the social token |
| Session.UserManager.ClearUserInform | HealthFoodMe/HealthFoodMe/Application/Manager/User/UserManager.swift:60-64 | clears access token, refresh token and user; social token, identifier, social type and login status unchanged, so IsLogin is unchanged |
| Session.UserManager.ReissuanceAccessToken | HealthFoodMe/HealthFoodMe/Application/Manager/User/UserManager.swift:66-71 | changes no state on any path |
| Session.LoginSurvivesClear | HealthFoodMe/HealthFoodMe/Application/Manager/User/UserManager.swift:60-64 | after login and a clear, the session reports logged in and has no access token |
| ReviewRouting.Method | HealthFoodMe/HealthFoodMe/Data/Network/Routers/ReviewRouter.swift:16-21 | every route is a GET |
| ReviewRouting.Path | HealthFoodMe/HealthFoodMe/Data/Network/Routers/ReviewRouter.swift:23-30 | the path is `review/restaurant/`, then the id, then `/`, by length and by each segment |
| ReviewRouting.RestaurantIdOf | HealthFoodMe/HealthFoodMe/Data/Network/Routers/ReviewRouter.swift:25-26 | inverse of the path: the id between prefix and trailing slash, when the path has that shape |
| ReviewRouting.PathRoundTrip | HealthFoodMe/HealthFoodMe/Data/Network/Routers/ReviewRouter.swift:25-26 | reading the id back from a route's path gives the route's id |
| ReviewRouting.PathFromRestaurantId | HealthFoodMe/HealthFoodMe/Data/Network/Routers/ReviewRouter.swift:25-26 | every path of that shape is the path of the id read from it |
| ReviewRouting.PathInjective | HealthFoodMe/HealthFoodMe/Data/Network/Routers/ReviewRouter.swift:25-26 | distinct restaurant ids give distinct paths |
| ReviewRouting.Parameters | HealthFoodMe/HealthFoodMe/Data/Network/Routers/ReviewRouter.swift:32-42 | a query map whose only key is `restaurantId`, bound to the route's id |
| ReviewRouting.ParametersAgreeWithPath | HealthFoodMe/HealthFoodMe/Data/Network/Routers/ReviewRouter.swift:25-38 | the query parameter names the same restaurant as the path |
| ReviewRouting.Header | HealthFoodMe/HealthFoodMe/Data/Network/Routers/ReviewRouter.swift:44-49 | every route sends the access token |
| CopingTab.PanActionFor | HealthFoodMe/HealthFoodMe/Presentation/Detail/CopingTabScene/VC/CopingTabVC.swift:114-131 | vertical (\|vy\| > \|vx\|) and up gives scroll-up at velocity -10; vertical and down gives dismiss; horizontal and vx > 0 gives swipe with isRight false; vx < 0 gives isRight true; each an iff; exactly one outcome, and none iff vx = vy = 0 |
| CopingTab.CategoryRowHeight | HealthFoodMe/HealthFoodMe/Presentation/Detail/CopingTabScene/VC/CopingTabVC.swift:145 | 20 iff there is exactly one category, 72 otherwise |
| CopingTab.CopingTabScreen.constructor | HealthFoodMe/HealthFoodMe/Presentation/Detail/CopingTabScene/VC/CopingTabVC.swift:26-28 | both lists empty, index 0, invariant holds |
| CopingTab.CopingTabScreen.HandlePrescriptionResult | HealthFoodMe/HealthFoodMe/Presentation/Detail/CopingTabScene/VC/CopingTabVC.swift:187-201 | on a decoded success, both lists come from the fetched entities, with equal length and the i-th name and prescription from the same entity; on any other outcome nothing changes |
| CopingTab.CopingTabScreen.SelectCategory | HealthFoodMe/HealthFoodMe/Presentation/Detail/CopingTabScene/VC/CopingTabVC.swift:238-241 | sets the current index and changes nothing else |
| CopingTab.CopingTabScreen.CopingTableViewHeight | HealthFoodMe/HealthFoodMe/Presentation/Detail/CopingTabScene/VC/CopingTabVC.swift:161-181 | 1000 when the list is empty or the index is out of range; otherwise 2·126 + 2·52 + the two tip-list heights |
| CopingTab.CopingTabScreen.EstimatedMaximumHeight | HealthFoodMe/HealthFoodMe/Presentation/Detail/CopingTabScene/VC/CopingTabVC.swift:138-151 | the room on screen: screen height minus status bar, navigation bar, category-row height, the 44-point menu row and a 68-point inset |
| CopingTab.CopingTabScreen.ContentCellHeight | HealthFoodMe/HealthFoodMe/Presentation/Detail/CopingTabScene/VC/CopingTabVC.swift:136-159 | the minimum of the room on screen and the table height |
| CopingTab.CopingTabScreen.HeightForRow | HealthFoodMe/HealthFoodMe/Presentation/Detail/CopingTabScene/VC/CopingTabVC.swift:206-212 | section 0 gets the category-row height; every other section gets exactly the content-cell height, the minimum of the screen room and the table height |
| CopingTab.CopingTabScreen.ContentCell | HealthFoodMe/HealthFoodMe/Presentation/Detail/CopingTabScene/VC/CopingTabVC.swift:245-251 | filled iff the index is below the number of categories; then name and data come from the same fetched entity, and "only category" iff there is one entity |
| CopingTab.CategoryHeightSharedByBothSites | HealthFoodMe/HealthFoodMe/Presentation/Detail/CopingTabScene/VC/CopingTabVC.swift:206-208 | the screen-room computation subtracts the same category-row height that section 0 is given |
| CopingTab.TableHeightAtLeastChrome | HealthFoodMe/HealthFoodMe/Presentation/Detail/CopingTabScene/VC/CopingTabVC.swift:161-181 | with non-negative tip-list heights, the table is at least 2·126 + 2·52 points tall |

The table always has `NumberOfSections` = 2 sections of `RowsPerSection` = 1 row each (CopingTabVC.swift:226-232). These are constants in `CopingTab`.

## Left out

- Text measurement in `calculateReviewHeight` is not modelled. It builds a `UITextView` at the screen width minus 40 with a 12-point font. The model takes it as the parameter `measure`.
- Screen width, screen height, status-bar height and navigation-bar height are parameters: `screenWidth`, and `Geometry` for the coping tab.
- `CGFloat` arithmetic is modelled as exact `real` arithmetic. The model has no rounding and no NaN. With a NaN velocity every comparison in the pan switch is false, which the model cannot express.
- A Swift `Character` is a grapheme cluster. The model's `char` is a single code point, so the loops count code points.
- Networking is not modelled: `requestReviewListWithAPI`, `RestaurantService.getMenuPrescription`, `fetchData`, and all console output: the failure log in `requestReviewListWithAPI` (MyReviewVC.swift:202), the height trace in `calculateContentCellHeight` (CopingTabVC.swift:153) and the printed request result in `getMenuPrescription` (CopingTabVC.swift:189). The prescription completion handler is modelled as `HandlePrescriptionResult` over `NetworkResult`. That type has only the outcomes the handler distinguishes, because the real result enum is not part of this model.
- The review list fetch, which fills `reviewServerData` before calling `processViewModel`, is not modelled beyond `ProcessViewModel`.
- RxSwift bindings, gesture-recognizer wiring, NotificationCenter observers and the delegate calls a pan triggers are not modelled. Only the decision `PanActionFor` is kept.
- UIKit work is not modelled: cell registration and dequeueing, SnapKit layout, `reloadData`, the separator visibility, and the `setData`/`setLayout` calls. `CellForItem` records only what a cell is configured with.
- `UserDefaultWrapper` persistence is not modelled. The stored values are the constructor's parameters, and writes go only to the in-memory fields. The singleton `shared` is one `UserManager` object.
- `BaseRouter`, Alamofire request encoding, `HTTPMethod`, `HeaderType` and `RequestParams` are not part of this model. The datatypes here carry a few extra cases so that "always GET" and "always with token" are not vacuous. Query values are strings, where the source allows `Any`.
- `CopingCellCalculator.calculateCellHeight` is not modelled. It is the parameter `listHeight`, assumed non-negative only where a lemma says so.
- Out-of-range indexing, which traps in Swift, is a precondition instead: `ToggleExpand` requires the clicked index to be in range, and `CellForItem` and `ItemHeight` require a row below the item count. The category index is a natural number.
- `MyReview` keeps only the image-URL list and the text of a review. The other review fields, and the `User` fields other than its identifier, are not part of this model.
