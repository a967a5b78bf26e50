# Store front-end widgets: paginator, card grid and card

A model of the three pieces of logic in the appGo store front-end's widgets:

- **Paginator** (`PaginationWidget`, module `Pagination`, `pagination.dfy`): the current
  page, the total number of pages and the page size, their clamping setters, the
  prev/next/page-number click handlers, the enabling of the prev/next buttons, and the
  page-number bar — a window of at most five numbered buttons around the current page,
  with page 1 and the last page always reachable and "..." labels where the window does
  not reach them. The window and the bar are pure functions (`Window`, `Render`); the
  widget is a class whose methods update its fields and return the signals they emit
  (`pageChanged`, `itemsPerPageChanged`) as a sequence of events. The bar is rebuilt by a
  loop method (`UpdatePageNumbers`) proved equal to `Render`.
- **Card grid** (`AppGridView`, module `Grid`, `grid.dfy`): an ordered list of cards
  (opaque ids), a column count that is always at least 1, the row-major placement loop
  (`PlaceCards`, proved equal to the closed form "card k at row k / cols, column
  k % cols"), and the column count derived from the viewport width on a resize
  (`FitColumns`). C++ `int` division truncates toward zero; it is written out as
  `TruncDiv` and proved to agree with Dafny's Euclidean division once the result is
  clamped to at least 1 (`FitColumnsFloor`).
- **Card** (`AppCard`, module `Card`, `card.dfy`): the installed and hovered flags, the
  action button's label, the single intent its click announces (start when installed,
  install otherwise; never uninstall), and the colours chosen from the two flags.

Qt signal connections are modelled as data: the paginator's methods return the events
they emit, and a card's action button holds the sequence of intents its click emits.
The viewport width and the scroll bar's width are parameters of `Resize`.

Behaviour worth knowing, all taken from the code:

- A fresh paginator has no page-number buttons at all: its constructor only sets the
  prev/next buttons' enabled state (both disabled on page 1 of 1) and the total label,
  and the bar is first built by the first real change of the current page or of the
  total (`PaginationWidget.constructor`).
- A fresh card's action button is not connected to anything; only `setInstalled`
  connects it (`AppCard.constructor`). The hosting window calls `setInstalled` on every
  card it creates (src/mainwindow.cpp:73, 93).
- `setItemsPerPage` never touches the current page or the total.
- Nothing connects the paginator to the grid: the grid lays out every card it holds. No
  code computes a per-page slice of the cards or derives the total from a card count.

## Model

| member | source | states |
|---|---|---|
| Pagination.ClampPage | src/widgets/paginationwidget.cpp:40-41 | with a total of at least 1 the page ends in 1..total; a page already in range is kept, one below 1 becomes 1, one above the total becomes the total |
| Pagination.Window | src/widgets/paginationwidget.cpp:158-164 | for 1 <= current <= total: 1 <= start <= current <= end <= total, and the window holds exactly min(maxVisible, total) pages |
| Pagination.WindowIsCentredRun | src/widgets/paginationwidget.cpp:158-164 | the window starts at max(1, min(current - maxVisible/2, total - min(maxVisible, total) + 1)): centred on the current page as far as the range 1..total allows |
| Pagination.Render | src/widgets/paginationwidget.cpp:177-212 | defines the bar: page 1 and a "..." before the window when needed, the window's buttons, a "..." and the last page after it when needed; RenderShape, RenderEnds, RenderIncreasing, RenderOneCurrent, RenderGaps, RenderPages and RenderEllipses state its properties |
| Pagination.NumberButton | src/widgets/paginationwidget.cpp:215-220 | defines a numbered button, flagged current exactly when its page is the current one (RenderFlags) |
| Pagination.RenderShape | src/widgets/paginationwidget.cpp:177-212 | position by position the bar is: page 1 and "..." before the window (each only when needed), the window's buttons in order, "..." and the last page after it (each only when needed) |
| Pagination.RenderEnds | src/widgets/paginationwidget.cpp:180-212 | the bar is never empty, starts with page 1 and ends with the last page |
| Pagination.RenderIncreasing | src/widgets/paginationwidget.cpp:180-212 | page numbers increase strictly from left to right |
| Pagination.RenderFlags | src/widgets/paginationwidget.cpp:215-220 | a button is flagged current exactly when it shows the current page |
| Pagination.RenderOneCurrent | src/widgets/paginationwidget.cpp:194-198 | the current page's button is in the bar, flagged, and no other widget is flagged current |
| Pagination.RenderGaps | src/widgets/paginationwidget.cpp:180-212 | neighbouring buttons show consecutive pages; every "..." stands between two buttons whose pages differ by at least 2 |
| Pagination.RenderPages | src/widgets/paginationwidget.cpp:180-212 | the pages shown are exactly page 1, the last page and every page of the window |
| Pagination.RenderEllipses | src/widgets/paginationwidget.cpp:185-207 | a "..." precedes the window iff it starts beyond page 2, and one follows it iff it ends before the last page but one |
| Pagination.Reflagged | src/widgets/paginationwidget.cpp:139-148 | the same widgets showing the same pages, every button flagged current exactly when it shows the current page; RenderFlagsStable and UpdateButtons state its properties |
| Pagination.RenderFlagsStable | src/widgets/paginationwidget.cpp:139-148 | re-setting the current flags of a freshly built bar changes nothing |
| Pagination.PaginationWidget.constructor | src/widgets/paginationwidget.cpp:5-17 | page 1 of 1, 10 items per page, window of 5, no page-number buttons, prev and next disabled; the invariant holds |
| Pagination.PaginationWidget.UpdateButtons | src/widgets/paginationwidget.cpp:133-149 | prev enabled iff current > 1, next enabled iff current < total, every button's current flag re-set from its page |
| Pagination.PaginationWidget.UpdatePageNumbers | src/widgets/paginationwidget.cpp:151-213 | the loop leaves the bar equal to Render(current, total, 5) |
| Pagination.PaginationWidget.SetCurrentPage | src/widgets/paginationwidget.cpp:38-49 | stores the clamped page; emits pageChanged(new page) and rebuilds the bar exactly when it differs; otherwise nothing changes and nothing is emitted; keeps 1 <= current <= total |
| Pagination.PaginationWidget.SetTotalPages | src/widgets/paginationwidget.cpp:25-36 | a total below 1 counts as 1; an unchanged total changes nothing; otherwise the current page drops to the new total if above it (emitting pageChanged), and the bar is rebuilt |
| Pagination.PaginationWidget.SetItemsPerPage | src/widgets/paginationwidget.cpp:51-57 | a positive, different count is stored and announced with itemsPerPageChanged; anything else is ignored; only the page size can change |
| Pagination.PaginationWidget.HandlePrevClicked | src/widgets/paginationwidget.cpp:59-64 | one page back with pageChanged and the bar rebuilt for the new page when current > 1, otherwise nothing changes |
| Pagination.PaginationWidget.HandleNextClicked | src/widgets/paginationwidget.cpp:66-71 | one page forward with pageChanged and the bar rebuilt for the new page when current < total, otherwise nothing changes |
| Pagination.PaginationWidget.HandlePageNumberClicked | src/widgets/paginationwidget.cpp:73-83 | clicking a numbered button makes its page current, emitting pageChanged and rebuilding the bar when that is a change; clicking the current page's own button or anything else changes nothing |
| Grid.TruncDiv | src/widgets/appgridview.cpp:101 | the C++ quotient: the largest multiple below a non-negative numerator, the smallest above a negative one |
| Grid.Placement | src/widgets/appgridview.cpp:82-91 | one cell per card, each keeping its card, in a column 0..cols-1, with row * cols + col == k for the k-th card; PlaceCards, PlacementRowMajor, PlacementDistinct and PlacementAppend state its properties |
| Grid.PlaceCards | src/widgets/appgridview.cpp:82-91 | the row/column counter loop places card k at row k / cols, column k % cols |
| Grid.PlacementRowMajor | src/widgets/appgridview.cpp:82-91 | a later card is in a later row, or in the same row further right |
| Grid.PlacementDistinct | src/widgets/appgridview.cpp:82-91 | every card keeps its id, lies in a column 0..cols-1, and no two cards share a cell |
| Grid.PlacementAppend | src/widgets/appgridview.cpp:17-24 | appending a card leaves every earlier card in its cell and puts the new one after them |
| Grid.AvailableWidth | src/widgets/appgridview.cpp:97 | defines the width left for cards: the viewport less two outer spacings and the scroll bar; FitColumnsFits and FitColumnsMonotone state what the column count does with it |
| Grid.FitColumns | src/widgets/appgridview.cpp:97-104 | the column count is at least 1 |
| Grid.FitColumnsFloor | src/widgets/appgridview.cpp:101-104 | with truncating or with Euclidean division the clamped count is the same |
| Grid.FitColumnsMonotone | src/widgets/appgridview.cpp:97-104 | a wider viewport never gives fewer columns |
| Grid.FitColumnsFits | src/widgets/appgridview.cpp:97-104 | more than one column only when cols*280 + (cols-1)*spacing fits in the available width; one more column never fits |
| Grid.AppGridView.constructor | src/widgets/appgridview.cpp:5-13 | 3 columns, spacing 20, no cards, empty layout |
| Grid.AppGridView.UpdateLayout | src/widgets/appgridview.cpp:74-92 | the layout becomes the row-major placement of all cards |
| Grid.AppGridView.AddAppCard | src/widgets/appgridview.cpp:17-24 | a null card changes nothing; any other card is appended, earlier cards keep their order and cells |
| Grid.AppGridView.ClearCards | src/widgets/appgridview.cpp:26-33 | every card leaves the layout and the list is empty |
| Grid.AppGridView.SetColumnsCount | src/widgets/appgridview.cpp:35-41 | only a positive, different count is stored (and the cards are placed again); the count stays at least 1 |
| Grid.AppGridView.CardsCount | src/widgets/appgridview.cpp:43-46 | the number of cards held |
| Grid.AppGridView.Resize | src/widgets/appgridview.cpp:94-110 | the column count becomes FitColumns of the new width; the cards are placed again exactly when that count differs from the old one |
| Card.StyleFor | src/widgets/appcard.cpp:138-141 | defines the colours: background and border from the hover flag, button colours from the installed flag; StyleDeterminesFlags states that they tell the four states apart |
| Card.ActionLabel | src/widgets/appcard.cpp:44 | defines the action button's label, start when installed and install otherwise; ActionDistinguishesStates states that the two differ |
| Card.ActionIntent | src/widgets/appcard.cpp:48-52 | defines the intent the button is connected to, start when installed and install otherwise; ActionDistinguishesStates states that it is never uninstall and differs between the states |
| Card.StyleDeterminesFlags | src/widgets/appcard.cpp:138-141 | the colours are a function of the two flags that tells them apart: the background follows hover only, the button colour follows installed only |
| Card.ActionDistinguishesStates | src/widgets/appcard.cpp:44-52 | the two install states have different labels and different intents, and neither intent is uninstall |
| Card.AppCard.constructor | src/widgets/appcard.cpp:7-18 | not installed, not hovered, labelled install, default name and description, action button not connected |
| Card.AppCard.UpdateStyle | src/widgets/appcard.cpp:115-144 | the colours become StyleFor(installed, hovered) |
| Card.AppCard.SetAppName | src/widgets/appcard.cpp:22-25 | the name is replaced |
| Card.AppCard.SetAppDescription | src/widgets/appcard.cpp:27-30 | the description is replaced |
| Card.AppCard.SetInstalled | src/widgets/appcard.cpp:41-55 | installed becomes b, the label is start/install accordingly, and the button triggers exactly the one intent for b (old connections dropped, so repeating the call changes nothing); hover is untouched |
| Card.AppCard.EnterEvent | src/widgets/appcard.cpp:57-62 | hovered becomes true, installed unchanged, colours follow |
| Card.AppCard.LeaveEvent | src/widgets/appcard.cpp:64-69 | hovered becomes false, installed unchanged, colours follow |
| Card.AppCard.ClickAction | src/widgets/appcard.cpp:47-52 | a click emits the connected intents: at most one, the one for the install state, never uninstall |

## Left out

- Style-sheet strings other than the four colours a card substitutes, fixed pixel sizes, margins and fonts: presentation only.
- The "共 N 页" total label that `updateButtons` sets (src/widgets/paginationwidget.cpp:137): text formatting only.
- The Qt layout surgery of `updatePageNumbers` (taking the old items out of the layout, the early return when the widget has no layout, which cannot happen after `setupUI`) and object lifetime (`qDeleteAll`, `deleteLater`, "..." labels that are never freed): the bar is modelled as the sequence of widgets it holds.
- `setAppIcon` (src/widgets/appcard.cpp:32-39): image loading and scaling in a foreign library.
- `connectCardSignals` (src/widgets/appgridview.cpp:112-134): it only re-emits each card's signals tagged with the card, and it names card signals the card's header does not declare.
- src/mainwindow.cpp is not part of this model: window and tab assembly and handlers that only log.
- The scroll bar's width is a parameter of `Resize`; the viewport width likewise.
- C++ `int` overflow: all integers are unbounded.
- Grid.AppGridView.AddAppCard: cards are taken to be distinct objects, so a card added twice would get two cells in the model; in Qt `addWidget` on a widget already in the layout moves it, leaving it only in its last cell. The hosting window creates a new card for every call (src/mainwindow.cpp:71-74, 91-94).
- The base-class `QScrollArea::resizeEvent` that `resizeEvent` calls first: toolkit behaviour.
