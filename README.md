# Uniswap V3 positions view: fetch validation and pagination

This project models the state machine behind the Uniswap V3 liquidity-positions
page of sl-lppm (`pages/lppositionV3.js`), and proves properties of it.

The page asks a backend for the position NFTs of an address on the connected
chain. It then shows them ten at a time behind a "Show more" button.

## What is modelled

The component's state is the class `PositionsView.View`:

- `nfts`: the fetched list (`NFTs`). It is `None` when a response carried no `result`.
- `displayNfts`: the part of the list on screen (`displayNFTs`).
- `page`, `showingAddress` and `loading`.
- `globalUserAddress`: the module-level override that the view writes.
- A ghost log of the notifications dispatched, each with its kind, message and title.

Its handlers are methods:

- `FetchData`, which hands the request to `RequestPositions`;
- `HandleSettingDisplayNfts`;
- `HandleShowMoreAction`;
- `ResetUI`;
- `OnOwnWalletButtonClick`;
- the two effects. `DisplayEffect` runs after `NFTs` or `page` changed, and `AccountChainEffect` runs when the account or the chain changed.

React runs the display effect only when one of its dependencies changed. `Fetch` and `ShowMore` make that call explicit: `Fetch` is fetchData followed by the effect when the list was replaced, and `ShowMore` is the button followed by the effect. The awaited network response is a parameter of type `PositionData.Response`:

- `Threw`: an exception;
- `Received(None)`: `result` is absent;
- `Received(Some([]))`: `result` is empty;
- `Received(Some(items))`: `result` is non-empty.

Each handler runs to completion.

### Modules

- `PositionData`: the datatypes.
- `JsText`: `toLowerCase` on ASCII letters, and `trim` with the exact ECMAScript white-space set, with their lemmas.
- `Chains`: the two chain maps and the request path.
- `Pagination`: the slice arithmetic as pure functions.
  - `Window(s, lo, hi)` is pages `lo+1 .. hi` of `s`, clipped as `Array.prototype.slice` clips them.
  - `Reconcile` is one run of handleSettingDisplayNFTs.
  - `ShownAfter` is a run of reconciliations from page 1.
- `PositionsView`: the routing of fetchData (`Route`), what a fetch leaves of the session (`AfterFetch`), and the class.

### The invariant

The ghost field `View.firstPage` records where the current list started on screen. Between events the view is `Settled()`: the display is exactly `Window(list, firstPage, page)`.

A raw handler leaves the view `Pending()`, with one page still missing. The display effect restores `Settled()`.

Because resetUI does not reset `page`, a list fetched while on page 3 starts at its third page: `firstPage` becomes `page - 1`. `Pagination.RefetchShowsOnlyCurrentPage` shows this.

### Behaviours kept as the code has them

- The same-address skip compares the untrimmed input with the stored, trimmed address, ignoring case. It never looks at the chain.
  - An address with no white space at its ends is skipped when resubmitted (`RefetchOfShownAddressSkipped`).
  - The same address with leading white space is fetched again (`PaddedRefetchNotSkipped`).
- `showingAddress` and the override are set before the chain check, so a fetch on an unsupported chain still records them.
  - The account/chain effect then always fetches the stored override.
  - So after any fetch that replaced the list, a change of account or chain routes to the skip (`ChainChangeAfterFetchSkipped`).
- A response without `result` is stored as `None`, which the display effect ignores.
- Reconciliation is not idempotent: run twice on one page, it shows that page twice (`ReconcileNotIdempotent`). The code relies on React running the effect only when `NFTs` or `page` changed. The model therefore runs it after a fetch only when the list was replaced.

## Model

| member | source | states |
|---|---|---|
| Chains.SupportedChainsAre | pages/lppositionV3.js:178-182 | the chain guard admits exactly `0x1` and `0x89` |
| Chains.ChainLabel | pages/lppositionV3.js:207-209 | the chain named in the empty-result warning: ethereum, polygon, or the raw id otherwise |
| Chains.TokenAddress | pages/lppositionV3.js:61-63 | the contract in the request is the position manager on every chain |
| JsText.LowerChar | pages/lppositionV3.js:166 | ASCII capitals map to the letter 32 code points up; every other character is kept |
| JsText.Lower | pages/lppositionV3.js:166 | lower-casing keeps the length |
| JsText.LowerAt | pages/lppositionV3.js:169 | lower-casing maps each character on its own, in place |
| JsText.LowerIdempotent | pages/lppositionV3.js:166 | lower-casing twice is lower-casing once |
| JsText.LowerIsLower | pages/lppositionV3.js:169 | the result of lower-casing is left alone by lower-casing, character by character |
| JsText.LowerKeepsLower | pages/lppositionV3.js:169 | text already lower-case is unchanged by lower-casing |
| JsText.LowerCharKeepsWhitespace | pages/lppositionV3.js:169 | lower-casing neither creates nor removes white space |
| JsText.TrimStartSpec | pages/lppositionV3.js:169 | trimming the start leaves a suffix beginning with non-white space, and removes only white space |
| JsText.TrimEndSpec | pages/lppositionV3.js:169 | trimming the end leaves a prefix ending in non-white space, and removes only white space |
| JsText.TrimSpec | pages/lppositionV3.js:169 | trim never lengthens; the result is a segment of the input; it has white space at neither end; it is empty exactly when the input is all white space |
| JsText.TrimKeepsTrimmed | pages/lppositionV3.js:169 | text with no white space at its ends is unchanged by trim |
| JsText.TrimIdempotent | pages/lppositionV3.js:169 | trimming twice is trimming once |
| JsText.TrimKeepsLower | pages/lppositionV3.js:169 | trimming lower-case text keeps it lower-case |
| JsText.NormalizeShortens | pages/lppositionV3.js:169 | the stored form of an address is never longer than the input, so a valid address is non-empty |
| JsText.NormalizeIdempotent | pages/lppositionV3.js:169 | normalising a stored address gives it back |
| Pagination.Window | pages/lppositionV3.js:90 | a clipped slice is no longer than the list or than its pages; an empty page range gives nothing; its exact length |
| Pagination.WindowFromStart | pages/lppositionV3.js:86-91 | the first `hi` pages are the prefix of length `min(hi*10, len)` |
| Pagination.WindowSplit | pages/lppositionV3.js:88-91 | adjacent page ranges concatenate |
| Pagination.ReconcileSpec | pages/lppositionV3.js:84-93 | earlier display kept as a prefix; at most 10 added; no-op when the display is at least as long as the list; otherwise exactly the slice of page `page` is appended |
| Pagination.ReconcileSettles | pages/lppositionV3.js:84-93 | if the display holds pages up to `page-1`, reconciling on `page` makes it hold pages up to `page` |
| Pagination.ShownAfterIsWindow | pages/lppositionV3.js:84-98 | from an empty display on page 1, after k show-mores the display is the first k+1 pages |
| Pagination.ShownAfterIsPrefix | pages/lppositionV3.js:84-98 | that display is the prefix of length `min((k+1)*10, len)`: never longer than the list |
| Pagination.TwentyFiveNfts | pages/lppositionV3.js:86-91 | with 25 NFTs the display grows to 10, 20, then 25, and ends as the whole list |
| Pagination.ReconcileNotIdempotent | pages/lppositionV3.js:259-264 | reconciling twice on page 1 shows the first page twice |
| Pagination.RefetchShowsOnlyCurrentPage | pages/lppositionV3.js:154-158 | a list fetched with the page counter past 1 is shown from that page only, and is not a prefix of the list |
| PositionsView.Route | pages/lppositionV3.js:161-190 | missing address exactly when absent or empty; skip exactly when present and equal to the shown address ignoring case; the list is replaced exactly when the address is present, non-empty, differs from the shown one ignoring case and is 42 long once normalised; a request exactly then and on a supported chain |
| PositionsView.RequestedPath | pages/lppositionV3.js:193-195 | a request goes only to Ethereum or Polygon, for `/api/lpV3/<normalised address>/<position manager>/<chain id>` |
| PositionsView.RefetchOfShownAddressSkipped | pages/lppositionV3.js:166-167 | resubmitting the shown address, in any case and on any chain, is skipped when it has no white space at its ends |
| PositionsView.PaddedRefetchNotSkipped | pages/lppositionV3.js:166-169 | the same address with leading white space is not skipped |
| PositionsView.NewAddressNotSkipped | pages/lppositionV3.js:166-169 | an address whose stored form differs from the shown one is never skipped |
| PositionsView.ChainChangeAfterFetchSkipped | pages/lppositionV3.js:267-282 | after a fetch that replaced the list, the account/chain effect routes to the skip for any account and chain |
| PositionsView.SkipsKeepSession | pages/lppositionV3.js:162-173 | the validation paths keep the list and the shown address; the skip keeps the whole session |
| PositionsView.FetchNeverRaisesLoading | pages/lppositionV3.js:161-221 | fetchData never turns `loading` on once it completes; it is off after a missing address and after every list replacement |
| PositionsView.View.constructor | pages/lppositionV3.js:24-42 | initial state: empty lists, page 1, nothing shown, not loading, no notifications; the display invariant holds |
| PositionsView.View.HandleSettingDisplayNfts | pages/lppositionV3.js:84-93 | the display becomes the reconciliation of the old display on the current page, and the invariant is restored |
| PositionsView.View.DisplayEffect | pages/lppositionV3.js:259-264 | skipped while the list is absent or empty, otherwise reconciles; restores the invariant |
| PositionsView.View.HandleShowMoreAction | pages/lppositionV3.js:96-98 | the page grows by one and the view awaits the display effect |
| PositionsView.View.ResetUI | pages/lppositionV3.js:154-158 | both lists emptied and loading off; the page is kept, so the next list is shown from the current page |
| PositionsView.View.FetchData | pages/lppositionV3.js:161-221 | returns the route; the session becomes `AfterFetch` of the old one; the override is set exactly when the list is replaced; the error and skip paths leave both lists and the page alone |
| PositionsView.View.RequestPositions | pages/lppositionV3.js:177-220 | unsupported chain: error and empty list; otherwise the list and notices decided by the response; the display is empty either way |
| PositionsView.View.Fetch | pages/lppositionV3.js:161-221 | fetchData then the display effect: keeps the invariant; after a replacement the display is the current page of the new list, the first ten on page 1 |
| PositionsView.View.ShowMore | pages/lppositionV3.js:96-98 | show more then the display effect: page plus one, the next slice appended, the display a prefix while the list started on page 1 |
| PositionsView.View.OnOwnWalletButtonClick | pages/lppositionV3.js:101-105 | clears the override, then fetches the account |
| PositionsView.View.AccountChainEffect | pages/lppositionV3.js:267-282 | fetches the override when set and non-empty, else the account; does nothing and changes nothing when neither exists |

## Left out

- Rendering: the JSX and the web3uikit widgets, `getDisplayNFTs`, `getToolTip`, `getButton`, the loading spinner and the OpenSea link. They are presentation through a library whose code is not part of this model.
- Network I/O: `fetch` and `response.json()` (pages/lppositionV3.js:193-196) are replaced by the `response` parameter. A `null` body, whose `data.result` throws, is folded into `Threw`.
- Async timing: React's batching, and the race between overlapping fetches. Each handler is atomic.
- The callers' `setLoading(true)` after fetchData returns (pages/lppositionV3.js:104, 277, 280, 367) is timing. It is not modelled, so the model does not show that this call forces `loading` to true after every path that issues no request.
- The modal: `onInputChange`, the visibility toggle, and the modal's `onOk`. `onOk` is fetchData on the typed text, i.e. `View.Fetch`.
- The second chain check after the response (pages/lppositionV3.js:197-203) is not modelled. `chainId` there is the same closure value as at the first check, so the branch cannot be taken.
- `JSON.parse` of NFT metadata (pages/lppositionV3.js:250) is a foreign call. Metadata is kept as opaque text.
- `globalUserAddress` is an imported binding (pages/lppositionV3.js:3). It is modelled as an ordinary field, without module read-only semantics. Its initial value is a parameter of the constructor.
- JsText.LowerChar: maps only the ASCII capitals. `toLowerCase` also maps non-ASCII letters, and for a few of them changes the length. So the model can differ from the code only for addresses containing such letters, and those are not hexadecimal addresses.
- Strings are sequences of Unicode code points, not UTF-16 code units. Lengths can therefore differ from JavaScript's for characters outside the Basic Multilingual Plane.
- Chain ids such as `toString` that JavaScript would find on `Object.prototype` are treated as absent from the chain maps.
- PositionsView.View.HandleSettingDisplayNfts: requires the list to be present. Its only caller, the display effect, checks that first.
- pages/lppositionV2.js, components/Mainui.js and pages/api/lpV2/[...slug].js are not part of this model. They hold a hard-coded fetch, rendering and an API proxy.
