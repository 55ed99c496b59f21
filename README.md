# Gift-card shop: cart and wallet bookkeeping in Dafny

This project models the bookkeeping core of a demonstration gift-card shop
(Apple, PSN and Google Play cards sold in CFA francs). The shop keeps two
documents in the browser's durable key/value storage:

- the **cart**, a sequence of lines `{id, brand, amount, unitPrice, qty}`
  keyed by `(id, amount)`;
- the **wallet**, a sequence of vouchers
  `{id, brand, amount, maskedCode, fullCode, createdAt}`, newest first.

Modules, one per concern:

- `Storage` (`storage.dfy`) holds the persisted-state cell's load-with-fallback
  and its write to storage, generic in the document type.
- `CartManager` (`cart.dfy`) holds the catalogue (`Products`) and the amount
  chosen per product. It has `findIndex` on the key and the merge-or-append update run by
  the add button. It also has the two reductions (the price total and the
  badge's item count) and the lemmas about any sequence of adds.
- `Attribution` (`attribution.dfy`) holds masking, synthesised `SIM-` codes,
  and the building of one wallet entry per cart line.
- `ShopState` (`shop.dfy`) holds the class `Shop`. Its fields are the cart, the
  wallet, the storage map, the drop-down selections and the current route.
  Its methods are the two write-through setters, the add button, attribution
  and the payment-success handler. Its invariant `Valid()` says that a page
  mounted now would load exactly the cart and wallet held in memory.

Randomness and the clock are inputs, one value per cart line:
- `digits` stands for the base-36 digits from `Math.random()`.
- `ids` stands for the entry ids.
- `now`, a single value, stands for the timestamp.

The storage is a map from key to `Raw`. `Raw` is the empty text, a text that
`JSON.parse` rejects, or the serialisation of a document. The JSON round trip
is taken to be the identity.

The model follows the code as written, including where it does less than a full gift-card shop would:

- One wallet entry is created per cart LINE, not per unit of `qty`.
  `Attribution.EntriesPerLine` proves how the two counts compare.
- Codes are always synthesised (`SIM-` plus upper-cased base-36 digits).
  There is no code pool, no import and no reveal or `revealedAt`.
- `fullCode` is stored in the wallet document and kept on load.
- The keys are `gc_demo_cart` and `gc_demo_wallet` (src/pages/Checkout.js:7-8).
  The storefront page imports its keys from `src/lib/storage`, which is not
  part of this model. The model takes them to be the same keys.

## Model

| member | source | states |
|---|---|---|
| `Storage.Load` | src/App.js:13-20 | a missing key, an empty stored text or an unparsable text yields the fallback; otherwise the stored document |
| `Storage.Save` | src/App.js:24 | the setter's write replaces the document under its key and leaves every other key as it was |
| `Storage.LoadAfterSave` | src/App.js:21-25 | write-through: loading a key just saved gives the saved value; loading another key gives what it gave before |
| `CartManager.CatalogueShape` | src/App.js:6-10 | the catalogue's product ids are distinct and every product offers at least one face value, so `priceOptions[0]` exists |
| `CartManager.ChosenAmount` | src/App.js:126 | the amount added is the product's selected value, or its first face value when nothing (or the falsy 0) is selected |
| `CartManager.ChosenAmountOffered` | src/App.js:177-189 | when selections come only from the drop-downs, the amount added for a catalogue product is one of its face values |
| `CartManager.FindLine` | src/App.js:128 | the first index whose line has the key, or -1 exactly when no line has it |
| `CartManager.AddLine` | src/App.js:127-144 | an existing key keeps the length: only that line changes, and only its `qty` rises by 1. A new key appends `{id, brand, amount, unitPrice: amount, qty: 1}` after the untouched lines |
| `CartManager.AddLineQty` | src/App.js:128-143 | an add raises the quantity under its own key by exactly 1 and leaves every other key's quantity unchanged |
| `CartManager.AddLineWellFormed` | src/App.js:128-143 | adding preserves "at most one line per (id, amount), priced at face value, qty at least 1" |
| `CartManager.AddLineTotal` | src/App.js:120-143 | on a cart priced at face value, each add raises the total `Σ unitPrice*qty` by the amount added |
| `CartManager.AddLineCount` | src/App.js:128-143 | on any cart, each add raises the badge count `Σ qty` by exactly 1 |
| `CartManager.Sum` | src/App.js:121 | the left-to-right `reduce` from 0: 0 on the empty cart, never negative when no term is |
| `CartManager.Total` | src/pages/Checkout.js:36-39 | the total `Σ unitPrice*qty`: 0 on the empty cart, the line's subtotal on a one-line cart, never negative when no price or quantity is |
| `CartManager.ItemCount` | src/App.js:161 | the badge count `Σ qty`: 0 on the empty cart, the line's quantity on a one-line cart, never negative when no quantity is |
| `CartManager.LinesAtMostItems` | src/App.js:161 | with every qty at least 1, the badge count `Σ qty` is at least the number of lines, with equality exactly when every qty is 1 |
| `CartManager.AddAllQty` | src/App.js:125-144 | after any sequence of adds, the quantity under each key grew by the number of adds of that key |
| `CartManager.AddAllWellFormed` | src/App.js:125-144 | any sequence of adds keeps a well-formed cart well-formed |
| `CartManager.AddAllTotal` | src/pages/Checkout.js:36-39 | on a cart priced at face value, the total (the amount handed to payment) grows by the sum of the face values added |
| `CartManager.AddAllCount` | src/App.js:161 | on any cart, the badge count grows by the number of adds |
| `CartManager.CartFromPicks` | src/App.js:120-161 | from the empty cart, any sequence of adds gives one line per distinct pair picked, with qty equal to its count. The key is present exactly when it was picked. The total is the sum of the face values picked, the badge the number of picks |
| `CartManager.AddRepeated` | src/App.js:128-143 | n adds of one pair to a cart without it give the old lines followed by one line of that pair with qty n |
| `Attribution.Last` | src/pages/Checkout.js:27 | `slice(-n)`: the last `min(n, length)` characters |
| `Attribution.Mask` | src/pages/Checkout.js:27 | the fixed 15-character prefix `••••-••••-••••-` followed by the last `min(4, length)` characters of the code |
| `Attribution.MaskSameSuffix` | src/pages/Checkout.js:27 | two codes mask alike exactly when their last four characters agree |
| `Attribution.MaskKeepsLastFour` | src/pages/Checkout.js:27 | a code of at least 4 characters masks to 19 characters: 15 glyphs or dashes, then exactly its last four |
| `Attribution.ToUpper` | src/pages/Checkout.js:46 | upper-casing keeps the length and maps each character through the ASCII letter case map |
| `Attribution.SimCode` | src/pages/Checkout.js:46 | every synthesised code starts with `SIM-` and continues with the upper-case base-36 digits, one per random digit |
| `Attribution.NewEntries` | src/pages/Checkout.js:44-55 | one entry per cart line, in cart order. Each copies its line's brand and amount and takes its own id. Its full code is synthesised and its masked code is the masking of that code. All share one `createdAt` |
| `Attribution.PrependKeepsCodes` | src/pages/Checkout.js:45-56 | after the prepend, every wallet entry's masked code still masks its full code and every code starts with `SIM-`; each new display ends with its code's last four characters |
| `Attribution.EntriesPerLine` | src/pages/Checkout.js:45-55 | when every line holds at least one item, the entries created never outnumber the items bought, and equal them exactly when every line has qty 1 |
| `ShopState.LoadCart` | src/pages/Checkout.js:33 | the cart a page mounts with: the stored cart, or the empty cart when missing, blank or unparsable |
| `ShopState.LoadWallet` | src/pages/Checkout.js:34 | the wallet a page mounts with: the stored wallet, or the empty wallet when missing, blank or unparsable |
| `ShopState.Shop.Mount` | src/App.js:114-115 | mounting loads both cells from storage with empty fallbacks; memory and storage are then in step |
| `ShopState.Shop.SetCart` | src/App.js:21-25 | after `set(v)` the in-memory cart and the stored cart document are both `v`; nothing else changes |
| `ShopState.Shop.SetWallet` | src/pages/Checkout.js:19-23 | after `set(v)` the in-memory wallet and the stored wallet document are both `v`; nothing else changes |
| `ShopState.Shop.Select` | src/App.js:180-182 | records the chosen face value for one product id; selections drawn from the offered options stay so |
| `ShopState.Shop.AddToCart` | src/App.js:125-146 | the cart becomes the merge-or-append of the chosen amount and is written through. The badge rises by 1. On a cart priced at face value the total rises by that amount; a well-formed cart stays well-formed |
| `ShopState.Shop.AttributeAndStore` | src/pages/Checkout.js:42-58 | an empty cart changes nothing. Otherwise the wallet becomes the new entries (one per line, in cart order) followed by the old wallet, unchanged. The wallet document is written first, then the cart is emptied and written |
| `ShopState.Shop.HandleSuccess` | src/pages/Checkout.js:60-64 | attribution happens before navigating to `/`: the wallet document is written, then the empty cart, and no other key changes. The storefront remounts: it loads the emptied cart and the grown wallet, and starts with no selection |

## Left out

- Rendering, the cart drawer and wallet modal, styling and number formatting are UI only. So is `setDrawer(true)` after an add.
- Routing is reduced to the `route` field set by the success handler. The `replace` flag and the other routes are framework glue.
- `src/components/Paiement.js` is not modelled: it fetches a public key and loads a third-party checkout script. Its only hand-off from this core is the amount (src/pages/Checkout.js:119). By definition that amount is `CartManager.Total` of the loaded cart. `CartManager.AddAllTotal` and `CartManager.CartFromPicks` state what that total is after a sequence of adds. The cancel path only shows an alert and changes no state.
- `netlify/functions/public-key.js` and `src/index.js` are not part of this model: one is I/O plumbing and the other is application bootstrapping.
- `Math.random`, `Date.now` and `new Date()` are inputs. Entry ids are not guaranteed unique by the code, and the model makes no such claim.
- JSON serialisation is not modelled, and `JSON.parse` is reduced to "parses to the document" or "throws". A stored text that parses to any value that is not a cart or wallet array (`null`, a boolean, a number, a string, a non-array object, an array of wrong-shaped records) is outside the type `Raw<Doc>`: the model cannot store one. A stored text that parses to the other key's document is excluded by `WellShaped`. The code would adopt any of these values as is.
- `Storage.Save`, `ShopState.Shop.SetCart`, `ShopState.Shop.SetWallet`: storage writes are taken never to throw. In the code, `localStorage.setItem` runs after `setVal` and outside any `try` (src/App.js:22-25, src/pages/Checkout.js:19-23). A write that throws (quota exceeded, storage disabled) leaves memory ahead of storage, so `Valid()` would no longer hold. In `attributeAndStore` such a throw from the wallet write also stops the run before `setCart([])` (src/pages/Checkout.js:56-57): the wallet has grown in memory and the cart is not emptied.
- The drop-down selections belong to one storefront mount (src/App.js:118). Any navigation away from `/` drops them, including the link to `/checkout`. The model has only one navigation step, `ShopState.Shop.HandleSuccess`, which resets them. It has no operation for the links between pages.
- React state updates are modelled as immediate sequential steps. The functional setter applies its updater to the value captured at render time, so two updates within one render are not modelled.
- JavaScript numbers are doubles. The model uses unbounded integers, which agree with them for the integer sums a cart can reach (below 2^53).
- `Attribution.Last`: Dafny characters are Unicode scalar values, while `slice(-4)` counts UTF-16 code units. They differ only for characters outside the Basic Multilingual Plane, which synthesised codes never contain.
- `Attribution.ToUpper`: only ASCII letters are upper-cased. That covers every base-36 digit, but `toUpperCase` also maps non-ASCII letters.
- `CartManager.ChosenAmount`: a `NaN` selection (also falsy) is not modelled, because the drop-down only yields option values.
- The vault of codes, code import, reveal with `revealedAt`, and stripping `fullCode` on load do not exist in the modelled code.
