# R.K Studio home page — a Dafny model

The R.K Studio site is one React page, `src/pages/Index.tsx`. Most of the page
is markup. Three small pieces of logic live inside it, and this project models
them:

- **The cart.** It is an ordered list of items. Each item copies a catalog
  service and gets its own uid. Add appends one item. Remove keeps every item
  whose uid differs from the given one. The subtotal sums the prices. Clear
  empties the list.
- **The "R.K AI" quick-suggestion resolver.** It lower-cases the prompt and
  tests four keyword groups in a fixed order, using plain substring tests.
  The first group that matches picks one of four canned answers. When no group
  matches, the answer is the "classic color pop" style.
- **The booking modal.** The page keeps the selected service and a flag that
  shows the modal. Book, "Use suggestion", close, the modal's "Add to cart"
  and the form's submit always set or clear the two together.

Modules:

- `Wrappers`: the `Option` type.
- `Text`: ASCII lower-casing (`Lower`) and substring search (`Contains`).
- `Catalog`: the `Service` record, the six services (`SERVICES`), and
  `FindTag`, the case-insensitive lookup by tag.
- `Suggestions`: the answers, the ordered keyword table `RULES`, the resolver
  `Resolve`, and `FirstMatch`, an independent reading of the table.
  `Resolve` is proved equal to `FirstMatch`.
- `SuggestionExamples`: worked prompts ("restore old frame", "gold frame",
  "bride wedding", "make it pop", "VINTAGE Portrait").
- `Cart`: the `CartItem` record, `Sum` (the `reduce`), `RemoveUid` (the
  `filter`), and their laws.
- `IndexPage`: class `Page`, which holds the component's state. Each handler
  is a method. `Valid()` is the invariant every handler keeps:
  - `showBooking` holds exactly when a service is selected;
  - every selected or added service comes from the catalog;
  - cart uids are distinct and below the next uid to hand out.

  `PassportBooking` and `BrideSuggestion` are two client walk-throughs whose
  assertions the verifier checks.

## Model

| member | source | states |
|---|---|---|
| Text.LowerChar | src/pages/Index.tsx:104 | the result is never a capital; a capital maps to its small letter, every other character to itself |
| Text.Lower | src/pages/Index.tsx:104 | `toLowerCase` on ASCII: same length, each character lower-cased in place |
| Text.LowerIdempotent | src/pages/Index.tsx:104 | lower-casing twice equals lower-casing once |
| Text.LowerIgnoresCase | src/pages/Index.tsx:104 | two strings lower-case to the same string exactly when they agree position by position ignoring case |
| Text.Contains | src/pages/Index.tsx:106-113 | `includes`: true exactly when `sub` occurs at some position of `s` |
| Catalog.CatalogWellFormed | src/pages/Index.tsx:37-86 | the catalog has six services with distinct ids and positive prices |
| Catalog.FindTag | src/pages/Index.tsx:233 | `find`: None exactly when no service's tag matches ignoring case; otherwise a matching service of the catalog, and the first such one |
| Suggestions.FirstMatchIsFirst | src/pages/Index.tsx:106-113 | when group g matches and no earlier group does, the table's answer is group g's |
| Suggestions.FirstMatchDefault | src/pages/Index.tsx:105-114 | when no group matches, the answer is the classic style |
| Suggestions.FirstMatchChain | src/pages/Index.tsx:105-114 | the table reading, written out group by group in the resolver's order |
| Suggestions.RuleTests | src/pages/Index.tsx:106-113 | each group of the table tests exactly the keywords of the corresponding `if` test |
| Suggestions.Resolve | src/pages/Index.tsx:103-114 | `runAiSuggestion`'s answer is the first group of the ordered table that the lower-cased prompt matches |
| Suggestions.ResolveDefault | src/pages/Index.tsx:105-114 | the classic style comes back if and only if no keyword group matches |
| Suggestions.ResolveIgnoresCase | src/pages/Index.tsx:104 | prompts that differ only in letter case get the same answer |
| Suggestions.ResolveLowered | src/pages/Index.tsx:104 | lower-casing the prompt beforehand changes nothing |
| Suggestions.ResolveGroup | src/pages/Index.tsx:106-113 | a group that matches, with no earlier group matching, decides the answer |
| Suggestions.ResolveAnswers | src/pages/Index.tsx:105-113 | every prompt gets one of the five canned answers |
| Suggestions.RestorationHasNoService | src/pages/Index.tsx:233-237 | no catalog tag equals "Restoration" ignoring case |
| Suggestions.StyleHasNoService | src/pages/Index.tsx:233-237 | no catalog tag equals "Style" ignoring case |
| Suggestions.FramingFindsFrame | src/pages/Index.tsx:233-237 | "Frame" finds the Basic Frame (A4) service |
| Suggestions.IdFindsPassport | src/pages/Index.tsx:233-237 | "ID" finds the Passport / ID Photos service |
| Suggestions.ShootFindsEvent | src/pages/Index.tsx:233-237 | "Shoot" finds the Mini Event Shoot (2 hrs) service |
| Suggestions.SuggestionTargets | src/pages/Index.tsx:232-237 | for any prompt, "Use suggestion" finds framing, passport photos or the event shoot for the Frame, ID and Shoot answers, and nothing for Restoration or Style |
| SuggestionExamples.RestoreBeatsFrame | src/pages/Index.tsx:106-109 | "restore old frame" also matches the frame group, yet resolves to Restoration |
| SuggestionExamples.GoldFrameIsRestoration | src/pages/Index.tsx:106 | "gold" contains "old", so "gold frame" resolves to Restoration |
| SuggestionExamples.IdGroupWins | src/pages/Index.tsx:110 | a lower-case prompt that misses the first two groups and contains "id" resolves to ID |
| SuggestionExamples.BrideWeddingIsId | src/pages/Index.tsx:110-112 | "bride" contains "id" and the ID test comes first, so "bride wedding" resolves to ID, not Shoot |
| SuggestionExamples.MakeItPopIsDefault | src/pages/Index.tsx:105-114 | a prompt without any keyword gets the classic style |
| SuggestionExamples.ShoutedVintageIsRestoration | src/pages/Index.tsx:104-106 | "VINTAGE Portrait" is lower-cased before matching and resolves to Restoration |
| Cart.Sum | src/pages/Index.tsx:100 | the `reduce` behind `subtotal()`: prices added from the front starting at zero; its laws are stated by `SumAppend`, `SumPush` and `SumSign` |
| Cart.SumAppend | src/pages/Index.tsx:99-101 | the total of two concatenated lists is the sum of their totals |
| Cart.SumPush | src/pages/Index.tsx:99-101 | appending one item raises the total by exactly its price |
| Cart.SumSign | src/pages/Index.tsx:99-101 | with positive prices the total is non-negative, and zero exactly for the empty cart |
| Cart.RemoveUid | src/pages/Index.tsx:95-97 | the filter never lengthens the list and leaves no item carrying the uid |
| Cart.RemoveUidMembers | src/pages/Index.tsx:96 | an item survives the filter if and only if it was in the list and its uid differs |
| Cart.RemoveUidAppend | src/pages/Index.tsx:96 | filtering distributes over concatenation, so the order of kept items is kept |
| Cart.RemoveAbsent | src/pages/Index.tsx:96 | removing a uid that no item carries changes nothing |
| Cart.RemoveIdempotent | src/pages/Index.tsx:96 | removing the same uid twice equals removing it once |
| Cart.RemoveKeepsDistinct | src/pages/Index.tsx:95-97 | removal keeps the uids distinct |
| Cart.RemoveExactlyOne | src/pages/Index.tsx:95-97 | with distinct uids, removing item k's uid cuts out exactly item k |
| Cart.SumAfterRemove | src/pages/Index.tsx:95-101 | with distinct uids, removing item k lowers the total by exactly its price |
| Cart.RemoveFound | src/pages/Index.tsx:95-97 | for every position carrying the uid: that one item is cut out and the total drops by its price |
| IndexPage.Page.ModalVisible | src/pages/Index.tsx:289 | the modal's render condition: shown and a service selected; `ModalFollowsFlag` states how it relates to the flag and to `Idle` |
| IndexPage.Page.ModalFollowsFlag | src/pages/Index.tsx:289 | under the invariant the modal renders exactly when its flag is set, and is hidden exactly when the page is idle |
| IndexPage.Page.Subtotal | src/pages/Index.tsx:99-101 | `subtotal()`: zero for an empty cart; under the page invariant (all items from the catalog, so positive prices) non-negative and zero only for the empty cart |
| IndexPage.Page.constructor | src/pages/Index.tsx:30-35 | the initial state: empty cart, nothing selected, modal hidden, empty prompt, no suggestion |
| IndexPage.Page.AddToCart | src/pages/Index.tsx:90-93 | appends exactly one item, carrying the service and a uid not yet in the cart; the subtotal grows by its price; nothing else changes; the notice names the service |
| IndexPage.Page.RemoveFromCart | src/pages/Index.tsx:95-97 | the cart becomes the filtered list; an item's uid removes exactly that item and lowers the subtotal by its price; an absent uid changes nothing |
| IndexPage.Page.ClearCart | src/pages/Index.tsx:411 | the cart is emptied and the subtotal is zero whatever it held; nothing else changes |
| IndexPage.Page.Book | src/pages/Index.tsx:197 | selects the service and shows the modal together; the cart is unchanged |
| IndexPage.Page.CloseBooking | src/pages/Index.tsx:298 | hides the modal and clears the selection together; the cart is unchanged |
| IndexPage.Page.QuickAdd | src/pages/Index.tsx:344 | adds the selected service once at the end of the cart, then returns to idle |
| IndexPage.Page.Submit | src/pages/Index.tsx:306-315 | adds the selected service once, returns to idle, and thanks the named contact at the given phone |
| IndexPage.Page.SetPrompt | src/pages/Index.tsx:218 | the prompt takes the typed text; nothing else changes |
| IndexPage.Page.Suggest | src/pages/Index.tsx:223 | the shown answer becomes the resolver's answer for the current prompt |
| IndexPage.Page.UseSuggestion | src/pages/Index.tsx:232-237 | when some service's tag matches the answer's tag, that first match is selected and the modal shown; otherwise selection and modal are unchanged |

## Left out

- IndexPage.Page.AddToCart: the uid comes from a counter field `nextUid` (line 91), not from `Date.now() + Math.random()`. The clock and the random number are outside the model. The counter also makes uids provably distinct, which the original only makes likely.
- Toast notifications (lines 92, 269, 314, 404) are calls into the notification library. `AddToCart`, `QuickAdd` and `Submit` return the message text instead. Line 314 calls the notifier twice: `toast.success` with the thanks text, then plain `toast` with the id that call returns. Only the thanks text is modelled, as `Submit`'s `thanks`; the second, id-only notification is not.
- IndexPage.Page.Suggest: the answer is shown after a 400 ms timer (line 115). The model sets it at once, after clearing the old one. So the last-writer-wins race between overlapping Suggest clicks is not modelled.
- IndexPage.Page.Submit: the browser's form handling is outside the model. That covers `FormData` extraction and the `required` inputs (lines 308-310, 321, 327). They become a precondition that name and phone are non-empty. The optional notes field is not read by the handler and is not modelled.
- IndexPage.Page.UseSuggestion: its precondition that a suggestion is shown stands for the page rendering the button only while a suggestion exists (line 227).
- Prices and uids are JavaScript numbers (64-bit floats); the model uses unbounded integers. Floating-point rounding is not modelled. This only matters for values beyond 2^53, and uids come from a counter anyway.
- Text.Lower: lower-cases only ASCII `A`–`Z`, not the full Unicode `toLowerCase`. Every keyword and catalog tag is ASCII.
- The cart drawer's open/close flag (`showCart`) is a plain boolean with no rules, so it is not modelled. The checkout button only shows a placeholder notice (line 404), so it is not modelled either.
- The "Request Callback" button (line 269) only shows a notice.
- Markup, styling, images and the gallery, `window.scrollTo`, and the footer's current year are presentation and browser I/O.
