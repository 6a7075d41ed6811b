# globaltrust front ends in Dafny

This project models the client-side logic of the two React front ends of
globaltrust, a platform for identity, property tokens, a marketplace, lending
and document verification on the Internet Computer:

- `globaltrust_dapp`: `App`, `Header`, `Marketplace`, `AssetManagement`;
- `gt_frontend`: `Home`, `Header`, `LendingBorrowing`, `AssetManagement`,
  `PropertyVerification`, `IdentityManagement`.

What is modelled:

- **The session and view router of each app.** These are the classes
  `DappApp.Session` and `GtHome.HomeSession`. Each holds authentication, the
  principal, the record of service handles, the selected view, the theme and
  the loading flag. `initializeAuth`, `login`, `logout` and `toggleTheme`
  become methods that change those fields. `renderCurrentView` is a pure
  choice of screen.
- **The headers.** Nav item lists, highlighting, principal abbreviation,
  the theme icon and the mobile menu.
- **Each view as a class.** The class fields are the component's state
  variables. Each handler is a method. Its awaited remote calls enter as
  parameters, and each parameter mirrors the result shape that call site
  tests:
  - `Reply` says whether the promise rejected;
  - `LowerResult` is for `"ok" in r`;
  - `UpperResult` is for `"Ok" in r`;
  - `SuccessFlag` is for `r.success`;
  - `ListCall` is for `(await actors.x?.m?.()) || []`.
- **The JavaScript semantics the views depend on.** These are modelled
  explicitly:
  - objects as ordered property lists, with spread and `{...o, [k]: v}`;
  - `slice` with negative indices, `substring`, `includes`, `split`,
    `trim`;
  - `String(v)`, `BigInt(v)`, truthiness and `Object.keys(v)[0]`.
- **Request encoding.**
  - Candid optionals are zero-or-one-element sequences.
  - Variants are single-key objects.
  - Times are integers: milliseconds times 1,000,000 give nanoseconds, and
    days times 86,400,000,000,000 give nanoseconds.

The identity provider, the auth client and actor creation are foreign
libraries. A login is an `Auth.LoginOutcome`. A service handle is an
`Auth.Handle` value: the declarations it was generated from, the environment
variable naming its canister, and the identity it is bound to. A view's
`service` is `None` when the session has no handle under the key the view
reads.

## Model

| member | source | states |
|---|---|---|
| Base.Filter | src/gt_frontend/src/components/LendingBorrowing.tsx:233-241 | `Array.prototype.filter`: the result keeps exactly the elements satisfying the test and is no longer than the input |
| Base.FilterAppend | src/gt_frontend/src/components/LendingBorrowing.tsx:233-241 | filtering keeps the original order: filtering a concatenation is the concatenation of the filtered parts |
| Base.FilterKeepsAll | src/gt_frontend/src/components/LendingBorrowing.tsx:233-237 | a list whose every element passes the test is kept whole |
| JsString.TrimIdempotent | src/gt_frontend/src/components/AssetManagement.tsx:37 | `trim` removes all leading and trailing white space, so trimming twice is trimming once |
| JsString.TrimUnchanged | src/gt_frontend/src/components/AssetManagement.tsx:37 | a text with no white space at either end is left as it is by `trim` |
| JsString.TrimShape | src/gt_frontend/src/components/AssetManagement.tsx:37 | `trim` yields a contiguous piece of the input, and everything cut off is white space |
| JsString.Split | src/gt_frontend/src/components/AssetManagement.tsx:37 | `split` on one character gives one piece more than there are separators, and no piece contains the separator |
| JsString.JoinSplit | src/gt_frontend/src/components/AssetManagement.tsx:37 | joining the pieces of a split with the separator gives back the text |
| JsString.SplitJoin | src/gt_frontend/src/components/AssetManagement.tsx:37 | splitting a join of separator-free pieces gives back the pieces |
| JsString.SplitAtSeparator | src/gt_frontend/src/components/LendingBorrowing.tsx:189-190 | a name containing the separator splits into at least two pieces, so `[parent, child]` are both defined |
| JsString.SplitCons | src/globaltrust_dapp/src/components/AssetManagement.tsx:139-140 | the first piece of a split is the text before the first separator; the rest is the split of what follows it |
| JsString.AbbreviateShape | src/globaltrust_dapp/src/components/Header.tsx:66 | `s.slice(0, h) + "..." + s.slice(-t)` is the first `h` and the last `t` characters around "..."; a long enough text gives exactly `h + t + 3` characters |
| JsString.SubstringPrefix | src/gt_frontend/src/components/PropertyVerification.tsx:66 | `s.substring(0, n)` is the longest prefix of at most `n` characters |
| JsString.IncludesIffOccurs | src/globaltrust_dapp/src/components/Marketplace.tsx:279 | `includes` holds exactly when the searched text occurs at some position |
| JsString.IntTextRoundTrip | src/gt_frontend/src/components/AssetManagement.tsx:45 | the decimal text of an integer parses back to that integer under `BigInt` |
| JsValue.GetPutSame | src/gt_frontend/src/components/LendingBorrowing.tsx:199-202 | after `{...o, [k]: v}`, property `k` reads `v` |
| JsValue.GetPutOther | src/gt_frontend/src/components/LendingBorrowing.tsx:199-202 | after `{...o, [k]: v}`, every other property reads what it did before |
| JsValue.Put | src/gt_frontend/src/components/LendingBorrowing.tsx:199-202 | an existing key keeps its place in the key order; a new key is appended at the end |
| JsValue.PutKeyed | src/gt_frontend/src/components/LendingBorrowing.tsx:199-202 | property names stay unique |
| JsValue.VariantTag | src/gt_frontend/src/components/LendingBorrowing.tsx:148 | a variant `{[tag]: null}` has `Object.keys(v)[0] === tag` and no other tag |
| JsValue.BigIntOfDisplay | src/globaltrust_dapp/src/components/AssetManagement.tsx:68-69 | `BigInt(String(n)) == n` for every integer |
| Wire.FailureNamesTag | src/gt_frontend/src/components/IdentityManagement.tsx:53 | a failed result reports `prefix: tag` for a variant error, and only the bare prefix when `Object.keys` throws on a null error |
| Wire.OptionalFirst | src/globaltrust_dapp/src/components/Marketplace.tsx:255-262 | reading an optional gives nothing exactly for the empty sequence, and element 0 otherwise |
| Wire.OptionalOf | src/gt_frontend/src/components/PropertyVerification.tsx:93 | `v ? [v] : []` has at most one element, and has one exactly when `v` is truthy |
| Wire.OptionalRoundTrip | src/globaltrust_dapp/src/components/AssetManagement.tsx:114 | writing then reading an optional gives the value back exactly when it is truthy |
| Wire.MillisToNanos | src/globaltrust_dapp/src/components/AssetManagement.tsx:110-111 | milliseconds times 1,000,000: the result divides back exactly, with no remainder |
| Wire.MillisRoundTrip | src/globaltrust_dapp/src/components/AssetManagement.tsx:110-111 | an encoded instant is displayed (line 253) as that same instant, negative instants included |
| Wire.NanosToMillisBounds | src/globaltrust_dapp/src/components/AssetManagement.tsx:253 | a displayed instant is within one millisecond of the timestamp, truncated toward zero |
| Wire.DaysToNanos | src/gt_frontend/src/components/LendingBorrowing.tsx:80 | a duration in days is sent as days times 86,400,000,000,000 nanoseconds |
| Wire.NanosToDaysNearest | src/gt_frontend/src/components/LendingBorrowing.tsx:384 | `Math.round(ns / day)` is the nearest whole day count, with halves rounded up |
| Wire.DaysRoundTrip | src/gt_frontend/src/components/LendingBorrowing.tsx:80 | an encoded whole-day duration is displayed (line 384) as its original day count |
| Auth.Network | src/globaltrust_dapp/src/App.tsx:20 | `DFX_NETWORK \|\| "local"` is never empty: unset or empty means "local" |
| Auth.ProviderChoice | src/globaltrust_dapp/src/App.tsx:20-22 | the production provider is chosen exactly when the network is "ic"; every other setting, and none, gives the local URL |
| DappApp.IdentityProvider | src/globaltrust_dapp/src/App.tsx:20-22 | `https://identity.ic0.app` exactly when the setting is "ic", otherwise this app's local URL |
| DappApp.Actors | src/globaltrust_dapp/src/App.tsx:56-78 | the five handles are all bound to the client's identity; the property-verifier handle is generated from the same `property` declarations as the token handle, but for a different canister |
| DappApp.RenderCurrentView | src/globaltrust_dapp/src/App.tsx:107-143 | the screen for the session state; its full routing table is stated by `RenderRoutes` |
| DappApp.RenderRoutes | src/globaltrust_dapp/src/App.tsx:107-143 | unauthenticated always shows sign-in; authenticated, each of identity/assets/marketplace/lending/verification has its own screen, and any other text, "dashboard" included, shows the dashboard |
| DappApp.ToggleTwice | src/globaltrust_dapp/src/App.tsx:103-105 | toggling changes the theme, and toggling twice restores it |
| DappApp.Session.constructor | src/globaltrust_dapp/src/App.tsx:20-31 | starts unauthenticated, with no client, principal or handles, on "dashboard", light, loading, using the provider for the network |
| DappApp.Session.InitializeAuth | src/globaltrust_dapp/src/App.tsx:37-54 | copies the client's sign-in state; handles and principal are set only when signed in; a failure changes nothing but loading, which always ends |
| DappApp.Session.UpdateActors | src/globaltrust_dapp/src/App.tsx:56-78 | replaces the handle record in one assignment by the five handles bound to the client's identity |
| DappApp.Session.CommitSignIn | src/globaltrust_dapp/src/App.tsx:87-88 | marks the session authenticated and records the client's principal |
| DappApp.Session.Login | src/globaltrust_dapp/src/App.tsx:80-91 | no client: nothing changes; aborted: nothing changes; approved: handles, then authentication, then the principal, with the session between those steps having handles but the old authentication |
| DappApp.Session.Logout | src/globaltrust_dapp/src/App.tsx:93-101 | no client: nothing changes; otherwise signed out, no principal, no handles, view "dashboard", theme and loading kept, and the sign-in page shown |
| DappApp.Session.ToggleTheme | src/globaltrust_dapp/src/App.tsx:103-105 | light and dark swap; nothing else changes |
| DappApp.Session.SetCurrentView | src/globaltrust_dapp/src/App.tsx:160 | the view becomes the chosen text and the session invariant holds |
| GtHome.IdentityProvider | src/gt_frontend/src/Home.tsx:17-19 | production provider exactly for "ic"; otherwise this app's own local URL, which differs from the dapp's |
| GtHome.Actors | src/gt_frontend/src/Home.tsx:57-79 | exactly the handles identity, rwaNft, rwaVerifier, marketplace and lending, each from its own declarations and all bound to one identity |
| GtHome.HandleNamed | src/gt_frontend/src/Home.tsx:60-76 | `actors[key]` yields a handle only for the five keys built, and never before sign-in |
| GtHome.ComponentLookupsMiss | src/gt_frontend/src/components/LendingBorrowing.tsx:62 | the keys the lending and verification views read, `lendingBorrowing` and `propertyVerifier`, are not among the keys built |
| GtHome.RenderCurrentView | src/gt_frontend/src/Home.tsx:108-137 | the screen for the session state; its full routing table, "nfts" and "assets" included, is stated by `RenderRoutes` |
| GtHome.RenderRoutes | src/gt_frontend/src/Home.tsx:108-137 | unauthenticated shows sign-in; authenticated, identity/verification/nfts/marketplace/lending have their screens and everything else, "assets" included, shows the dashboard |
| GtHome.WithThemeClass | src/gt_frontend/src/Home.tsx:34-36 | `classList.toggle("theme-dark", dark)`: the class is present exactly for the dark theme, and other classes are untouched |
| GtHome.ToggleTwice | src/gt_frontend/src/Home.tsx:104-106 | toggling the theme twice restores both the theme and the document classes |
| GtHome.HomeSession.LendingHandle | src/gt_frontend/src/Home.tsx:73-75 | once a principal is known, the lending handle is there, from the `lending` declarations and bound to that principal |
| GtHome.HomeSession.VerifierHandle | src/gt_frontend/src/Home.tsx:67-69 | once a principal is known, the verifier handle is there, from the `rwa_verifier` declarations and bound to that principal |
| GtHome.HomeSession.constructor | src/gt_frontend/src/Home.tsx:17-28 | starts unauthenticated, with no principal or handles, on "dashboard", light, loading, and without the dark class |
| GtHome.HomeSession.InitializeAuth | src/gt_frontend/src/Home.tsx:38-55 | as in the dapp: sign-in state copied, handles and principal set only when signed in, loading always ends |
| GtHome.HomeSession.UpdateActors | src/gt_frontend/src/Home.tsx:57-79 | replaces the handle record in one assignment |
| GtHome.HomeSession.Login | src/gt_frontend/src/Home.tsx:81-92 | approved: authentication first, then handles, then principal; between those steps the session is authenticated while the principal is still the old one (none after a fresh start) |
| GtHome.HomeSession.Logout | src/gt_frontend/src/Home.tsx:94-102 | no client: nothing changes; otherwise signed out, no principal or handles, view "dashboard" |
| GtHome.HomeSession.ToggleTheme | src/gt_frontend/src/Home.tsx:104-106 | the theme swaps and the document's dark class follows it (the effect at lines 34-36) |
| GtHome.HomeSession.SetCurrentView | src/gt_frontend/src/Home.tsx:153 | the view becomes the chosen text |
| DappHeader.NavIdsDistinct | src/globaltrust_dapp/src/components/Header.tsx:15-22 | six nav ids, pairwise distinct |
| DappHeader.Highlighted | src/globaltrust_dapp/src/components/Header.tsx:39-42 | the highlight test `currentView === item.id`; `AtMostOneHighlighted` proves at most one item passes it |
| DappHeader.AtMostOneHighlighted | src/globaltrust_dapp/src/components/Header.tsx:39-42 | an item is highlighted iff its id is the current view, so at most one item is highlighted |
| DappHeader.NavRoutes | src/globaltrust_dapp/src/components/Header.tsx:15-22 | the six ids lead to six different screens, and only "dashboard" leads to the dashboard |
| DappHeader.PrincipalLabel | src/globaltrust_dapp/src/components/Header.tsx:66 | the shortened principal, "..." when there is none; its shape is stated by `PrincipalLabelShape` |
| DappHeader.PrincipalLabelShape | src/globaltrust_dapp/src/components/Header.tsx:66 | a principal of at least 16 characters shows as its first 8, "...", and its last 8 |
| DappHeader.ThemeIcon | src/globaltrust_dapp/src/components/Header.tsx:58 | the moon icon exactly for the light theme |
| DappHeader.Header.constructor | src/globaltrust_dapp/src/components/Header.tsx:13 | the mobile menu starts closed |
| DappHeader.Header.ToggleMobileMenu | src/globaltrust_dapp/src/components/Header.tsx:79 | the menu button flips the mobile menu |
| DappHeader.Header.SelectItem | src/globaltrust_dapp/src/components/Header.tsx:38 | clicking item `i` makes its id the current view, so the page shown is that item's screen |
| DappHeader.Header.SelectMobileItem | src/globaltrust_dapp/src/components/Header.tsx:96-99 | a mobile item sets the view and closes the menu |
| GtHeader.ItemClass | src/gt_frontend/src/components/Header.tsx:27-44 | an item gets " active" exactly when its id is the current view |
| GtHeader.OneActive | src/gt_frontend/src/components/Header.tsx:27-44 | at most one item is active |
| GtHeader.NavRoutes | src/gt_frontend/src/components/Header.tsx:27-44 | the six ids are distinct and route to six different screens of the gt app |
| GtHeader.PrincipalLabel | src/gt_frontend/src/components/Header.tsx:48 | the label exists exactly when there is a principal (the unguarded `slice` throws on null) |
| GtHeader.PrincipalLabelShape | src/gt_frontend/src/components/Header.tsx:48 | a principal of at least 10 characters shows as its first 6, "...", and its last 4 |
| GtHeader.ThemeGlyph | src/gt_frontend/src/components/Header.tsx:51 | the new-moon glyph exactly for the dark theme |
| GtHeader.ClickNavItem | src/gt_frontend/src/components/Header.tsx:27-44 | clicking item `i` sets the view to its id, after which exactly item `i` is active |
| Forms.InputValue | src/gt_frontend/src/components/LendingBorrowing.tsx:187-201 | checkboxes store `checked`, every other input stores its text |
| Forms.DottedUpdate | src/gt_frontend/src/components/LendingBorrowing.tsx:186-204 | `handleInputChange`: a dotted name updates one field of a nested record and any other name one top-level field; what each case changes and keeps is stated by `FlatUpdate`, `NestedUpdate` and `ExtraSegmentsDropped` |
| Forms.FlatUpdate | src/globaltrust_dapp/src/components/AssetManagement.tsx:148-153 | an undotted name sets that field only; every other field reads as before; key order is kept or the key appended |
| Forms.NestedUpdate | src/gt_frontend/src/components/LendingBorrowing.tsx:189-197 | `"p.c"` replaces record `p` by a copy with only `c` changed; other fields of `p` and other top-level fields are unchanged |
| Forms.ExtraSegmentsDropped | src/globaltrust_dapp/src/components/AssetManagement.tsx:139-147 | `[parent, child] = name.split(".")`: a name with three or more segments updates exactly as its first two |
| Forms.MetadataTitleQuirk | src/globaltrust_dapp/src/components/AssetManagement.tsx:137-154 | the title input (line 305), named "metadata.propertyMetadata.title", overwrites `metadata.propertyMetadata` with the typed value and leaves the other top-level fields alone |
| Lending.IsUserLoan | src/gt_frontend/src/components/LendingBorrowing.tsx:233-237 | the `userLoans` test: borrower, or element 0 of the lender optional; `UserLoans` and `OwnLoanNeverAvailable` state its consequences |
| Lending.IsAvailable | src/gt_frontend/src/components/LendingBorrowing.tsx:239-241 | the `availableLoans` test: approved and borrowed by someone else; `AvailableLoans` and `OwnLoanNeverAvailable` state its consequences |
| Lending.UserLoans | src/gt_frontend/src/components/LendingBorrowing.tsx:233-237 | exactly the loans the user borrowed, or lent (element 0 of the lender optional) |
| Lending.AvailableLoans | src/gt_frontend/src/components/LendingBorrowing.tsx:239-241 | exactly the approved loans of other borrowers |
| Lending.FiltersKeepOrder | src/gt_frontend/src/components/LendingBorrowing.tsx:233-241 | both filters keep the loaded order |
| Lending.UserLoansKeepAll | src/gt_frontend/src/components/LendingBorrowing.tsx:233-237 | a list of the user's own loans is kept whole |
| Lending.OwnLoanNeverAvailable | src/gt_frontend/src/components/LendingBorrowing.tsx:233-241 | a loan the user borrowed is in their loans and never offered to them |
| Lending.CanMakePayment | src/gt_frontend/src/components/LendingBorrowing.tsx:481-482 | the Make Payment condition: own loan, funded or repaying; `PayableIsOwn` proves such a loan is the user's and never on offer |
| Lending.PayableIsOwn | src/gt_frontend/src/components/LendingBorrowing.tsx:481-482 | Make Payment (borrower, funded or repaying) is offered only on the user's own loans, which are never on offer |
| Lending.StatusTone | src/gt_frontend/src/components/LendingBorrowing.tsx:206-224 | `getStatusColor` by the status tag; `StatusTones` states each colour's tags |
| Lending.StatusTones | src/gt_frontend/src/components/LendingBorrowing.tsx:206-224 | pending, approved, funded, repaying and defaulted have their own colours; every other tag is grey |
| Lending.DurationDays | src/gt_frontend/src/components/LendingBorrowing.tsx:384 | the shown day count is the whole number of days nearest to the duration, within half a day |
| Lending.AppliedDurationShown | src/gt_frontend/src/components/LendingBorrowing.tsx:384 | a loan whose duration was applied for as a whole number of days (line 80) shows that day count |
| Lending.InitialApplication | src/gt_frontend/src/components/LendingBorrowing.tsx:16-47 | the empty application has unique field names and the user as borrower |
| Lending.PaymentTypeSent | src/gt_frontend/src/components/LendingBorrowing.tsx:148 | each of regular/extra/final (the choices at lines 837-839) is sent as the variant with that tag |
| Lending.LendingPanel.constructor | src/gt_frontend/src/components/LendingBorrowing.tsx:7-55 | no loans, loading, no error, modals closed, nothing selected, both forms empty |
| Lending.LendingPanel.LoadLoans | src/gt_frontend/src/components/LendingBorrowing.tsx:57-70 | a missing service or method gives the empty list; a rejected call keeps the list and reports; loading always ends |
| Lending.LendingPanel.SubmitLoanApplication | src/gt_frontend/src/components/LendingBorrowing.tsx:72-141 | sent only when the loan duration, the employment duration and every money field convert (the empty employment duration of the initial form does not), with the duration in nanoseconds; success closes, reloads and resets the form to exactly its initial value; failure reports the message |
| Lending.LendingPanel.MakePayment | src/gt_frontend/src/components/LendingBorrowing.tsx:143-167 | sends the selected loan, the cents and the payment-type variant; `ok` closes, resets the form to amount "" and type "regular", clears the selection and reloads; `err` is reported as text |
| Lending.LendingPanel.FundLoan | src/gt_frontend/src/components/LendingBorrowing.tsx:169-184 | `ok` reloads; `err` is reported as text; a throw reports the bare failure |
| Lending.LendingPanel.HandleInputChange | src/gt_frontend/src/components/LendingBorrowing.tsx:186-204 | the application becomes the dotted update of the input's value or checkbox state |
| Lending.LendingPanel.SetPaymentAmount | src/gt_frontend/src/components/LendingBorrowing.tsx:822 | only the amount field changes |
| Lending.LendingPanel.SetPaymentType | src/gt_frontend/src/components/LendingBorrowing.tsx:834 | only the payment type changes |
| Lending.LendingPanel.SelectLoanForPayment | src/gt_frontend/src/components/LendingBorrowing.tsx:486-487 | the loan is selected and the payment modal opens |
| DappMarketplace.ShowActions | src/globaltrust_dapp/src/components/Marketplace.tsx:279 | the buttons' condition: active and the seller text does not contain the principal; `ActionsOrYourListing` states it |
| DappMarketplace.ShowYourListing | src/globaltrust_dapp/src/components/Marketplace.tsx:308 | the "Your Listing" condition: the seller text contains the principal; `ActionsOrYourListing` proves it excludes the buttons |
| DappMarketplace.ActionsOrYourListing | src/globaltrust_dapp/src/components/Marketplace.tsx:279-308 | "Your Listing" iff the seller text contains the principal; the buttons iff active and it does not; never both |
| DappMarketplace.ActionFor | src/globaltrust_dapp/src/components/Marketplace.tsx:281-300 | Make Offer exactly for the "sale" tag, Place Bid otherwise |
| DappMarketplace.ListingTypeTone | src/globaltrust_dapp/src/components/Marketplace.tsx:223-230 | the type badge is blue exactly when the action is Make Offer, purple otherwise |
| DappMarketplace.HighestBid | src/globaltrust_dapp/src/components/Marketplace.tsx:255-262 | shown iff the bid optional is non-empty, and it is element 0 |
| DappMarketplace.StatusTone | src/globaltrust_dapp/src/components/Marketplace.tsx:89-104 | `getStatusColor` by the status tag; `StatusTones` states each colour's tags |
| DappMarketplace.StatusTones | src/globaltrust_dapp/src/components/Marketplace.tsx:89-104 | active/pending/in_escrow/cancelled have their own colours; completed and any other tag get the default |
| DappMarketplace.MarketplaceView.constructor | src/globaltrust_dapp/src/components/Marketplace.tsx:6-20 | no listings, loading, filters empty, modals closed, nothing selected, amounts empty |
| DappMarketplace.MarketplaceView.LoadListings | src/globaltrust_dapp/src/components/Marketplace.tsx:26-39 | a missing service or method gives the empty list; a rejection keeps the list and reports; loading ends |
| DappMarketplace.MarketplaceView.SetFilter | src/globaltrust_dapp/src/components/Marketplace.tsx:149 | a filter input (also lines 163-195) changes the filter field and the displayed listings do not: filters are never applied |
| DappMarketplace.MarketplaceView.OpenOffer | src/globaltrust_dapp/src/components/Marketplace.tsx:284-285 | selects the listing and opens the offer modal |
| DappMarketplace.MarketplaceView.OpenBid | src/globaltrust_dapp/src/components/Marketplace.tsx:294-295 | selects the listing and opens the bid modal |
| DappMarketplace.MarketplaceView.SetOfferAmount | src/globaltrust_dapp/src/components/Marketplace.tsx:342 | the offer amount becomes the typed text |
| DappMarketplace.MarketplaceView.SetBidAmount | src/globaltrust_dapp/src/components/Marketplace.tsx:392 | the bid amount becomes the typed text |
| DappMarketplace.MarketplaceView.SubmitOffer | src/globaltrust_dapp/src/components/Marketplace.tsx:41-63 | `ok` closes the modal, clears amount and selection and reloads; `err` is reported as text; a throw reports the bare failure |
| DappMarketplace.MarketplaceView.PlaceBid | src/globaltrust_dapp/src/components/Marketplace.tsx:65-87 | the same for bids |
| DappAssets.OwnerLabel | src/globaltrust_dapp/src/components/AssetManagement.tsx:247 | the shortened owner; its shape is stated by `OwnerLabelShape` |
| DappAssets.OwnerLabelShape | src/globaltrust_dapp/src/components/AssetManagement.tsx:247 | an owner of at least 16 characters shows as its first 8, "...", and its last 8 |
| DappAssets.MintArgs | src/globaltrust_dapp/src/components/AssetManagement.tsx:67-71 | sent iff both `BigInt` conversions succeed; the metadata record always travels as a one-element optional |
| DappAssets.InitialMintArgs | src/globaltrust_dapp/src/components/AssetManagement.tsx:67-71 | the empty form (lines 16-32) mints property 0 with 100 shares |
| DappAssets.SaleArgs | src/globaltrust_dapp/src/components/AssetManagement.tsx:106-115 | sent iff every `BigInt` conversion succeeds; the asset index, shares, price in cents, minPerUser and maxPerUser are the converted values; the times are milliseconds times 1,000,000 and read back as the same instants; the whitelist is `[w]` iff it is non-empty text |
| DappAssets.AssetPanel.constructor | src/globaltrust_dapp/src/components/AssetManagement.tsx:8-41 | starts with error "" (not null), loading, both forms at their initial values |
| DappAssets.AssetPanel.LoadAssets | src/globaltrust_dapp/src/components/AssetManagement.tsx:47-60 | a missing service or method gives the empty list; a rejection keeps the list and reports |
| DappAssets.AssetPanel.HandleTokenizeSubmit | src/globaltrust_dapp/src/components/AssetManagement.tsx:62-99 | success is `"Ok" in r`: reload, close, reset the form to exactly its initial value; `Err` is reported by its first key |
| DappAssets.AssetPanel.HandleSaleSubmit | src/globaltrust_dapp/src/components/AssetManagement.tsx:101-135 | success is `"ok" in r`: close and reset the form to exactly its initial value, no reload; `err` is reported by its first key |
| DappAssets.AssetPanel.HandleInputChange | src/globaltrust_dapp/src/components/AssetManagement.tsx:137-154 | the chosen form becomes the two-segment dotted update with the typed text |
| DappAssets.AssetPanel.OpenSale | src/globaltrust_dapp/src/components/AssetManagement.tsx:261-262 | selects the asset and opens the sale modal |
| DappAssets.AssetPanel.OpenTokenize | src/globaltrust_dapp/src/components/AssetManagement.tsx:180 | opens the tokenize modal |
| GtAssets.AttestationIds | src/gt_frontend/src/components/AssetManagement.tsx:37 | one id per comma plus one, none containing a comma or surrounding white space |
| GtAssets.AttestationIdsRoundTrip | src/gt_frontend/src/components/AssetManagement.tsx:37 | comma-free, trimmed ids joined by commas are read back exactly; empty input gives one empty id |
| GtAssets.MintMetadata | src/gt_frontend/src/components/AssetManagement.tsx:33-42 | the texts as typed, the ids split and trimmed, and lien_active, collateralized and frozen always false |
| GtAssets.BadgeFor | src/gt_frontend/src/components/AssetManagement.tsx:81 | no badge for an absent or empty status; the error style iff the status contains "fail" |
| GtAssets.MintBadges | src/gt_frontend/src/components/AssetManagement.tsx:81 | "Mint failed." gets the error style and "NFT minted!" the success style |
| GtAssets.NftPanel.constructor | src/gt_frontend/src/components/AssetManagement.tsx:9-20 | an empty form, no status, token, data or certificate |
| GtAssets.NftPanel.HandleChange | src/gt_frontend/src/components/AssetManagement.tsx:22-24 | only the named field changes |
| GtAssets.NftPanel.SetTokenId | src/gt_frontend/src/components/AssetManagement.tsx:85 | the token id becomes the typed text |
| GtAssets.NftPanel.HandleMint | src/gt_frontend/src/components/AssetManagement.tsx:26-53 | clears status, token id, data and certificate; `ok` sets the token id to the value's text and "NFT minted!"; anything else "Mint failed."; the success badge shows exactly after a mint |
| GtAssets.NftPanel.FetchToken | src/gt_frontend/src/components/AssetManagement.tsx:55-60 | nothing unless the token id is non-empty; owner and metadata are stored together only when both arrive |
| GtAssets.NftPanel.FetchCert | src/gt_frontend/src/components/AssetManagement.tsx:62-67 | nothing unless the token id is non-empty; then the certificate is stored and shown |
| GtAssets.NftPanel.CertShown | src/gt_frontend/src/components/AssetManagement.tsx:96 | the certificate modal renders iff it is visible and the data is truthy; `FetchCert` and `CloseCert` state how it is shown and hidden |
| GtAssets.NftPanel.CloseCert | src/gt_frontend/src/components/AssetManagement.tsx:96-101 | the certificate modal is hidden |
| Verification.SubmitArgs | src/gt_frontend/src/components/PropertyVerification.tsx:84-94 | hash, type and size as one-element optionals; notes present exactly when non-empty |
| Verification.StatusTone | src/gt_frontend/src/components/PropertyVerification.tsx:125-141 | `getStatusColor` by the status tag; `StatusTones` states each colour's tags |
| Verification.StatusTones | src/gt_frontend/src/components/PropertyVerification.tsx:125-141 | pending/processing/verified/rejected/requires_review have their own colours; any other tag is grey |
| Verification.CanTokenize | src/gt_frontend/src/components/PropertyVerification.tsx:366 | the "Use for Tokenization" condition; `TokenizeIffGreen` ties it to the green status |
| Verification.TokenizeIffGreen | src/gt_frontend/src/components/PropertyVerification.tsx:366 | "Use for Tokenization" is offered exactly for the submissions shown as verified |
| Verification.VerdictTone | src/gt_frontend/src/components/PropertyVerification.tsx:143-157 | `getVerdictColor`; `VerdictAgrees` states its colours against the shown tag |
| Verification.VerdictLabel | src/gt_frontend/src/components/PropertyVerification.tsx:286-289 | the verdict text: the first key of element 0, or "Pending"; `VerdictAgrees` relates it to the colour |
| Verification.VerdictAgrees | src/gt_frontend/src/components/PropertyVerification.tsx:143-157 | an empty verdict is a grey "Pending"; otherwise the colour follows the tag shown (valid, invalid, requires_review) |
| Verification.VerificationPanel.constructor | src/gt_frontend/src/components/PropertyVerification.tsx:6-20 | no submissions, loading, no file, empty form |
| Verification.OwnSubmissions | src/gt_frontend/src/components/PropertyVerification.tsx:33-40 | the query with only `submitter: [principal]` set; `LoadSubmissions` states that it is what is asked |
| Verification.VerificationPanel.LoadSubmissions | src/gt_frontend/src/components/PropertyVerification.tsx:26-49 | asks with submitter `[principal]` and every other filter null; a missing service or method gives the empty list; a rejection keeps the list |
| Verification.VerificationPanel.HandleFileSelect | src/gt_frontend/src/components/PropertyVerification.tsx:51-71 | a chosen file becomes the selection, its size and type enter the form, and reading starts; no file changes nothing |
| Verification.VerificationPanel.OnFileRead | src/gt_frontend/src/components/PropertyVerification.tsx:63-68 | the document text becomes the first 1000 characters of the file's text |
| Verification.VerificationPanel.HandleInputChange | src/gt_frontend/src/components/PropertyVerification.tsx:117-123 | only the named field changes |
| Verification.VerificationPanel.OpenSubmitModal | src/gt_frontend/src/components/PropertyVerification.tsx:185 | opens the submit modal |
| Verification.VerificationPanel.CloseSubmitModal | src/gt_frontend/src/components/PropertyVerification.tsx:467 | closes the submit modal |
| Verification.VerificationPanel.SubmitDocument | src/gt_frontend/src/components/PropertyVerification.tsx:73-115 | no file: "Please select a file to upload" and no call; success closes, drops the file, resets the form and reloads, leaving the reloaded list (or, if the reload rejects, the old list and its failure text); failure reports the message; a throw reports the bare failure |
| IdentityView.AddArgs | src/gt_frontend/src/components/IdentityManagement.tsx:64-72 | type, issuer and hash as typed; the issued date is exactly milliseconds times 1,000,000 and reads back as the same instant; the expiry is `[ms times 1,000,000]` iff a date was entered |
| IdentityView.AddedEntry | src/gt_frontend/src/components/IdentityManagement.tsx:74-82 | the record appended after an add; `AddedEntryUnrenderable` proves the list rendering cannot show it |
| IdentityView.AddedEntryUnrenderable | src/gt_frontend/src/components/IdentityManagement.tsx:74-82 | the entry appended after an add has no status and no `credentialType`, so the list rendering throws on it |
| IdentityView.ListedEntryRenderable | src/gt_frontend/src/components/IdentityManagement.tsx:186-187 | appending the credential as returned keeps a renderable list renderable |
| IdentityView.CountLabel | src/gt_frontend/src/components/IdentityManagement.tsx:160 | the count text; `CountLabelPlural` states its plural ending |
| IdentityView.CountLabelPlural | src/gt_frontend/src/components/IdentityManagement.tsx:160 | the count text ends in "s" exactly when the count is not 1 |
| IdentityView.IdentityPanel.constructor | src/gt_frontend/src/components/IdentityManagement.tsx:7-19 | no identity, no credentials, loading, empty form, modal closed |
| IdentityView.IdentityPanel.LoadIdentityData | src/gt_frontend/src/components/IdentityManagement.tsx:25-43 | identity is element 0 of the optional or absent; credentials default to `[]`; if either call rejects, neither field changes and the failure is reported |
| IdentityView.IdentityPanel.RegisterIdentity | src/gt_frontend/src/components/IdentityManagement.tsx:45-59 | `ok` becomes the identity; `err` is reported by its first key |
| IdentityView.IdentityPanel.HandleInputChange | src/gt_frontend/src/components/IdentityManagement.tsx:100-106 | only the named field changes |
| IdentityView.IdentityPanel.OpenAddCredential | src/gt_frontend/src/components/IdentityManagement.tsx:177 | opens the add-credential modal |
| IdentityView.IdentityPanel.CloseAddCredential | src/gt_frontend/src/components/IdentityManagement.tsx:287 | closes the add-credential modal |
| IdentityView.IdentityPanel.AddCredential | src/gt_frontend/src/components/IdentityManagement.tsx:61-98 | `ok`: the list gains exactly one entry at the end, the form resets, the modal closes; `err`: the list is unchanged and the first key is reported |

## Left out

- Money conversions `BigInt(Number.parseFloat(x) * 100)` are floating point. They enter as already-converted cents (`Option<int>`, where `None` means `BigInt` threw). No exact cents round trip is claimed.
- Date parsing with `new Date(text)` depends on the time zone. It enters as milliseconds (`Option<int>`).
- `Number.parseInt` of the loan duration and of the employment duration enter as `Option<int>` (`None` for a text that is not a number, such as the empty text).
- Number precision above 2^53 is not modelled: numbers and BigInts are both unbounded `int`.
- Wire.MillisToNanos, Wire.MillisRoundTrip, DappAssets.SaleArgs and IdentityView.AddArgs: present-day instants in nanoseconds exceed 2^53, so `getTime() * 1000000` and `Number(ns) / 1000000` round in the program. Sent values that are exactly milliseconds times 1,000,000, and instants that read back unchanged, hold of the model's unbounded integers, not of the program's doubles.
- `BigInt` of `0x`/`0o`/`0b` texts is not modelled.
- Object key order ignores the rule that places integer-like keys first.
- Auth client and actor creation are foreign library calls. They become `LoginOutcome`/`AuthClient` values and `Handle` records. A `createActor` that throws, and a failing `authClient.logout()`, are not modelled.
- Remote calls are network I/O. Each is a parameter carrying its outcome. `Promise.all` is two parameters. The order in which concurrent promises settle is not modelled.
- React's scheduling is not modelled: the batching of setter calls and renders that interleave with a pending handler. A handler's effect is its final state; `midway` in the `Login` methods records the one intermediate state the session invariants care about.
- JSX, CSS class strings, modal markup, `Intl.NumberFormat`, `toFixed`, `toLocaleString` and float percentages are display only. Only the predicates that choose them are modelled.
- The FileReader is modelled only through its `onload` callback (`OnFileRead`); reading errors are not.
- Verification.VerificationPanel.OnFileRead, JsString.Substring and JsString.Slice count characters (Unicode scalar values), while JavaScript strings count UTF-16 code units. On text outside the Basic Multilingual Plane (emoji, say) `substring(0, 1000)` keeps fewer characters than the model, and it can split a surrogate pair.
- `Number(tokenId)` in the fetch calls of the gt NFT view is not modelled. The calls' arguments are not part of the model; only the guard and the stored results are.
- `activeTab` in the lending view only switches JSX panes.
- The two Dashboard components, gt `Marketplace` (mock data) and `App.jsx` are not part of this model.
- `DappApp.Session.Valid` and `GtHome.HomeSession.Valid` state that a principal implies authentication, not the converse. The gt login sets authentication before the principal.
- The identity view calls the service through the module's default handle, which is not bound to the user's identity. The model does not represent that handle.
- Lending.StatusTone, DappMarketplace.StatusTone and Verification.StatusTone: `Object.keys(null)` throws in the source, while the model's `KeyText` reads a null status as the tag "undefined", which is grey.
- Verification.VerdictTone: a `null` element 0 of the verdict optional would make the source throw; the model reads it as grey.
- GtAssets.NftPanel.HandleMint: a reply that is not an object, on which `"ok" in res` would throw, is not representable; replies are always structured results.

## Findings

| source | as written | input that shows it | evidently intended | confidence | as-written member | corrected member |
|---|---|---|---|---|---|---|
| src/gt_frontend/src/components/LendingBorrowing.tsx:62,77,149,173; src/gt_frontend/src/components/PropertyVerification.tsx:33,87; src/gt_frontend/src/Home.tsx:60-76 | The gt views read `actors.lendingBorrowing` and `actors.propertyVerifier`, but the gt session stores its handles under `lending` and `rwaVerifier` | any signed-in session: the loan and submission lists load as empty, and every submit, payment or funding call throws | the views read the handles the session built (`lending`, `rwaVerifier`) | high, not executed | GtHome.ComponentLookupsMiss | GtHome.HomeSession.LendingHandle, GtHome.HomeSession.VerifierHandle |
| src/gt_frontend/src/components/IdentityManagement.tsx:74-82,186-187 | `addCredential` appends a new record with `type` instead of `credentialType` and no `status`; the list rendering calls `credential.status.toLowerCase()` | any `{ok: credential}` reply from `addVerifiableCredential` | append the credential as returned, so the list can render it | high, not executed | IdentityView.AddedEntryUnrenderable | IdentityView.ListedEntryRenderable |
