# Storefront decision logic, modelled in Dafny

This project models the small decision and lookup routines inside the
storefront's product and navigation components. It covers six components:

- **AttributesHandler** (product page size/colour pickers). It has three scans over the
  product's `variantProducts`:
  - `generateLink` turns a (fieldCode, fieldValue) choice into a variant slug. `handleChange`
    navigates to that slug.
  - `getAttributesFromSlug` turns the current route into the variant's fieldCode→fieldValue map.
  - `getStockPerAttribute` turns a choice into a stock and pre-order record.

  The `TEMP_MAP` table picks the picker widget. `generateLink` and `getStockPerAttribute`
  visit every attribute of every variant; `getAttributesFromSlug` visits the attributes of
  every variant whose slug is the route's path. Each overwrites its result on every hit, so
  the **last** match in list order wins.
- **SearchProductCard** (listing tile):
  - the card's `{image, link}` state under swatch enter/leave, picture hover and product-slug
    change;
  - the colour-variation test;
  - the Notify Me / Pre-Order / Add to Basket decision.
- **RelatedProducts**: the in-place pass that gives each related item the list entry with the
  same stockCode. Also the heading and engraving choices of its rendering.
- **ProductDetails**: the `#rgb`/`#rrggbb` colour test, the swatch-or-text cell, the
  shipping/returns fallback texts and the four panels in order.
- **Navbar**: link normalisation (`hyperlinkHandler`), the greeting and account dropdown
  chosen by `user.userId`, and the direct-link-or-flyout choice per menu entry.
- **CheckoutForm**: the `isFormOpen` state of the new-address form, the choice of initial
  values, the selected-address marking and the completed-step summary.

Code that updates state step by step is imperative Dafny:
- `GenerateLink`, `GetAttributesFromSlug` and `GetStockPerAttribute` are methods with nested
  loops. Each is proved equal to a specification function (`LinkFor`, `AttributesFor`,
  `StockFor`), and lemmas state what those functions promise.
- The card state and the address form are classes.
- `ComputeRelatedItems` mutates `RelatedItem` objects in place.

Everything else is functions and lemmas.

Conventions for JavaScript values:
- An absent property (`undefined`) is `Option.None`.
- A falsy string is `""`, and a falsy stock count is `0`.
- Router navigation is a returned path, and the route's `slug` query is a parameter.
- The text constants of button and menu titles are enumerations.

Behaviours of the code that are easy to misread:
- `generateLink` returns the *last* matching variant, not the first, because its outer
  `find` callback never returns a truthy value
  (components/product/ProductView/AttributesHandler.tsx:26-34).
- The product-details panels are invoked with `{ attributes }` only. So `props.shippingMessage`
  and `props.returnsMessage` are always undefined, and both panels always show their
  placeholder (`PanelsShowPlaceholders`).

## Model

| member | source | states |
|---|---|---|
| `AttributesHandler.GenerateLink` | components/product/ProductView/AttributesHandler.tsx:24-36 | the nested scan's result equals `LinkFor`, the slug of the last variant carrying the pair, or "" |
| `AttributesHandler.LinkForNoMatch` | components/product/ProductView/AttributesHandler.tsx:24-36 | when no variant has an attribute equal to (fieldCode, fieldValue), the link is "" |
| `AttributesHandler.LinkForLastMatch` | components/product/ProductView/AttributesHandler.tsx:26-34 | the link is the slug of the last variant in list order that carries the exact pair |
| `AttributesHandler.LinkForSound` | components/product/ProductView/AttributesHandler.tsx:28-32 | a non-empty link is the slug of some variant carrying the exact pair |
| `AttributesHandler.HandleChange` | components/product/ProductView/AttributesHandler.tsx:38-43 | navigates to "/" + slug exactly when the resolved slug is non-empty, otherwise does nothing |
| `AttributesHandler.GetAttributesFromSlug` | components/product/ProductView/AttributesHandler.tsx:45-55 | the folded map equals `AttributesFor` on the path "products/" + route slug |
| `AttributesHandler.AttributesForNoMatch` | components/product/ProductView/AttributesHandler.tsx:45-55 | no variant with that path gives the empty map |
| `AttributesHandler.AttributesForLastMatch` | components/product/ProductView/AttributesHandler.tsx:47-54 | each key maps to the value of the last (variant, attribute) visited with that code among variants with the path |
| `AttributesHandler.AttributesForSound` | components/product/ProductView/AttributesHandler.tsx:48-51 | every key and its value come from one attribute of a variant whose slug is the path |
| `AttributesHandler.GetStockPerAttribute` | components/product/ProductView/AttributesHandler.tsx:59-85 | the overwritten record equals `StockFor`: the last matching variant's five fields, or the zero record |
| `AttributesHandler.StockForNoMatch` | components/product/ProductView/AttributesHandler.tsx:61-84 | nothing matches: stock 0, empty productId and stockCode, both flags false |
| `AttributesHandler.StockForLastMatch` | components/product/ProductView/AttributesHandler.tsx:69-83 | all five fields come from the same, last matching variant in list order |
| `AttributesHandler.StockForCaseInsensitive` | components/product/ProductView/AttributesHandler.tsx:71-73 | fieldCode keys that differ only in letter case give the same record |
| `AttributesHandler.WidgetFor` | components/product/ProductView/AttributesHandler.tsx:11-14 | "clothing.size" picks the dropdown, "global.colour" the horizontal list, any other code no widget |
| `AttributesHandler.PickerRows` | components/product/ProductView/AttributesHandler.tsx:90-104 | one picker per attribute option in order, with its widget, label, values and the current variant's value when present |
| `SearchProductCard.FirstOptionWithCode` | components/product/ProductCard/SearchProductCard.tsx:85-89 | the index found is the first option with the code, or none exists |
| `SearchProductCard.HasColorVariationFirst` | components/product/ProductCard/SearchProductCard.tsx:85-92 | colour variation holds iff the first "global.colour" option has at least one value |
| `SearchProductCard.NoColorOptionNoVariation` | components/product/ProductCard/SearchProductCard.tsx:85-92 | without a colour option, or without the option list, there is no colour variation |
| `SearchProductCard.FirstVariantWithValue` | components/product/ProductCard/SearchProductCard.tsx:96-100 | the index found is the first variant having any attribute with the value, whatever its code |
| `SearchProductCard.CardState.constructor` | components/product/ProductCard/SearchProductCard.tsx:40-43 | the state starts at the product's image and slug |
| `SearchProductCard.CardState.HandleVariableProduct` | components/product/ProductCard/SearchProductCard.tsx:94-110 | "enter" shows the first variant with the value, or leaves the state unchanged; any other event resets to the product |
| `SearchProductCard.CardState.HandleHover` | components/product/ProductCard/SearchProductCard.tsx:112-119 | only the image changes, never the link; nothing happens without a second image |
| `SearchProductCard.CardState.OnSlugChange` | components/product/ProductCard/SearchProductCard.tsx:77-83 | resets to the product when the stored link differs from its slug, otherwise keeps the state |
| `SearchProductCard.ButtonFor` | components/product/ProductCard/SearchProductCard.tsx:125-158 | no stock and no pre-order gives Notify Me; no stock with pre-order gives Pre-Order with its short message; otherwise Add to Basket; the two flags are never both set |
| `RelatedProducts.ComputeRelatedItems` | components/product/RelatedProducts/index.tsx:10-24 | same items in the same order; each item holds `[obj]` for the last entry sharing its stockCode, or its prior value |
| `RelatedProducts.LastWithCodeNone` | components/product/RelatedProducts/index.tsx:13-16 | an item whose stockCode no entry shares keeps its relatedProducts; an empty list changes nothing |
| `RelatedProducts.LastWithCodeLast` | components/product/RelatedProducts/index.tsx:13-20 | a matched item ends with the singleton of the last entry carrying its stockCode |
| `RelatedProducts.GroupView` | components/product/RelatedProducts/index.tsx:37-52 | a heading iff the item has relatedProducts; one card per entry; engraving only for "BS21554-DENIM-SM" |
| `RelatedProducts.MatchedItemShowsOneCard` | components/product/RelatedProducts/index.tsx:14-20 | after the pass a matched item always shows its heading and exactly one card |
| `ProductDetails.GroupsIff` | components/product/ProductDetails/index.tsx:6 | the repeated group accepts exactly hex runs of one or two groups of three |
| `ProductDetails.ColorRegexTestIff` | components/product/ProductDetails/index.tsx:6 | the test accepts exactly "#" followed by 3 or 6 hexadecimal digits of either case |
| `ProductDetails.ColorRegexRejectsLength` | components/product/ProductDetails/index.tsx:6 | the anchored pattern rejects every other length |
| `ProductDetails.ColorRegexCaseInsensitive` | components/product/ProductDetails/index.tsx:6 | lower-casing the input never changes the verdict |
| `ProductDetails.CellFor` | components/product/ProductDetails/index.tsx:17-24 | a value becomes a swatch iff it passes the colour test, otherwise the raw value is shown |
| `ProductDetails.ShippingText` | components/product/ProductDetails/index.tsx:53 | a truthy shipping message is shown, otherwise the placeholder |
| `ProductDetails.ReturnsText` | components/product/ProductDetails/index.tsx:61 | a truthy returns message is shown, otherwise the placeholder |
| `ProductDetails.DetailSections` | components/product/ProductDetails/index.tsx:35-65 | four panels in the order Description, Product specification, Shipping, Returns |
| `ProductDetails.PanelsShowPlaceholders` | components/product/ProductDetails/index.tsx:98 | panels receive only the attributes, so shipping and returns always show their placeholders |
| `Navbar.HyperlinkHandler` | components/common/Navbar/Navbar.tsx:64-66 | the output always begins with "/"; a link already beginning with "/" is kept, any other gets the prefix |
| `Navbar.HyperlinkHandlerIdempotent` | components/common/Navbar/Navbar.tsx:65 | normalising twice is normalising once, and "" becomes "/" |
| `Navbar.HyperlinkHandlerSuffix` | components/common/Navbar/Navbar.tsx:65 | normalisation only prepends: the input is a suffix of the output, at most one character shorter |
| `Navbar.Title` | components/common/Navbar/Navbar.tsx:93 | "Hi, " + firstName iff the user id is truthy, else "My account" |
| `Navbar.AccountDropdown` | components/common/Navbar/Navbar.tsx:36-97 | four entries ending with sign-out at "/" iff signed in, else login and register |
| `Navbar.SubItemHrefNotNormalised` | components/common/Navbar/Navbar.tsx:213 | sub-item hrefs are "/" + itemLink without normalisation, so a leading "/" is doubled |
| `Navbar.RenderNavItem` | components/common/Navbar/Navbar.tsx:134-246 | a direct link iff navBlocks is empty, a flyout panel of the blocks' sub-item hrefs otherwise |
| `Navbar.RenderMenu` | components/common/Navbar/Navbar.tsx:129-251 | one entry per menu item in order; every direct link starts with "/" |
| `CheckoutForm.AddressForm.constructor` | components/checkout/CheckoutForm/Form.tsx:23 | the form starts open iff there is no saved address |
| `CheckoutForm.AddressForm.PressAddButton` | components/checkout/CheckoutForm/Form.tsx:41-47 | a closed form opens without a new-address request; an open form hands its values on and stays open |
| `CheckoutForm.AddressForm.Close` | components/checkout/CheckoutForm/Form.tsx:163-166 | the new-address Cancel button (Form.tsx:163-171), like the callback given to handleNewAddress, always closes the form |
| `CheckoutForm.AddressForm.AddButtonLabel` | components/checkout/CheckoutForm/Form.tsx:154-161 | "Save" when open, "Add new address" when closed, no button for guests |
| `CheckoutForm.AddressForm.CancelShown` | components/checkout/CheckoutForm/Form.tsx:163 | the new-address Cancel button (Form.tsx:163-171) is offered only to a signed-in shopper with the form open |
| `CheckoutForm.InitState` | components/checkout/CheckoutForm/Form.tsx:49-51 | the current values when they have a property, else the initial values |
| `CheckoutForm.Cards` | components/checkout/CheckoutForm/Form.tsx:70-94 | one card per address; highlighted iff its id equals the current id; exactly one of the two icons |
| `CheckoutForm.AtMostOneSelected` | components/checkout/CheckoutForm/Form.tsx:79 | with distinct ids at most one address is highlighted |
| `CheckoutForm.MissingIdsMatch` | components/checkout/CheckoutForm/Form.tsx:79 | two absent ids compare equal, so such an address is highlighted |
| `CheckoutForm.SummaryOf` | components/checkout/CheckoutForm/Form.tsx:25-38 | the summary name is firstName + " " + lastName, with an absent name spelled "undefined" ("Ann undefined", "undefined Lee", "undefined undefined"); address1, address2, city, postCode and phoneNo are carried over |
| `CheckoutForm.Render` | components/checkout/CheckoutForm/Form.tsx:25-56 | a completed step renders only the summary; otherwise the cards and initState |

## Left out

- `Navbar.Title`, `RelatedProducts.ComputeRelatedItems`: `firstName`, `stockCode`,
  `hyperlink` and `slug` are plain strings, so they are assumed present. Two consequences are
  not modelled: a signed-in user without `firstName` is greeted "Hi, undefined"
  (components/common/Navbar/Navbar.tsx:93), and an item and a list entry that both lack `stockCode`
  match, because `undefined === undefined` (components/product/RelatedProducts/index.tsx:15).
- An absent `variantProducts`, `variantProductsMinimal`, `addresses` or `defaultValues`
  makes the source throw. Those inputs are always present in the model.
- Side effects: the wishlist calls (local storage and HTTP), adding to the cart, the
  notify-me dialog, logging, and the Navbar's currency/language switch (cookie, HTTP, page
  reload). Only the decisions that pick them are modelled.
- Router navigation is a returned path. The route's `slug` query is a string parameter, so
  a missing or array-valued query is not modelled.
- `Common.Lower`: models `toLowerCase` on ASCII letters only. Unicode case mapping is not
  modelled.
- `AttributesHandler.WidgetFor`, `AttributesHandler.PickerRows`: inherited object properties
  (a fieldCode such as "constructor") are not modelled. Such a code would find a truthy value
  in `TEMP_MAP`, and a truthy `currentAttribute` in `originalAttributes`, where the model gives
  no widget and `None`.
  Property names such as "__proto__" used as map keys are not modelled either.
- `SearchProductCard.CardState.HandleHover`: the source spreads the state captured at the
  last render. The model reads the current state, so stale React closures are not modelled.
- `SearchProductCard.ButtonFor`: stock counts are integers, and only 0 is falsy. A NaN or
  missing stock is not modelled.
- The text constants behind the titles are an enumeration. Their wording is not part of
  this model.
- Rendering, styling and Formik validation are left out. The schema is external, and the
  form fields are shown whenever `isFormOpen` holds.
- The category page's listing reducer (pages/category/[...category].tsx:95-119) is not
  modelled. It is outside the six modelled components.
- The edit-mode Cancel button (components/checkout/CheckoutForm/Form.tsx:204-211) is not
  modelled. It is shown whenever `closeEditMode` is truthy, guests included, and calls
  `closeEditMode` rather than closing the new-address form.
- Paging, infinite scroll, the progress bar, the layout, the search bar and the app shell
  are not part of this model. They are I/O, timers or pure rendering.
