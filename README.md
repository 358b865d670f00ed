# A French storefront, modelled in Dafny

This project models the core of a Next.js storefront. The shop sells products from a
headless content service and takes orders for delivery. The model covers:

- the persisted shopping cart (`lib/hooks/useCart.ts`) and the components that drive
  it: the cart line, the cart drawer, the order summary with its delivery zones and
  fee, and the product page's purchase panel;
- the content-service client's pure parts (`lib/api/strapi.ts`): media URLs, the
  flattening of v4 records, the default query of `getProduits` and its error fallbacks;
- the product tile, the product listing endpoint and the catalogue filters that edit
  the URL's query string;
- the page sections renderer (`components/common/DynamicSections.tsx`);
- the three API routes that validate a JSON body with `zod`: orders, contact and
  newsletter. Also the order form validator and the two client forms, contact and
  delivery.

How the model represents the source:

- JSON bodies are the datatype `Json.Json`, and JavaScript numbers are `real`.
- Each `zod` schema is a predicate over `Json`. The address check of `.email()` is a
  parameter `isEmail`, since its regular expression belongs to the library.
- The cart store is a class whose `items` sequence each mutator reassigns.
- The form panels are classes whose fields are the components' state.
- Calls to the content and commerce services are parameters: their answer, or the
  function that computes it. So are the process environment (a `map`) and the clock
  (`now`).

## Model

| member | source | states |
|---|---|---|
| CartStore.FindIndex | lib/hooks/useCart.ts:27-32 | the index is the first line with the same id, variant type and variant value; it is -1 exactly when no line has that identity |
| CartStore.AddExistingMerges | lib/hooks/useCart.ts:34-40 | adding an item whose identity is present raises only that line's quantity by the added quantity; the length is unchanged |
| CartStore.AddNewAppends | lib/hooks/useCart.ts:41-43 | adding an item with a new identity appends it at the end |
| CartStore.AdjustmentIsNotIdentity | lib/hooks/useCart.ts:27-32 | two additions that differ only in `price_adjustment` merge into one line, which keeps the first adjustment |
| CartStore.AddedKeepsUnique | lib/hooks/useCart.ts:25-45 | `addItem` never creates two lines with one identity |
| CartStore.RemovedExactly | lib/hooks/useCart.ts:46-55 | `removeItem` keeps exactly the lines with another identity, and none with the given one |
| CartStore.RemovedKeepsOrder | lib/hooks/useCart.ts:48-53 | removal distributes over concatenation, so the remaining lines keep their order |
| CartStore.RemovedAbsentIsNoOp | lib/hooks/useCart.ts:46-55 | removing an identity that no line has leaves the list unchanged |
| CartStore.RemovedPresentShortensByOne | lib/hooks/useCart.ts:46-55 | when identities are unique, removing a present identity shortens the list by exactly one |
| CartStore.FilterKeepsUnique | lib/hooks/useCart.ts:48 | filtering a list with unique identities keeps them unique |
| CartStore.RemovedKeepsUnique | lib/hooks/useCart.ts:46-55 | `removeItem` keeps identities unique |
| CartStore.WithQuantity | lib/hooks/useCart.ts:59-65 | the mapping step of `updateQuantity` keeps the length of the list |
| CartStore.UpdatedSetsAndPrunes | lib/hooks/useCart.ts:56-68 | after `updateQuantity` every line is positive and every matching line holds the new quantity; a quantity of 0 or less removes the identity; lines with other identities are kept or dropped exactly as their own quantity decides |
| CartStore.UpdatedPositiveKeepsLine | lib/hooks/useCart.ts:56-68 | a positive quantity for a present identity leaves that line in the list with the new quantity |
| CartStore.UpdatedPositiveKeepsLength | lib/hooks/useCart.ts:56-68 | in a cart of positive lines, a positive update changes no length |
| CartStore.UpdatedKeepsUnique | lib/hooks/useCart.ts:56-68 | `updateQuantity` keeps identities unique |
| CartStore.TotalsAppend | lib/hooks/useCart.ts:70-75 | appending a line adds its quantity to the item count, and its unit price times quantity to the price |
| CartStore.TotalsReplace | lib/hooks/useCart.ts:70-75 | replacing one line changes each total by the difference between the old and the new line |
| CartStore.TotalsAdded | lib/hooks/useCart.ts:25-45 | `addItem` raises the item count by the added quantity; the price rises by the added quantity times the unit price of the line it lands on |
| CartStore.TotalItemsPositive | lib/hooks/useCart.ts:70 | in a cart of positive lines, the count is positive exactly when the cart is non-empty, and is at least the number of lines |
| CartStore.TotalPriceNonNegative | lib/hooks/useCart.ts:71-75 | positive quantities at non-negative unit prices never give a negative total |
| CartStore.UpdatedInPlace | lib/hooks/useCart.ts:56-68 | in a cart of positive lines with unique identities, a positive update of a present line replaces that line in place |
| CartStore.ReplacedQuantityTotals | lib/hooks/useCart.ts:70-75 | setting one line's quantity moves the count by the change, and the price by the change times the line's unit price |
| CartStore.UpdatedTotals | lib/hooks/useCart.ts:56-75 | in such a cart, `updateQuantity` moves both totals by the change in quantity |
| CartStore.AddedKeepsPositive | lib/hooks/useCart.ts:25-45 | adding a positive quantity keeps every line positive |
| CartStore.TotalPriceExample | lib/hooks/useCart.ts:71-75 | a worked total: the base price plus the variant adjustment, times the quantity, summed |
| CartStore.Cart.constructor | lib/hooks/useCart.ts:24 | the store starts empty |
| CartStore.Cart.AddItem | lib/hooks/useCart.ts:25-45 | the new list is the old one with the item merged or appended; the item count rises by its quantity; unique identities stay unique; a positive addition keeps every line positive |
| CartStore.Cart.RemoveItem | lib/hooks/useCart.ts:46-55 | the new list is the old one without the identity; unique identities stay unique, and positive lines stay positive |
| CartStore.Cart.UpdateQuantity | lib/hooks/useCart.ts:56-68 | the new list is the updated and pruned old one; all its lines are positive; unique identities stay unique |
| CartStore.Cart.ClearCart | lib/hooks/useCart.ts:69 | the list becomes empty |
| CartItemView.ItemPrice | components/cart/CartItem.tsx:26 | the line's displayed price (with `\|\| 0`) equals the store's unit price (with `?? 0`) |
| CartItemView.HandleQuantityChange | components/cart/CartItem.tsx:18-24 | a quantity below 1 removes the line; any other quantity is set on it |
| CartItemView.Decrement | components/cart/CartItem.tsx:53 | the minus button requests the quantity less one |
| CartItemView.Increment | components/cart/CartItem.tsx:75 | the plus button requests the quantity plus one |
| CartItemView.OnInput | components/cart/CartItem.tsx:62-65 | typed text that is not a number changes nothing; a number is requested as the new quantity |
| CartItemView.Trash | components/cart/CartItem.tsx:85 | the trash button removes the line's identity |
| CartItemView.BelowOneRemoves | components/cart/CartItem.tsx:18-24 | any requested quantity below 1 leaves no line with that identity; other lines are untouched |
| CartItemView.MinusOnOneRemoves | components/cart/CartItem.tsx:53 | the minus button on a line of quantity 1 removes that line and nothing else |
| CartItemView.PlusAddsOne | components/cart/CartItem.tsx:75 | in a cart of positive lines with unique identities, the plus button keeps the length, and the line with that identity holds exactly one more |
| CartItemView.PlusRaisesTotals | components/cart/CartItem.tsx:75 | in a cart of positive lines with unique identities, the plus button raises the item count by exactly one and the price by the line's unit price |
| CartItemView.InputSetsAbsolute | components/cart/CartItem.tsx:62-65 | a typed quantity of at least 1 is stored as is, not added |
| CartDrawerView.DrawerBody | components/cart/CartDrawer.tsx:55-68 | the body shows loading exactly before hydration (when "Voir le panier" is disabled), the empty message exactly for a hydrated empty cart, and the lines exactly when checkout is enabled |
| CartDrawerView.AriaLabel | components/cart/CartDrawer.tsx:38 | the label starts "Panier, " and ends in the plural "s" exactly when the count exceeds 1 |
| CartDrawerView.NotHydratedShowsNothing | components/cart/CartDrawer.tsx:41-94 | before hydration there is no badge, both buttons are disabled and both totals are 0 |
| CartDrawerView.BadgeIffCheckoutEnabled | components/cart/CartDrawer.tsx:41-94 | in a cart of positive lines, the badge shows exactly when checkout is enabled |
| CartDrawerView.ShownTotalsMatchBody | components/cart/CartDrawer.tsx:26-68 | in a cart of positive lines, the count shown (`ShownTotalItems`) is positive exactly when the lines are listed, and then at least their number; when they are not, both totals (with `ShownTotalPrice`) show 0; with no negative unit price the price shown is never negative |
| CartSummaryView.FindZone | components/cart/CartSummary.tsx:61-64 | the zone found is the first listed zone with the id; none is found exactly when no listed zone has it |
| CartSummaryView.Summary.constructor | components/cart/CartSummary.tsx:37-52 | no zones, no selection, a fee of 0, zones loading, nothing reported |
| CartSummaryView.Summary.LoadZones | components/cart/CartSummary.tsx:54-77 | a successful load stores the zones, and when the page passes a non-zero zone id the matching zone becomes the selection; a failure keeps everything; loading always ends; the reported fee stays the fee shown |
| CartSummaryView.Summary.RefreshFee | components/cart/CartSummary.tsx:80-122 | the fee becomes the fee after one effect run (`FeeAfter`), and is reported to the page; the quoted zone (`Quoted`) replaces the selection only when it is listed; the calculating flag ends lowered |
| CartSummaryView.Summary.HandleZoneChange | components/cart/CartSummary.tsx:125-130 | the selection becomes the listed zone with the parsed id, or none; the id reported is that zone's id; the reported fee stays the fee shown |
| CartSummaryView.TotalAfterRefresh | components/cart/CartSummary.tsx:80-132 | the shown total (`Total` of `FeeAfter`) is the subtotal plus the quoted fee when a quote was asked for and came back, else the subtotal |
| CartSummaryView.EmptyCartNoFee | components/cart/CartSummary.tsx:84 | an empty cart asks for no fee and is charged none (`FeeAfter` is 0), whatever the zone |
| CartSummaryView.ChosenZoneIsQueried | components/cart/CartSummary.tsx:49-130 | choosing a listed zone selects that very zone; the id the next fee request uses (`SelectedZoneId`) is that zone's unless the page passes its own, which wins |
| ProductDetailsView.FindVariant | components/product/ProductDetails.tsx:80-84 | the variant found is the first of the product's variants with the chosen value; none is found exactly when no variant has it |
| ProductDetailsView.AddedLineCostsShownPrice | components/product/ProductDetails.tsx:51-86 | the unit price the cart charges for the added line (`LineToAdd`) is the price the page shows |
| ProductDetailsView.SameChoiceSameLine | components/product/ProductDetails.tsx:47-64 | two additions (`LineToAdd`, with `LineImage`) with the same choice land on the same cart line, whatever their quantities |
| ProductDetailsView.EnabledMeansWithinStock | components/product/ProductDetails.tsx:153-155 | when the button is enabled, the line's quantity lies between 1 and the available stock (`AvailableStock`: the chosen variant's when it declares one, else the product's), and a product with variants has one chosen |
| ProductDetailsView.AcceptedQuantityWithinStock | components/product/ProductDetails.tsx:73-78 | a quantity the field accepts never puts the product out of stock; the button is then disabled only while a variant is still to be chosen |
| ProductDetailsView.Panel.constructor | components/product/ProductDetails.tsx:28-31 | the panel starts with quantity 1 and no variant |
| ProductDetailsView.Panel.ResetOnProduct | components/product/ProductDetails.tsx:41-44 | a new product resets the quantity to 1 and clears the variant |
| ProductDetailsView.Panel.HandleQuantityChange | components/product/ProductDetails.tsx:73-78 | a parsed quantity between 1 and the available stock is taken; any other input changes nothing |
| ProductDetailsView.Panel.HandleVariantChange | components/product/ProductDetails.tsx:80-84 | the selection becomes the variant with that value, and the quantity goes back to 1 |
| ProductDetailsView.Panel.HandleAddToCart | components/product/ProductDetails.tsx:46-71 | the cart becomes the old cart with the panel's line added, and its item count rises by the chosen quantity |
| Strapi.StrapiBaseUrl | lib/api/strapi.ts:19 | the media base URL is the environment variable when it is set, else the local server |
| Strapi.MediaUrlIdempotent | lib/api/strapi.ts:397-400 | with an absolute base, resolving (`MediaUrl`) a resolved url changes nothing, and the result is absolute |
| Strapi.FormatMediaIdempotent | lib/api/strapi.ts:397-404 | with an absolute base, formatting a media (`FormatMedia`, which changes its url only) twice is formatting it once, and its url is then absolute or empty |
| Strapi.FlattenItem | lib/api/strapi.ts:115-120 | an element without `attributes`, and any array, is kept as is; only `null` and primitives are refused, as `in` throws on them |
| Strapi.FlattenV4Fields | lib/api/strapi.ts:116-117 | a flattened v4 element has exactly the attributes' keys and `id`, with the attributes' values; the element's own id is used only when the attributes have none, since the spread comes last |
| Strapi.FetchObjects | lib/api/strapi.ts:112-124 | the objects are the `data` array flattened element by element, in order; there are none when `data` is not an array, and otherwise exactly when it holds `null` or a primitive |
| Strapi.FlattenAll | lib/api/strapi.ts:115-120 | flattening keeps length and order, and fails exactly when some element is `null` or a primitive |
| Strapi.FlattenV5Unchanged | lib/api/strapi.ts:119 | a v5 answer, without `attributes`, is returned unchanged |
| Strapi.ProduitsQuery | lib/api/strapi.ts:133-156 | filters and sort are passed through; populate and pagination fall back to the defaults when absent or null, so the query never sends them null |
| Strapi.DefaultPageSize | lib/api/strapi.ts:140 | without explicit pagination the query asks for 100 records per page |
| Strapi.FailureLooksEmpty | lib/api/strapi.ts:157-180 | callers cannot tell a failure from an empty answer: both give `[]` (`ListOrEmpty`) and `null` (`FirstOrNull`) |
| Strapi.BySlugReturnsFirst | lib/api/strapi.ts:165-181 | for a well-formed v5 answer the first record is returned unchanged (`FirstOrNull` of `ListOrEmpty`) |
| ProductCardView.CardBase | components/product/ProductCard.tsx:28 | the base is the variable when it is set and non-empty, else the local server; it is never empty |
| ProductCardView.ImageUrlShapes | components/product/ProductCard.tsx:18-38 | every url `ImageUrl` computes is the stock picture, an absolute url from the data, or starts with the base |
| ProductCardView.PromoLowersPrice | components/product/ProductCard.tsx:85 | a shown promotion is below the price; a promotion of 0, or one not below the price, is never shown |
| ProductCardView.ButtonLabel | components/product/ProductCard.tsx:105-110 | the label is "Ajouter au panier" exactly when the button is enabled, that is for an "actif" product |
| ProductsRoute.BuildFilters | app/api/products/route.ts:26-42 | the statements build exactly the filters object `Filters` specifies |
| ProductsRoute.Filters | app/api/products/route.ts:26-42 | `actif` is always filtered; a category is filtered exactly when it is non-empty and not "all"; the name/description search exactly when the term is non-empty; no other key |
| ProductsRoute.ToFrontend | app/api/products/route.ts:54-70 | id, name, description, price and slug are copied; an image url exists exactly when the first image has a truthy url, and then starts with the variable's value, or with the text "undefined" when the variable is unset; the category is the first one, when there is one |
| ProductsRoute.Get | app/api/products/route.ts:19-81 | an unreadable request answers 500 with the message; otherwise the filters sent are exactly `Filters` of the two parameters and the answer is 200 with the fetched products mapped in order; a failed fetch, which `getProduits` turns into `[]`, answers 200 with an empty list |
| ProductFiltersView.Entries | components/product/ProductFilters.tsx:36-41 | the pairs with the name, no more, no fewer |
| ProductFiltersView.Others | components/product/ProductFilters.tsx:36-41 | the pairs with another name, no more, no fewer |
| ProductFiltersView.FirstNamed | components/product/ProductFilters.tsx:38 | the position of the first pair with the name, or -1 exactly when none has it |
| ProductFiltersView.DeletedExactly | components/product/ProductFilters.tsx:40 | deleting leaves no pair with the name and every other pair, in order |
| ProductFiltersView.SetLeavesOne | components/product/ProductFilters.tsx:38 | setting leaves exactly one pair with the name, holding the value |
| ProductFiltersView.SetKeepsOthers | components/product/ProductFilters.tsx:38 | setting keeps every pair with another name, in order |
| ProductFiltersView.SearchParams.constructor | components/product/ProductFilters.tsx:36 | the parameters are a copy of the current ones |
| ProductFiltersView.SearchParams.Set | components/product/ProductFilters.tsx:38 | the list becomes the old one with the name set |
| ProductFiltersView.SearchParams.Delete | components/product/ProductFilters.tsx:40 | the list becomes the old one without the name |
| ProductFiltersView.CreateQueryString | components/product/ProductFilters.tsx:34-45 | a value other than "" and "all" leaves exactly the pair (name, value); "" or "all" leaves none; every other parameter is kept in order |
| ProductFiltersView.Panel.constructor | components/product/ProductFilters.tsx:24-26 | the search field starts with the prop's term |
| ProductFiltersView.Panel.SyncSearchTerm | components/product/ProductFilters.tsx:29-31 | a new prop term replaces the field's text |
| ProductFiltersView.Panel.Type | components/product/ProductFilters.tsx:74 | typing replaces the field's text and nothing else |
| ProductFiltersView.Panel.HandleCategoryChange | components/product/ProductFilters.tsx:48-50 | the navigation goes to /produits with only `categorie` changed |
| ProductFiltersView.Panel.HandleSearchSubmit | components/product/ProductFilters.tsx:53-56 | the navigation goes to /produits with only `search` changed, to the field's text |
| ProductFiltersView.AllClearsCategory | components/product/ProductFilters.tsx:93-97 | choosing the "all" entry removes the category from the query, whatever the current query holds: the value "all", which `ShownCategory` shows for an empty slug, leaves no `categorie` pair |
| DynamicSections.Dispatch | components/common/DynamicSections.tsx:17-33 | a section gets a renderer exactly when its `__component` is one of the six tags, and each tag gets its own renderer: the tag at each position of `Tags` selects the renderer at the same position of `Renderers` |
| DynamicSections.RecognisedTagsAreSectionTags | components/common/DynamicSections.tsx:17-33 | every recognised tag starts with "sections."; a "shared." tag renders nothing |
| DynamicSections.RenderSectionsConcat | components/common/DynamicSections.tsx:11-35 | sections render independently: the renderers `RenderSections` gives a joined list are those of its halves, in order, one per section |
| DynamicSections.BackgroundClass | components/common/DynamicSections.tsx:42-51 | a known colour gives its class; anything else gives the grey default |
| DynamicSections.TextAlignClass | components/common/DynamicSections.tsx:55-57 | text is centred exactly when `centrer_texte` is truthy |
| DynamicSections.ImageAlt | components/common/DynamicSections.tsx:74 | the alt text is always truthy: the image's alternative text, else the title, else "Image" |
| DynamicSections.PositionClass | components/common/DynamicSections.tsx:76-83 | each known position gives its class; anything else gives the left layout; the class is always one of the four |
| DynamicSections.LinkAttributesOf | components/common/DynamicSections.tsx:112-119 | an absolute link opens in a new tab without opener or referrer; any other link has neither attribute; a new tab is always opened without opener or referrer |
| DynamicSections.ColumnsClass | components/common/DynamicSections.tsx:132-139 | 2 or 4 columns, given as a number or a string, select their classes; anything else gives 3; the class is always one of the three |
| DynamicSections.LayoutOf | components/common/DynamicSections.tsx:138-141 | the carousel is chosen exactly for "carrousel" |
| DynamicSections.GalleryAlt | components/common/DynamicSections.tsx:153 | the alt text is always truthy: the alternative text when truthy, else "Image " followed by nothing but the digits of the one-based position |
| DynamicSections.WhatsAppHref | components/common/DynamicSections.tsx:258 | the link starts with the wa.me prefix and carries only digits after it, never more than the number's length |
| DynamicSections.WhatsAppIgnoresSeparators | components/common/DynamicSections.tsx:258 | inserting spaces, '+', '-' or any other non-digit into the number does not change the link |
| OrdersRoute.RejectedOrders | app/api/orders/route.ts:6-25 | for any string `m` outside the three payment methods, any non-integer zone id `x` and any total `t` at most 0, an order carrying it is refused, as is an order with no line |
| OrdersRoute.Payload | app/api/orders/route.ts:16-39 | the payload keeps exactly the schema's keys, with their values; its `ligne_commandes` are the lines stripped one by one (`StripLignes`), in order, each keeping exactly its declared keys (`StripLigne`) |
| OrdersRoute.PayloadStaysValid | app/api/orders/route.ts:16-39 | the payload passes the schema again, and stripping it again changes nothing |
| OrdersRoute.Post | app/api/orders/route.ts:27-69 | a body that is not JSON answers 500; an invalid one 400, with nothing sent; a valid one sends the payload, and answers 201 with the created order's id, number and date, or 500 when the commerce call fails |
| OrdersRoute.StatusMapping | app/api/orders/route.ts:27-69 | the status is 400 exactly for a parsed invalid body; 201 exactly when the call succeeded; success exactly for 201 |
| OrderValidator.BoundedIssues | lib/validators/order.ts:5-19 | no issue exactly when the field is a string within bounds; a too-short or too-long string gives its own message; at most one issue, on that field |
| OrderValidator.RemarquesIssues | lib/validators/order.ts:20-22 | no issue exactly when `remarques` is absent or a string of at most 500 characters |
| OrderValidator.Issues | lib/validators/order.ts:4-23 | no issues exactly when the data is valid; at most six, each on a schema key or on the root |
| OrderValidator.ValidateOrderForm | lib/validators/order.ts:26-28 | success exactly for valid data, carrying only the schema's keys and their values; otherwise the non-empty list of issues |
| OrderValidator.TwoFailingFieldsTwoIssues | lib/validators/order.ts:5-10 | for any name shorter than 2 characters and a telephone longer than 20, with the other fields within bounds, validation gives exactly two issues, in key order, with their messages |
| OrderValidator.ValidatedDataRevalidates | lib/validators/order.ts:26-28 | validating validated data gives the same result |
| OrderFormView.TelephoneShape | components/order/OrderForm.tsx:33 | the pattern accepts an optional leading '+' followed by 8 to 20 digits, spaces, hyphens or parentheses, and no '+' elsewhere |
| OrderFormView.TelephoneExamples | components/order/OrderForm.tsx:33 | eight spaces match; a local number with a country prefix matches; an inner '+' or seven digits do not |
| OrderFormView.BlankEmailBlocksOrder | components/order/OrderForm.tsx:38 | as written, a blank email stops the submission whatever the rest holds; corrected, the delivery fields decide |
| OrderFormView.HandleSubmitAsWritten | components/order/OrderForm.tsx:31-62 | as written, the values reach `onSubmit` unchanged exactly when the schema, email included, accepts them; the delivery fields are then valid |
| OrderFormView.HandleSubmit | components/order/OrderForm.tsx:31-62 | (corrected model) the values reach `onSubmit` unchanged; with a blank email exactly when the delivery fields are valid; with a typed email exactly as the form as written decides; whatever the form as written submits is submitted |
| OrderFormView.SubmittedMeetsMinimums | components/order/OrderForm.tsx:49-62 | the untouched form is never submitted; a submitted one meets the endpoint's minimums for name, telephone, city and postal code |
| OrderFormView.ShortAddressPassesForm | components/order/OrderForm.tsx:34 | with any valid email, a five-character address passes the form as written and as corrected, although the order endpoint asks for ten |
| OrderFormView.SubmitButton | components/order/OrderForm.tsx:165-173 | the button is disabled, and shows the sending label, exactly while submitting |
| ContactRoute.CleanData | app/api/contact/route.ts:37-43 | name, subject and message are trimmed, the email trimmed and lower-cased; none exceeds its bound |
| ContactRoute.CleanIsStable | app/api/contact/route.ts:37-43 | a clean record is a fixed point of cleaning |
| ContactRoute.DomainText | app/api/contact/route.ts:50 | the text after the first '@' up to the next one; "undefined" without any '@' |
| ContactRoute.DomainTextBetween | app/api/contact/route.ts:50 | for `local@domain` followed by nothing or by another '@', the text shown is exactly the domain |
| ContactRoute.MaskedLogHidesLocalPart | app/api/contact/route.ts:49-51 | the log shows the domain and at most three characters of the local part: addresses that agree there log the same line |
| ContactRoute.Post | app/api/contact/route.ts:23-87 | a body that is not JSON answers 500; an invalid one 400; a valid one 201 with the clock's reference and the masked log; a record exists exactly for 201, which needs `consentement` true, and is clean: trimmed fields, a cleaned email, within the bounds |
| ContactRoute.ConsentRequired | app/api/contact/route.ts:17-20 | without `consentement: true` the answer is 400; a 201 means consent and a message within bounds |
| ContactRoute.PaddedNameAccepted | app/api/contact/route.ts:8-11 | bounds apply before trimming: a name of two spaces is accepted, stored as "" and logged as "undefined" |
| NewsletterRoute.StoredEmailIsClean | app/api/newsletter/route.ts:30-37 | the stored email of the subscriber record (`MakeSubscriber`) is a fixed point of cleaning |
| NewsletterRoute.Post | app/api/newsletter/route.ts:14-73 | a body that is not JSON answers 500; an invalid one 400, logging nothing; a valid one 201 with the subscriber and its masked log line; a line is logged exactly for 201, which needs consent true, and the stored email is clean and the source never "" |
| NewsletterRoute.SignUpRules | app/api/newsletter/route.ts:5-36 | consent must be exactly true; a null source is refused; an absent or empty source is accepted and stored as null (`SourceOrNull`) |
| ContactFormView.BodyAsWritten | components/common/ContactForm.tsx:52-56 | the posted body has the four fields and no `consentement` |
| ContactFormView.AsWrittenAlwaysRefused | components/common/ContactForm.tsx:55 | the contact endpoint answers 400 to every body the form sends as written |
| ContactFormView.BodyMeetsSchema | components/common/ContactForm.tsx:52-56 | for a message within the endpoint's bounds, the corrected body (`Body`) meets the contact schema exactly when consent is given |
| ContactFormView.BodyWithConsentAccepted | components/common/ContactForm.tsx:52-56 | with consent in the corrected body (`Body`), a message within the endpoint's bounds answers 201; without it, 400 |
| ContactFormView.FormLooserThanEndpoint | components/common/ContactForm.tsx:22-31 | a subject under five characters or a message under twenty passes the form, and the endpoint refuses it |
| ContactFormView.ErrorDescription | components/common/ContactForm.tsx:71 | the answer's message when truthy, else the fixed fallback; the description is never empty |
| ContactFormView.ToastFor | components/common/ContactForm.tsx:58-82 | the toast is destructive exactly when the form does not reset; the network toast exactly for a network failure or an error body that is not JSON or is `null` (reading `message` of `null` throws); otherwise the error toast carries the answer's message |
| ContactFormView.RefusedShowsFallback | components/common/ContactForm.tsx:66-74 | the endpoint's 400 body has no message, so the fallback is shown |
| ContactFormView.SubmitButton | components/common/ContactForm.tsx:151-163 | disabled, with the sending label, exactly while submitting |
| ContactFormView.ContactForm.constructor | components/common/ContactForm.tsx:41-46 | empty fields, no consent, not submitting, no toast |
| ContactFormView.ContactForm.Edit | components/common/ContactForm.tsx:41-46 | typing replaces the values only |
| ContactFormView.ContactForm.SetConsent | app/api/contact/route.ts:17-20 | the consent box sets the consent only |
| ContactFormView.ContactForm.BeginSubmit | components/common/ContactForm.tsx:49-56 | (corrected model) accepted values raise the flag and send the body with the consent box's value; refused values change and send nothing |
| ContactFormView.ContactForm.FinishSubmit | components/common/ContactForm.tsx:58-85 | one toast is added; only a successful answer resets the form; the flag is always lowered |
| ContactFormView.SubmitToEndpoint | components/common/ContactForm.tsx:49-86 | (corrected model) valid values with consent, answered by the contact endpoint, give 201, reset the form and show the success toast |
| Env.GetEnv | lib/env.ts:10-20 | the variable when set, else the default, else ""; an error, naming the key, exactly when required and the value resolves to ""; a required success is never empty |
| Env.NotRequiredNeverRaises | lib/env.ts:16 | reading without `required` never raises |
| Env.EnvOrEmpty | lib/env.ts:15-19 | without default or `required`: the variable, or "" |
| Catalog.FirstImageUrl | app/api/products/route.ts:61 | a first-image url exists exactly when the first image has a non-empty url, and is that url |
| Common.TrimIdempotent | app/api/contact/route.ts:39-42 | trimming twice is trimming once |
| Common.TrimToLower | app/api/contact/route.ts:40 | trimming and lower-casing commute |
| Common.CleanEmailIdempotent | app/api/newsletter/route.ts:30 | cleaning a clean email changes nothing |
| Common.Split | app/api/contact/route.ts:50 | splitting always gives at least one piece |
| Common.SplitFirst | app/api/contact/route.ts:50 | the text before the first separator is the first piece |
| Common.Slice | app/api/contact/route.ts:50 | `slice(0, n)` is the prefix of length n, or the whole string when shorter |
| Common.DigitsOnly | components/common/DynamicSections.tsx:258 | the result holds only digits and keeps a string of digits as is |
| Common.DigitsOnlyConcat | components/common/DynamicSections.tsx:258 | removing non-digits distributes over concatenation |
| Common.NatToString | app/api/newsletter/route.ts:34 | the decimal text is non-empty and all digits, one digit exactly below 10 |

## Left out

- Prices, quantities and totals are integers. Floating-point rounding of `reduce`, and a store total that is not a number, are not modelled.
- CartStore.UnitPrice: a `price_adjustment` of `null`, which `?? 0` turns into 0, is not distinguished from an absent one. The same holds for a `null` `quantite_stock`.
- The cart's persistence in `localStorage` and the hydration itself: the `isHydrated` flag is an input.
- Common.ToLower: lower-cases the ASCII letters only. String lengths count characters, not UTF-16 code units.
- CartSummaryView.Summary.RefreshFee: one run of the debounced effect. The 500 ms timer, the cancelling of a pending run and answers that arrive out of order are not modelled. The `calculatingFee` flag is the local one; the parent's controlled copy is not modelled.
- Toasts and console output are left out, except the toasts of the contact form, the masked log line of the contact route and that of the newsletter route. The contact route's second log, the simulated email with the subject and the message's first 50 characters (app/api/contact/route.ts:51-53), is not modelled.
- ProductFiltersView.CreateQueryString: works on the list of name-value pairs. Percent-encoding and serialisation of the query string are left out.
- `getBannieresActives` and the other content-service fetchers, apart from `getProduits` and `getProduitBySlug`, are not part of this model. So are `fetchStrapi`'s HTTP plumbing and headers, `lib/api/laravel.ts`, and the request plumbing of the commerce service: their answers are parameters.
- Lookups in the sections' class tables ignore keys inherited from the object prototype (such as "toString").
- A `null` element in the sections list, which throws while rendering, is not modelled.
- DynamicSections.GalleryAlt: a `null` entry in a gallery's `images` list throws at `img.url` and `img.alternativeText` while rendering (components/common/DynamicSections.tsx:152-153 and 180-181); the model gives it the default alt text instead, because the rendering of the whole section is not modelled.
- DynamicSections.SectionImageUrl: an image url that is not a string is treated as absent.
- The JSX markup, the CSS classes other than the computed ones, and the carousel's own behaviour are left out.
- Zod's flattened error objects and its message wording are left out. OrderValidator models the kind of each issue and the schema's own messages only.
- A `zod` `.email()` check is the parameter `isEmail`; its regular expression is not modelled.
- A body that `request.json()` cannot parse is an absent body (`None`).
- Response headers (`Cache-Control`, `Content-Security-Policy`) are not modelled.
- ContactFormView.ContactForm.SetConsent: the form has no consent box as written. The field belongs to the corrected model described under Findings.
- ContactFormView.ContactForm.BeginSubmit: models the corrected form, which posts `Body` with the consent box's value. The form as written posts `BodyAsWritten`, which carries no consent; `AsWrittenAlwaysRefused` states what the endpoint then answers.
- ContactFormView.SubmitToEndpoint: a run of the corrected form. With the form as written the same values are answered 400 (`AsWrittenAlwaysRefused`).
- OrderFormView.HandleSubmit: models the corrected gate, where a blank email counts as absent. The gate as written is `HandleSubmitAsWritten`.
- Strapi.FlattenItem: `attributes` that are not an object are flattened as `{}`. JavaScript spreads a string or an array into index keys, and the element's `id` key is always present, possibly `undefined`; the model leaves the key out when the element has no `id`.

Discrepancies the model exhibits without marking them as findings:

- The orders route reads `id`, `numero_commande` and `created_at` from the created order, while `types/laravel.ts` declares `order_id` and `order_number`.
- The products route prefixes image urls with the literal text "undefined" when `NEXT_PUBLIC_STRAPI_URL` is unset.
- `getProduits` turns every failure into `[]`, so the listing answers 200 with an empty list.
- Each client form's minimums are looser than its endpoint's: address 5 against 10, subject 3 against 5, message 10 against 20.
- The telephone pattern accepts eight spaces.
- The section renderer recognises only `sections.*` tags, while the content types declare `__component` values `shared.*` (types/strapi.ts:47, 55, 65 and 73); `RecognisedTagsAreSectionTags` shows that such a section renders nothing, so if the types are right no section renders.

## Findings

| source | as written | input that shows it | evidently intended | confidence | as-written member | corrected member |
|---|---|---|---|---|---|---|
| components/common/ContactForm.tsx:55 | the form posts `nom`, `email`, `sujet` and `message` only, while the contact endpoint requires `consentement: true` (app/api/contact/route.ts:17-20) | any valid message, e.g. nom "Awa", a valid email, a 5-character subject and a 20-character message: the endpoint answers 400 | the form collects the visitor's consent and posts it, so a valid message is accepted with 201 | not executed | ContactFormView.AsWrittenAlwaysRefused | ContactFormView.BodyWithConsentAccepted |
| components/order/OrderForm.tsx:38 | the optional email is `z.string().email().optional()` but its default value is "" (line 56), and "" is present, so it must be an address | a customer who fills every delivery field correctly and leaves the email blank cannot submit | a blank email counts as no email and the order goes through | not executed | OrderFormView.BlankEmailBlocksOrder | OrderFormView.HandleSubmit |
