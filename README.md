# A verified model of the porboi.in storefront logic

This project models, in Dafny, the decision logic of a Next.js bookshop front end and its three payment and
shipping API routes. It proves properties of that model. The parts modelled are:

- the cookie-backed client cart (`utils/cartUtils.js`), as a class whose one field is the `cart` cookie;
- the validators (e-mail, phone, Luhn card check, postcodes) and the text formatters (truncation, slugs, SKUs);
- the HTML-tag stripper and the local-storage rules of the WordPress JWT login (`lib/auth.js`);
- the cart summary arithmetic, shown beside the cart;
- the product grid, with its pagination window, sort-key mapping, price-range filter and page reset;
- the filter bar: the state it re-derives from the grid's filter record, single-key edits and the "active filters" badge;
- the shop page's server-side parameter building and category selection;
- the home page's category state machine and the hero carousel;
- the split of events into upcoming and past;
- the sign-up dialog's checks;
- the checkout page: form checks, rate selection, order payload and payment widget;
- the API routes `create-order`, `get-shiprocket-rates` and `verify-payment`.

Modelling choices:

- **Money** is an exact `real`. JavaScript's `Math.round` is `JsNumber.Round`, which rounds halves up.
- **Missing values.** JavaScript truthiness and `||` defaults are spelled out with `Option` and explicit
  comparisons with `""`, `0` or `false`. A string that `parseFloat` reads as NaN is `None`.
- **Remote calls** become function-typed parameters that return a `Result`. This covers the WooCommerce REST API,
  Razorpay, Shiprocket, the WordPress JWT endpoints and the rates route seen from the checkout page.
- **Persistent stores.** The `cart` cookie is an `Option<seq<CartLine>>`. Local storage is one `Option` field per
  key.
- **Handler results.** Each handler returns the response it sends together with the requests it made, or the whole
  trace of its calls. So "no downstream call on a bad signature" is a postcondition.
- **Crypto and serialization.** HMAC-SHA256 and `JSON.stringify` are function parameters. The signature check is
  the string equality of the header with `hmac(secret, serialize(body))`.
- **Dates** of events are integers: milliseconds since the epoch (midnight UTC of the date string), compared as
  `new Date` values are.

Where the code and its comments disagree, the model follows the code:

- The product grid treats a maximum of exactly 999 as "no upper bound". The filter bar's last range is
  `2000-999999`, so the sentinel never fires (`ProductGrid.OverRangeIsBounded`).
- The "active filters" badge also treats an empty `sortBy` as inactive, because `''` is excluded by its general
  rule.
- The checkout page checks the postcode against country `IN`, for which `validateZipCode` has no pattern (see Findings).

## Model

| member | source | states |
|---|---|---|
| CartStore.IndexOf | utils/cartUtils.js:12 | `find` by id: the result is the first line with the id, and there is none exactly when no line has it |
| CartStore.CartStore.constructor | utils/cartUtils.js:5-8 | a fresh store has no cookie and reads as the empty cart |
| CartStore.CartStore.GetCart | utils/cartUtils.js:5-8 | returns the cookie's lines, or `[]` when the cookie is absent |
| CartStore.CartStore.Find | utils/cartUtils.js:12 | the loop stops at the first line with the id, or at the end; this agrees with `IndexOf` |
| CartStore.CartStore.AddToCart | utils/cartUtils.js:10-28 | the returned cart is the old cart with the product merged into its line or appended, and it is what the cookie now holds |
| CartStore.CartStore.UpdateQuantity | utils/cartUtils.js:30-43 | on an absent id the cart and the cookie are unchanged; on a present id with quantity ≤ 0 it is exactly a removal; otherwise only that line's quantity becomes the new value, and the cookie persists it |
| CartStore.CartStore.RemoveFromCart | utils/cartUtils.js:45-50 | the filter loop yields exactly the lines without the id, in order, and the cookie persists them |
| CartStore.CartStore.ClearCart | utils/cartUtils.js:52-55 | the cookie is removed, so the store then reads as `[]` |
| CartStore.CartStore.GetCartTotal | utils/cartUtils.js:57-60 | the accumulating loop computes Σ price × quantity over the stored lines |
| CartStore.CartStore.GetCartItemCount | utils/cartUtils.js:62-65 | the accumulating loop computes the sum of quantities, not the number of lines |
| CartStore.ItemCountAppend | utils/cartUtils.js:57-65 | item count and total are additive over concatenated carts |
| CartStore.SumsAfterLineChange | utils/cartUtils.js:38 | replacing one line changes item count and total by exactly that line's difference |
| CartStore.CutSums | utils/cartUtils.js:47 | cutting line i out takes off exactly its quantity and its price × quantity |
| CartStore.SumsAround | utils/cartUtils.js:57-65 | the sums over `a + [l] + b` split into the three parts |
| CartStore.SingleTotal | utils/cartUtils.js:59 | a one-line cart totals price × quantity |
| CartStore.AddExisting | utils/cartUtils.js:12-15 | for a unique-id cart holding the id at i: only line i changes, by `quantity`; the line count stays; count and total grow by the added share |
| CartStore.AddNew | utils/cartUtils.js:16-24 | an absent id appends one line at the end: id, name, price, first image src or `''`, and the quantity; the sums grow by it |
| CartStore.AddKeepsIdsUniqueAndOrder | utils/cartUtils.js:11-24 | adding keeps ids unique, never shrinks the cart, and keeps the existing ids in their positions |
| CartStore.AddTwiceMerges | utils/cartUtils.js:12-23 | adding one new product with 2 and then 3 gives a single line of 5 |
| CartStore.RemovedAppend | utils/cartUtils.js:47 | removal distributes over concatenation |
| CartStore.RemovedAbsent | utils/cartUtils.js:47 | removing an id that no line has leaves the cart unchanged |
| CartStore.RemovedKeepsOthers | utils/cartUtils.js:47 | a line is kept iff it was in the cart and has another id; the cart never grows |
| CartStore.CutKeepsUnique | utils/cartUtils.js:47 | cutting one line out of a unique-id cart keeps ids unique |
| CartStore.RemoveExistingCuts | utils/cartUtils.js:47 | in a unique-id cart, removing a present id cuts out exactly its one line |
| CartStore.RemoveExisting | utils/cartUtils.js:45-50 | so the cart loses one line, together with that line's quantity and value, and ids stay unique |
| CartStore.SetQuantityChangesOneLine | utils/cartUtils.js:38-39 | setting a present quantity keeps ids unique, sets that line and no other, and shifts the count by the difference |
| Validation.IndexOfChar | utils/validation.js:3 | the first position of the character, or none exactly when it does not occur |
| Validation.EmailFromPattern | utils/validation.js:2-5 | any split into `local@middle.last` with non-empty runs free of white space and '@' is accepted |
| Validation.PatternFromEmail | utils/validation.js:2-5 | every accepted address has such a split |
| Validation.EmailMatchesPattern | utils/validation.js:2-5 | `validateEmail` holds iff the regex's three-run pattern matches: both directions |
| Validation.ValidateEmail | utils/validation.js:2-5 | an accepted address has at least five characters and neither starts nor ends with '@' |
| Validation.StripPhone | utils/validation.js:9 | the cleaned number has no white space, '-', '(' or ')', and is no longer than the input |
| Validation.StripPhoneAppend | utils/validation.js:9 | the stripping distributes over concatenation |
| Validation.PhoneIgnoresSeparators | utils/validation.js:7-10 | inserting a separator anywhere never changes the verdict |
| Validation.PhoneAcceptedShape | utils/validation.js:8 | an accepted number is an optional '+' then 1 to 16 digits, the first not '0' |
| Validation.ValidatePhone | utils/validation.js:7-10 | an accepted number has 1 to 17 characters once separators are stripped |
| Validation.LuhnTerm | utils/validation.js:23-26 | a digit's contribution is below 10 |
| Validation.RemoveSpaces | utils/validation.js:14 | the cleaned card number holds no white space |
| Validation.ValidateCreditCard | utils/validation.js:12-33 | the right-to-left loop with `sum` and `isEven` returns exactly `LuhnValid`: at least one digit, digits only after removing white space, Luhn sum ≡ 0 (mod 10) |
| Validation.CheckDigit | utils/validation.js:17-32 | the check digit is a single digit |
| Validation.CheckDigitCompletes | utils/validation.js:12-33 | appending the check digit to any digit string gives a number the validator accepts |
| Validation.RemoveSpacesOfDigits | utils/validation.js:14 | a digit string is left unchanged by the white space removal |
| Validation.LuhnSumChangeOne | utils/validation.js:20-30 | changing one digit changes the sum by exactly the difference of that position's two terms |
| Validation.LuhnDetectsSingleDigitError | utils/validation.js:12-33 | any single wrong digit in an accepted number makes it rejected |
| Validation.LuhnTermInjective | utils/validation.js:23-26 | distinct digits contribute distinct terms, doubled or not |
| Validation.ZipUnknownCountryRejects | utils/validation.js:35-42 | every country other than US, CA and GB, including IN, rejects every postcode |
| Validation.ValidateZipCode | utils/validation.js:35-43 | only US, CA and GB can accept; an accepted US code has 5 or 10 characters, a CA one 6 or 7, any accepted code at least 3 |
| Validation.SameClassesGb | utils/validation.js:39 | the GB pattern depends only on each character's class (digit, letter, space), not on the letter's case |
| Validation.SameClassesCa | utils/validation.js:38 | the same holds for the CA pattern |
| Validation.ZipIgnoresCase | utils/validation.js:38-39 | CA and GB postcodes are accepted regardless of letter case |
| Validation.UsZipShapes | utils/validation.js:37 | US accepts 5 digits and 5-4 with a hyphen, and rejects nine digits run together |
| Formatters.Prefix | utils/formatters.js:34 | `substring(0, maxLength)` has length maxLength, or 0 for a negative maxLength |
| Formatters.TruncateText | utils/formatters.js:32-35 | text no longer than maxLength is returned unchanged; longer text ends in "..." and is at most maxLength + 3 long |
| Formatters.TruncatedKeepsPrefixPiece | utils/formatters.js:34 | a truncation is the trimmed prefix plus "...", and that kept part is a piece of the prefix free of edge white space |
| Formatters.TruncateIdempotent | utils/formatters.js:32-35 | truncating again with room for the ellipsis changes nothing |
| Formatters.KeepSlugSource | utils/formatters.js:40 | after removing `[^\w ]` only word characters and spaces remain |
| Formatters.KeepSlugSourceNoUpper | utils/formatters.js:39-40 | the removal cannot bring back upper case |
| Formatters.DropSpaces | utils/formatters.js:41 | dropping a run of spaces leaves a suffix that does not start with a space |
| Formatters.Hyphenate | utils/formatters.js:41 | the hyphenation never lengthens the text |
| Formatters.HyphenateShape | utils/formatters.js:41 | on lower-case word characters and spaces the output is slug-shaped, and a leading '-' comes only from a leading space |
| Formatters.LowerAllHasNoUpper | utils/formatters.js:39 | `toLowerCase` leaves no ASCII capital |
| Formatters.SlugShape | utils/formatters.js:37-42 | every slug consists of `[a-z0-9_-]` and never contains "--" |
| Formatters.Slugify | utils/formatters.js:37-42 | a slug is never longer than its text |
| Formatters.KeepSlugSourceAppend | utils/formatters.js:40 | the removal distributes over concatenation |
| Formatters.LowerAllAppend | utils/formatters.js:39 | lowering distributes over concatenation |
| Formatters.SlugDropsInputHyphens | utils/formatters.js:37-42 | a hyphen in the input is deleted: `slugify(a-b) == slugify(ab)` |
| Formatters.LowerAroundHyphen | utils/formatters.js:39 | lowering leaves a hyphen in place |
| Formatters.KeepSkipsHyphen | utils/formatters.js:40 | the removal deletes a hyphen |
| Formatters.KeepAlnum | utils/formatters.js:45 | after removing `[^a-zA-Z0-9]` only ASCII letters and digits remain |
| Formatters.SkuLetters | utils/formatters.js:45-46 | the SKU's letter part is the first min(3, n) cleaned characters, upper-cased |
| Formatters.SkuNumber | utils/formatters.js:46 | the number part is max(4, length of the id's string) characters long |
| Formatters.GenerateSku | utils/formatters.js:44-47 | the SKU's length is min(3, cleaned name length) + max(4, id string length) |
| Formatters.SkuStartsWithName | utils/formatters.js:45-46 | the SKU begins with the upper-cased first cleaned characters of the name |
| Formatters.LeadingZerosValue | utils/formatters.js:46 | zero padding does not change a numeral's value |
| Formatters.SkuEndsWithId | utils/formatters.js:46 | for a non-negative id, the SKU's tail is digits whose value is the id |
| Formatters.SkuTail | utils/formatters.js:46 | the tail is the id's string left-padded with '0' to width 4 |
| Formatters.PaddedNumeral | utils/formatters.js:46 | the padded id string reads back as the id |
| Formatters.PaddedValue | utils/formatters.js:46 | padding any digit string keeps its value |
| Auth.AfterTag | lib/auth.js:21 | skipping to the end of a tag leaves a strictly shorter suffix, empty when no '>' follows |
| Auth.StripTags | lib/auth.js:21 | the stripped string holds no '<' and is no longer than the input |
| Auth.StripHtml | lib/auth.js:19-22 | a non-string is returned unchanged; a string loses every tag, so no '<' remains |
| Auth.StripTagsPlain | lib/auth.js:21 | a string without '<' is unchanged |
| Auth.StripHtmlIdempotent | lib/auth.js:19-22 | stripping twice equals stripping once |
| Auth.StripClosedTag | lib/auth.js:21 | a closed tag `<…>` after plain text is removed together with its '>' |
| Auth.StripOpenTag | lib/auth.js:21 | a '<' removes the following non-'>' characters and at most one '>' |
| Auth.SkipTag | lib/auth.js:21 | the tag's end is the first '>' |
| Auth.StripPrefixPlain | lib/auth.js:21 | plain text before a tag survives untouched |
| Auth.StripUnclosedTag | lib/auth.js:21 | an unclosed '<' removes everything after it |
| Auth.CleanMessage | lib/auth.js:57-58 | a present, non-empty server message is stripped; an absent or empty one gives the stripped fallback |
| Auth.StoredToken | lib/auth.js:37 | `setItem` stores the token, or the string "undefined" when there is none |
| Auth.AuthStore.constructor | lib/auth.js:24 | the store starts from the given browser flag and the given storage entries |
| Auth.AuthStore.Current | lib/auth.js:118-136 | a user is returned only in a browser with both a non-empty token and parsable user data, and it carries that token; otherwise null |
| Auth.AuthStore.Login | lib/auth.js:26-64 | success returns the token and user and, in a browser, stores both keys; failure stores nothing and returns the cleaned message or the default |
| Auth.AuthStore.Logout | lib/auth.js:139-145 | in a browser both keys are removed and the location becomes "/"; afterwards there is no user and no authentication |
| Auth.AuthStore.GetCurrentUser | lib/auth.js:118-136 | returns `Current()` |
| Auth.AuthStore.IsAuthenticated | lib/auth.js:148-153 | true exactly when a browser holds a non-empty token |
| Auth.LoginThenCurrent | lib/auth.js:36-43 | after a successful login, authentication holds iff the stored token is non-empty; a non-empty token yields the logged-in user |
| Auth.RegisterBody | lib/auth.js:67-75 | the request carries the five fields in place; first and last name default to `''` |
| Auth.RegisterOutcome | lib/auth.js:67-98 | success iff the call succeeded, with the fixed message; a 404 gives the fixed "unavailable" text; any other failure the cleaned message or the default |
| Auth.ValidateToken | lib/auth.js:102-115 | true exactly when the request with the Bearer header returns code `jwt_auth_valid_token`; false on any error |
| SignupModal.ValidateForm | components/auth/SignupModal.js:26-44 | valid iff passwords match, the password has ≥ 6 characters and the e-mail passes `validateEmail`; otherwise the first failing check, in that order, is reported |
| SignupModal.ValidFormShape | components/auth/SignupModal.js:26-44 | validity is the three conditions with the e-mail's three-run pattern in place of the regex |
| SignupModal.PasswordChecksFirst | components/auth/SignupModal.js:26-41 | an e-mail complaint implies the password checks passed |
| SignupModal.SignupDialog.constructor | components/auth/SignupModal.js:8-17 | no toast, not loading, nothing scheduled |
| SignupModal.SignupDialog.HandleSubmit | components/auth/SignupModal.js:46-77 | an invalid form shows its message and never calls register; a valid one sends the five fields in order, shows success or failure, and schedules the switch to login only on success; loading ends false |
| CartSummary.Shipping | components/cart/CartSummary.js:7 | shipping is 0 or 10, and 0 exactly when the subtotal exceeds 50 |
| CartSummary.Notice | components/cart/CartSummary.js:46-49 | the notice shows iff the subtotal is below 50, and its amount is positive and tops the subtotal up to 50 |
| CartSummary.ItemLabel | components/cart/CartSummary.js:17 | "item" exactly for one line, otherwise "items" |
| CartSummary.SummaryOf | components/cart/CartSummary.js:6-9 | the subtotal is the cart total, the label counts lines, total = subtotal × 1.08 + shipping, and shipping is free iff the subtotal exceeds 50 |
| CartSummary.ShippingMonotone | components/cart/CartSummary.js:7-49 | a larger subtotal never pays more shipping or shows a larger notice |
| CartSummary.TotalCoversSubtotal | components/cart/CartSummary.js:6-9 | with non-negative prices and quantities the total covers the taxed subtotal |
| CartSummary.TotalNonNegative | components/cart/CartSummary.js:6 | non-negative lines give a non-negative subtotal |
| CartSummary.LineCountAtMostItemCount | components/cart/CartSummary.js:17 | with positive quantities the labelled line count never exceeds the item count |
| CartSummary.NoticeAmountFallsShort | components/cart/CartSummary.js:7-49 | adding exactly the amount the notice asks for still leaves shipping charged |
| CartSummary.AtThresholdChargedSilently | components/cart/CartSummary.js:7-46 | at exactly 50, shipping is charged and no notice is shown |
| CartSummary.CorrectedShipping | components/cart/CartSummary.js:7 | corrected rule: free exactly from 50 up |
| CartSummary.CorrectedSummaryOf | components/cart/CartSummary.js:6-9 | the summary under the corrected rule keeps the same subtotal, label and total formula |
| CartSummary.CorrectedNoticeIsExact | components/cart/CartSummary.js:46-49 | under the corrected rule the notice shows exactly when shipping is charged, and paying its amount makes shipping free |
| Catalog.FindBySlug | components/shop/ProductFilter.js:15 | `find` by slug, shared by categories and attributes: the first item with the slug, or none exactly when no item has it |
| Catalog.Filter | pages/shop/index.js:269-273 | keeps exactly the categories that satisfy the predicate, and never grows |
| Catalog.FilterFilter | components/home/BookGrid.js:196-199 | filtering twice is filtering once by the conjunction |
| Catalog.FilterAppend | components/home/BookGrid.js:196 | filtering distributes over concatenation |
| ProductGrid.SortOrder | components/shop/ProductGrid.js:55-75 | price-asc, price-desc, name-asc and popularity map to their keys; every other value, 'newest' included, maps to date desc |
| ProductGrid.QueryFor | components/shop/ProductGrid.js:34-75 | the request carries the page, 12 per page, the category only when set, `instock` only when asked, the sale flag and the sort key |
| ProductGrid.QueryIgnoresPriceRange | components/shop/ProductGrid.js:77-78 | the price range is never sent to the server |
| ProductGrid.DefaultQuery | components/shop/ProductGrid.js:15-75 | the initial filters ask for page 1 of 12, newest first, with no other filter |
| ProductGrid.ParseRange | components/shop/ProductGrid.js:84 | the minimum is `Number` of the part before the first '-'; without a '-' there is no maximum |
| ProductGrid.KeepInRange | components/shop/ProductGrid.js:85-89 | keeps exactly the products whose price is in range |
| ProductGrid.FilterByPrice | components/shop/ProductGrid.js:83-90 | an empty range keeps everything; otherwise exactly the products in range |
| ProductGrid.KeepInRangeAppend | components/shop/ProductGrid.js:85-89 | the filter distributes over concatenation, so it keeps the page's order and repeated products |
| ProductGrid.KeepInRangeAllOrNone | components/shop/ProductGrid.js:85-89 | a page wholly in range is kept unchanged, and one wholly out of range is emptied |
| ProductGrid.FilterByPriceAppend | components/shop/ProductGrid.js:83-90 | the price step distributes over concatenation, so the server's sort order reaches the screen |
| ProductGrid.ParseRangeOfPair | components/shop/ProductGrid.js:84 | `a-b` with hyphen-free parts parses to Number(a) and Number(b) |
| ProductGrid.UnpricedDropped | components/shop/ProductGrid.js:86-88 | a product whose price parses as NaN is dropped by any non-empty range |
| ProductGrid.ValueOf2000 | components/shop/ProductFilter.js:43 | "2000" reads as 2000 |
| ProductGrid.ValueOf999999 | components/shop/ProductFilter.js:43 | "999999" reads as 999999 |
| ProductGrid.ValueOf999 | components/shop/ProductGrid.js:87 | "999" reads as 999 |
| ProductGrid.OverRangeIsBounded | components/shop/ProductGrid.js:87-88 | the "Over ₹2000" range `2000-999999` is bounded above: the 999 sentinel never applies to it |
| ProductGrid.SentinelRangeIsUnbounded | components/shop/ProductGrid.js:87 | a range ending in exactly 999 keeps every price from the minimum up |
| ProductGrid.GeneratePagination | components/shop/ProductGrid.js:144-160 | consecutive ascending pages, all in [1, totalPages], min(5, totalPages) of them (none for 0); the current page is included when in range, and centred when it is at least 2 away from both ends |
| ProductGrid.GridState.constructor | components/shop/ProductGrid.js:8-21 | the initial products, page 1 of 1, the default filters, not loading |
| ProductGrid.GridState.HandleFilterChange | components/shop/ProductGrid.js:107-110 | sets the filters and resets to page 1; nothing else changes |
| ProductGrid.GridState.HandlePageChange | components/shop/ProductGrid.js:113-116 | sets the page; nothing else changes |
| ProductGrid.GridState.FetchProducts | components/shop/ProductGrid.js:30-104 | sends `QueryFor` of the filters and page; on success shows the price-filtered products with their count and ⌈count / 12⌉ pages; on failure the mock products; loading ends false |
| ProductGrid.FilterChangeQueriesFirstPage | components/shop/ProductGrid.js:107-110 | after a filter change the next request is for page 1 and otherwise unchanged |
| ProductFilter.FindCategoryIdBySlug | components/shop/ProductFilter.js:14-17 | the id string of the first category with the slug; `''` exactly when there is no slug or no match |
| ProductFilter.FindCategoryIdReadsBack | components/shop/ProductFilter.js:14-17 | for a category with a non-negative id, the returned string reads back as its id |
| ProductFilter.OrDefault | components/shop/ProductFilter.js:21-22 | an absent or empty value gives way to the default |
| ProductFilter.InitialFilters | components/shop/ProductFilter.js:19-36 | from the `currentFilters` prop, at mount and on each re-sync: category from `category_slug`, priceRange defaulting to `''`, sortBy to 'newest'; inStock and onSale hold only for the string 'true' |
| ProductFilter.EmptyQueryGivesDefaults | components/shop/ProductFilter.js:8-25 | the default prop `{}` gives the default filters |
| ProductFilter.Resync | components/shop/ProductFilter.js:28-36 | re-syncing from the grid's record clears the category and both flags and keeps only the price range and the sort |
| ProductFilter.ResyncDropsSelection | components/shop/ProductFilter.js:28-36 | the re-sync gives back the grid's record exactly when it selects no category and neither flag |
| ProductFilter.NextGridFilters | components/shop/ProductFilter.js:54-58 | after a re-sync, an edit of one control sends the grid a record with no category and both flags off, unless that control set them |
| ProductFilter.SortChangeDropsCategory | components/shop/ProductFilter.js:28-58 | choosing category 12 and then changing the sort sends the grid a record without the category |
| ProductFilter.CorrectedResync | components/shop/ProductFilter.js:28-36 | the intended re-sync mirrors every key of the grid's record, reading an empty sort as 'newest' |
| ProductFilter.CorrectedEditKeepsOthers | components/shop/ProductFilter.js:54-58 | with the intended re-sync an edit changes only its own key of the grid's record |
| ProductFilter.Entries | components/shop/ProductFilter.js:60 | `Object.entries` lists the five keys with their values |
| ProductFilter.ApplyEdit | components/shop/ProductFilter.js:55 | the edited key takes the new value and every other key keeps its value |
| ProductFilter.HandleLocalFilterChange | components/shop/ProductFilter.js:54-58 | the new state and the record passed to `onFilterChange` are the same single-key update |
| ProductFilter.FiltersExtensional | components/shop/ProductFilter.js:55 | filter records agreeing on all five keys are equal |
| ProductFilter.EditUndo | components/shop/ProductFilter.js:54-58 | an edit followed by restoring the key's old value gives back the original filters |
| ProductFilter.AnyActive | components/shop/ProductFilter.js:60-63 | `some` holds iff some entry is active |
| ProductFilter.HasActiveFiltersIff | components/shop/ProductFilter.js:60-63 | the badge shows iff the category or price range is non-empty, inStock or onSale holds, or sortBy is neither 'newest' nor `''` |
| ProductFilter.DefaultsInactive | components/shop/ProductFilter.js:60-63 | the default filters show no badge |
| ShopIndex.PageNumber | pages/shop/index.js:220-240 | an absent page parameter means page 1 |
| ShopIndex.SelectCategoriesFinds | pages/shop/index.js:265-274 | a matching slug selects that category, followed by its children with products; an unmatched slug selects nothing and offers no filters; no slug offers the top-level categories with products |
| ShopIndex.ResolveTerm | pages/shop/index.js:243-263 | no term without a slug or an attribute; a resolved term is the first one returned |
| ShopIndex.ChosenAttribute | pages/shop/index.js:243-263 | the publisher's term wins over the author's; no attribute filter iff neither resolved |
| ShopIndex.PriceParams | pages/shop/index.js:278-282 | no price parameters without a range; otherwise the minimum is the part before the first '-' |
| ShopIndex.PriceParamsOfPair | pages/shop/index.js:279-281 | `a-b` with hyphen-free parts sends `min_price` a and `max_price` b |
| ShopIndex.SortFor | pages/shop/index.js:284-306 | no sort without sortBy; otherwise the product grid's mapping |
| ShopIndex.BuildParams | pages/shop/index.js:238-306 | the successive assignments leave every parameter as `ParamsMatch` describes: page, 12 per page, attribute precedence, category, flags only for 'true', price bounds and sort |
| ShopIndex.GetServerSideProps | pages/shop/index.js:216-329 | any failing call gives the fallback props; otherwise the parameters sent match the query, and the props carry the products, the offered categories, the parsed counts and the found category |
| ShopIndex.GetServerSidePropsAsWritten | pages/shop/index.js:234-328 | since the attributes call is missing from the client, every request gets the fallback props and sends no product query |
| ShopIndex.PublisherWins | pages/shop/index.js:243-263 | with both terms resolved, the publisher attribute is sent |
| ShopIndex.UnknownSlugOffersNothing | pages/shop/index.js:265-271 | a slug that matches no category offers no categories |
| BookGrid.ValidCategories | components/home/BookGrid.js:196 | keeps exactly the categories that are not 'uncategorized' and have products |
| BookGrid.TopLevel | components/home/BookGrid.js:199 | keeps exactly the categories with parent 0 |
| BookGrid.ChildrenOf | components/home/BookGrid.js:218 | keeps exactly the children of the main category |
| BookGrid.Decide | components/home/BookGrid.js:224-232 | a truthy active sub that is a child of main is kept and fetched |
| BookGrid.DecideStaysUnderMain | components/home/BookGrid.js:224-232 | the category fetched is main or one of its children, and it is main whenever main has no children |
| BookGrid.DecideStable | components/home/BookGrid.js:224-232 | applying the choice again changes nothing, so the effect settles |
| BookGrid.ForeignSubReplaced | components/home/BookGrid.js:226-229 | an active sub that is not a child of main is replaced by main's first child, which is also the category fetched |
| BookGrid.BookGridState.constructor | components/home/BookGrid.js:180-190 | nothing loaded, nothing active, loading |
| BookGrid.BookGridState.LoadCategories | components/home/BookGrid.js:192-212 | on success stores the valid and top-level categories and activates the first top-level one if there is any; on failure keeps the categories; loading ends false |
| BookGrid.BookGridState.DetermineCategoryToFetch | components/home/BookGrid.js:215-233 | nothing without an active main; otherwise shows main's children and sets the sub and the category to fetch as `Decide` chooses |
| BookGrid.BookGridState.FetchProducts | components/home/BookGrid.js:236-256 | no category means no request and no products; otherwise ten products of the category are requested, and a failure shows none |
| BookGrid.BookGridState.HandleMainClick | components/home/BookGrid.js:259-262 | sets main and clears sub; nothing else changes |
| BookGrid.BookGridState.HandleSubClick | components/home/BookGrid.js:265-267 | sets only sub |
| BookGrid.SubClickFetchesIt | components/home/BookGrid.js:224-225 | clicking a child of main fetches that child |
| BookGrid.MainClickFetchesFirstChild | components/home/BookGrid.js:226-232 | clicking a main category fetches its first child, or itself when it has none |
| HeroSection.BookSlide | components/home/HeroSection.js:18-22 | a book's slide keeps its id, uses its first image or the placeholder, and links to `/shop/<slug or id>` |
| HeroSection.Slides | components/home/HeroSection.js:10-23 | one slide per featured book in order, or the three banners when there are none; never empty |
| HeroSection.BookLinksUnderShop | components/home/HeroSection.js:21 | every featured slide links under `/shop/` |
| HeroSection.NextIndex | components/home/HeroSection.js:33 | the next index stays in [0, n) |
| HeroSection.PrevIndex | components/home/HeroSection.js:34 | the previous index stays in [0, n) |
| HeroSection.NextPrevInverse | components/home/HeroSection.js:33-34 | prev after next, and next after prev, return the original index |
| HeroSection.Advance | components/home/HeroSection.js:26-31 | any number of ticks stays in range |
| HeroSection.AdvanceCounts | components/home/HeroSection.js:28 | before wrapping, k ticks add k, and reaching n wraps to 0 |
| HeroSection.AdvanceCompose | components/home/HeroSection.js:28 | a + b ticks are a ticks followed by b ticks |
| HeroSection.FullCycleReturns | components/home/HeroSection.js:26-31 | n ticks return to the starting slide |
| HeroSection.Carousel.constructor | components/home/HeroSection.js:7-23 | starts on slide 0 of the derived slides |
| HeroSection.Carousel.Next | components/home/HeroSection.js:33 | moves to the next index and keeps the index in range |
| HeroSection.Carousel.Prev | components/home/HeroSection.js:34 | moves to the previous index and keeps the index in range |
| HeroSection.Carousel.GoTo | components/home/HeroSection.js:35 | sets the index to exactly the one asked for |
| HeroSection.Carousel.Tick | components/home/HeroSection.js:26-31 | a timer tick is a step to the next slide |
| Events.Insert | pages/event.js:124-128 | inserting adds exactly the one event: the multiset grows by it |
| Events.InsertSorted | pages/event.js:124-128 | inserting into a sorted list keeps it sorted |
| Events.ConsSorted | pages/event.js:124-128 | an event ordered before the head of a sorted list extends it |
| Events.SortByDatePermutes | pages/event.js:124-128 | sorting is a permutation |
| Events.SortByDateOrders | pages/event.js:124-128 | sorting orders by date, ascending or descending |
| Events.SortByDate | pages/event.js:124-128 | sorting keeps the number of events |
| Events.Upcoming | pages/event.js:121-123 | the upcoming list is ascending by date and holds only events on or after now |
| Events.Past | pages/event.js:125-127 | the past list is descending by date and holds only events before now |
| Events.FilterFrom | pages/event.js:123-127 | the upcoming filter keeps only dates ≥ now, the past filter only dates < now |
| Events.FiltersSplit | pages/event.js:122-128 | the two filters together hold every event exactly once |
| Events.EventsPartition | pages/event.js:121-128 | upcoming is ascending with dates ≥ now, past is descending with dates < now, and together they are a permutation of all events |
| Events.MockUpcomingFiltered | pages/event.js:113-123 | on 1 January 2025 the first three mock events are upcoming |
| Events.MockPastFiltered | pages/event.js:113-127 | and the last two are past |
| Events.SortOfOrdered | pages/event.js:124-128 | a strictly ordered list is left as it is by sorting |
| Events.SortByDateLast | pages/event.js:124-128 | sorting inserts the last event into the sorted rest |
| Events.ChainInit | pages/event.js:124-128 | a prefix of a strictly ordered list is strictly ordered |
| Events.ChainBeforeLast | pages/event.js:124-128 | in a strictly ordered list every event is ordered before the last |
| Events.InsertLast | pages/event.js:124-128 | inserting an event ordered after all others appends it |
| Events.MockEventsOnNewYear2025 | pages/event.js:113-128 | on 1 January 2025 upcoming is the first three mock events and past the last two |
| Events.MockUpcomingInOrder | pages/event.js:113-124 | the upcoming mock events are already ascending |
| Events.MockPastInOrder | pages/event.js:113-128 | the past mock events are already descending |
| Checkout.ApplyFieldEdit | pages/checkout.js:92-97 | a text edit sets that field and no other; a checkbox edit sets only `saveInfo` |
| Checkout.NamePart | pages/checkout.js:44-45 | a word of the display name split at spaces, or `''` |
| Checkout.Prefill | pages/checkout.js:40-47 | with a user, the e-mail is theirs and first and last name come from the user or else from the display name's first and second words; without one the form is unchanged |
| Checkout.PrefillSplitsDisplayName | pages/checkout.js:44-45 | a display name "first last" fills both names |
| Checkout.BuildOrderPayload | pages/checkout.js:126-161 | billing and shipping are the same address from the form; e-mail and phone are the form's; line items mirror the cart; one shiprocket line carries the courier name (or 'Shiprocket') and the charge; Razorpay is the method and the order is not marked paid |
| Checkout.RateRequestFor | pages/checkout.js:58-61 | asks for the zip with one item per cart line, weighing 0.5 kg since cart lines carry no weight |
| Checkout.MapRates | pages/checkout.js:67-71 | each rate keeps its fields and gains its charge from `rate` |
| Checkout.CollectErrorsKeys | pages/checkout.js:101-111 | an error is recorded for a key exactly when that key's check fails, with its fixed message |
| Checkout.CollectErrorsEmptyIff | pages/checkout.js:101-113 | no error is recorded iff every field check passes |
| Checkout.NothingFails | pages/checkout.js:101-111 | when all checks pass, no key fails |
| Checkout.FirstFailure | pages/checkout.js:101-111 | when the checks do not all pass, some checked key fails |
| Checkout.CheckoutPage.constructor | pages/checkout.js:15-33 | the cart as read, the initial form, no errors, rates or selection |
| Checkout.CheckoutPage.ValidateForm | pages/checkout.js:101-114 | as written: the result is the field checks with the IN postcode rule, a postcode error is always recorded, and the form never passes |
| Checkout.CheckoutPage.CorrectedValidateForm | pages/checkout.js:101-114 | with a six-digit PIN check in place of the IN lookup: passes iff every field check holds, iff no error is recorded |
| Checkout.CheckoutPage.HandleInputChange | pages/checkout.js:92-99 | applies the edit and blanks that field's error only if it was showing; other errors stay |
| Checkout.CheckoutPage.FetchRates | pages/checkout.js:51-83 | nothing without a zip or with an empty cart; otherwise the mapped rates with the first selected, or none on an empty answer or a failure |
| Checkout.CheckoutPage.SelectRate | pages/checkout.js:311 | the radio button selects that rate only |
| Checkout.CheckoutPage.HandleSubmit | pages/checkout.js:116-202 | it validates with the corrected PIN check: a failing check posts nothing and leaves exactly the collected errors; otherwise posts the payload and opens the widget for (cart total + charge) × 100 paise with the Razorpay id, or records the failure under 'submit'; the cart is untouched |
| Checkout.OnPaymentSuccess | pages/checkout.js:181-185 | the payment handler clears the cart and redirects to the order-success page with the order and payment ids |
| Checkout.ValidateFormNeverPasses | pages/checkout.js:110 | with the IN postcode rule no form ever passes |
| Checkout.IndianPinExamples | pages/checkout.js:110 | the PIN check accepts 700016 and 110001, and rejects a leading 0, five digits and a letter |
| CreateOrder.MessageOr | pages/api/create-order.js:109-141 | a non-empty message is kept; with a non-empty default the result is never empty |
| CreateOrder.Shipping | pages/api/create-order.js:120 | the first shipping line's total, or 0 when there is none |
| CreateOrder.Amount | pages/api/create-order.js:119-121 | the paise amount is (subtotal + shipping) × 100 rounded to the nearest integer |
| CreateOrder.RazorpayOrderFor | pages/api/create-order.js:123-131 | amount, INR, receipt 'wc_order_<id>', capture 1, and the WooCommerce id in the notes |
| CreateOrder.Handle | pages/api/create-order.js:77-143 | 405 for non-POST and 500 for a missing credential, both with no call; a WooCommerce failure is a 500 with its message or a default and no Razorpay order; otherwise the Razorpay order for that id; 200 exactly with the created ids |
| CreateOrder.BodyOf | pages/checkout.js:150-161 | the posted body has one line per item and per shipping line |
| CreateOrder.LinesOf | pages/checkout.js:150-154 | one priced order line per cart line |
| CreateOrder.SubtotalOfCart | pages/api/create-order.js:119 | the server's subtotal of the checkout's lines is the cart total |
| CreateOrder.AmountMatchesCheckout | pages/api/create-order.js:119-121 | the amount charged is `Math.round` of (cart total + rate charge) × 100, the checkout's own total in paise |
| CreateOrder.AmountExample | pages/api/create-order.js:119-121 | two books at ₹500 with ₹50 shipping are charged 105000 paise |
| CreateOrder.UnpricedLineAddsNothing | pages/api/create-order.js:119 | a line without a price adds nothing |
| CreateOrder.SubtotalNonNegative | pages/api/create-order.js:119 | non-negative quantities and prices give a non-negative amount |
| ShiprocketRates.WeightOf | pages/api/get-shiprocket-rates.js:40 | a missing or zero weight counts as 0.5 kg |
| ShiprocketRates.RatesQueryFor | pages/api/get-shiprocket-rates.js:43-49 | the query has cod "0", the summed weight and declared value, and the given postcodes and token |
| ShiprocketRates.Handle | pages/api/get-shiprocket-rates.js:4-75 | 405 for non-POST and 400 for missing fields, both before any login; login exactly when the request is complete and credentials are set; a query only after a granted token; a non-200 answer gives 200 with no rates, a good one the available couriers |
| ShiprocketRates.ItemsOf | pages/checkout.js:60 | the checkout's items arrive as weighed, priced items |
| ShiprocketRates.CheckoutRequestTotals | pages/api/get-shiprocket-rates.js:40-41 | for the checkout's request the weight is 0.5 kg per unit and the declared value is the cart total |
| ShiprocketRates.UnweighedItemsCountHalfKilo | pages/api/get-shiprocket-rates.js:40 | items without weight weigh 0.5 kg per unit |
| ShiprocketRates.TotalsNonNegative | pages/api/get-shiprocket-rates.js:40-41 | non-negative items give a non-negative weight and declared value, and the weight is positive once every item has a unit |
| VerifyPayment.NumberOr | pages/api/verify-payment.js:259-291 | NaN and 0 give way to the default |
| VerifyPayment.Slice | pages/api/verify-payment.js:263 | `slice(0, n)` is the first min(n, length) characters |
| VerifyPayment.ShipmentItemOf | pages/api/verify-payment.js:277-283 | units, price and name are copied, hsn is fixed, and the sku is the item's or 'prod-<product id>' |
| VerifyPayment.ShipmentPayloadFields | pages/api/verify-payment.js:261-292 | the payload is prepaid, 10 × 10 × 10, ships to billing, copies billing, dates and locations, maps every line, and its order id reads back as the order's id |
| VerifyPayment.Handle | pages/api/verify-payment.js:190-324 | 405, 500 without a secret, and 400 on a bad signature, all with no call; a verified event answers 200, except a captured payment without payment or notes (500, no call); calls happen iff the answer is 200 for a captured payment with a truthy order id, and they are exactly `CaptureCalls` |
| VerifyPayment.ProcessCapture | pages/api/verify-payment.js:233-317 | the try block makes exactly the calls `CaptureCalls` lists, for every answer of the three calls, a fetched body that is not an order included |
| VerifyPayment.CaptureCalls | pages/api/verify-payment.js:233-305 | four calls are made exactly when the update succeeds, the fetch returns an order record and the token is granted, and the fourth creates the shipment; a fetched body that is not an order (a 404 or 401 answer, whose status is never checked) still reaches the login and stops there |
| VerifyPayment.CaptureStopsAtFirstFailure | pages/api/verify-payment.js:233-317 | the order update comes first, then the fetch and the login, each only if the one before did not throw; the shipment follows only for an order record and a granted token, and carries the order's payload and the token |
| VerifyPayment.UnweighedLinesCountHalfKilo | pages/api/verify-payment.js:291 | lines without a usable weight weigh 0.5 kg per unit |
| VerifyPayment.TotalsAppend | pages/api/verify-payment.js:259-291 | sub_total and weight are additive over lines |
| VerifyPayment.ShipmentWeightNonNegative | pages/api/verify-payment.js:291 | the parcel weight is non-negative, and positive once every line has a unit |
| VerifyPayment.OrderDateIsDatePart | pages/api/verify-payment.js:263 | an ISO date-time keeps only its date |
| Text.LowerAll | utils/formatters.js:39 | `toLowerCase` maps each character, keeping the length |
| Text.UpperAll | utils/formatters.js:45 | `toUpperCase` maps each character, keeping the length |
| Text.NatToString | utils/formatters.js:46 | `toString` of a natural is a non-empty string of digits, one long exactly below 10 |
| Text.IntToString | utils/formatters.js:46 | `toString` of an integer is its numeral, with a '-' for negatives |
| Text.NatToStringValue | utils/formatters.js:46 | the numeral reads back as the number |
| Text.NatToStringNoLeadingZero | utils/formatters.js:46 | the numeral starts with '0' only for 0 |
| Text.Split | pages/checkout.js:44 | `split` gives at least one part, and no part contains the separator |
| Text.JoinSplit | pages/checkout.js:44 | joining the parts with the separator gives back the string |
| Text.SplitAtFirstSeparator | pages/shop/index.js:279 | the part before the first separator comes first |
| Text.SplitWithoutSeparator | pages/shop/index.js:279 | without a separator there is one part |
| Text.TrimStart | pages/shop/index.js:240 | removes leading white space, leaving a suffix |
| Text.TrimEnd | utils/formatters.js:34 | removes trailing white space, leaving a prefix |
| Text.Trim | utils/formatters.js:34 | the trimmed text has no white space at either end |
| Text.TrimIsPiece | utils/formatters.js:34 | the trimmed text is a contiguous piece of the input |
| Text.PadStart | utils/formatters.js:46 | `padStart` reaches the width, ends with the input, and fills the front |
| JsNumber.Round | pages/api/create-order.js:121 | `Math.round` is within half of its argument, halves going up |
| JsNumber.RoundOfInteger | pages/api/create-order.js:121 | an integer rounds to itself |
| JsNumber.RoundUnique | pages/api/create-order.js:121 | the rounded value is the only integer in (x − ½, x + ½] |
| JsNumber.Rem | components/home/HeroSection.js:33-34 | JavaScript's `%` agrees with the Euclidean one on non-negative operands and keeps the dividend's sign |
| JsNumber.CeilDiv | components/shop/ProductGrid.js:94 | `Math.ceil(count / size)`: the fewest pages that hold the count |
| JsNumber.ToNumber | components/shop/ProductGrid.js:84 | `Number` of blank text is 0, and a parsed bound is never negative |
| JsNumber.ToNumberOfDigits | components/shop/ProductGrid.js:84 | a digit string converts to its value |
| JsNumber.ToNumberOfDecimal | components/shop/ProductFilter.js:40-42 | "a.b" converts to its decimal value, so bounds such as 499.99 are exact |
| JsNumber.LeadingDigits | pages/shop/index.js:310-311 | the longest prefix of digits: everything before the first non-digit, the part `parseInt` reads |
| Text.ToLower | utils/formatters.js:39 | an ASCII capital becomes lower case; every other character is unchanged |
| Text.ToUpper | utils/formatters.js:45 | an ASCII lower-case letter becomes a capital; every other character is unchanged |
| JsNumber.ToNumberOfNumeral | components/shop/ProductGrid.js:84 | `Number(String(n))` is n |
| JsNumber.DecimalValue | components/shop/ProductFilter.js:40-42 | a decimal's value is at least its integer part |
| JsNumber.ParseSignedDigits | pages/shop/index.js:240 | text beginning with a digit parses to its leading numeral |
| JsNumber.LeadingDigitsOfNumeral | pages/shop/index.js:310-311 | a numeral followed by a non-digit is read whole |
| JsNumber.ParseIntNaNIff | pages/shop/index.js:240 | `parseInt` is NaN iff, after optional white space and sign, no digit follows |
| JsNumber.ParseIntOfDigits | pages/shop/index.js:240 | a numeral followed by a non-digit parses to its value |
| JsNumber.ParseIntUnsigned | pages/shop/index.js:310-311 | text starting with digits parses to their value |
| JsNumber.ParseIntOfNumeral | pages/shop/index.js:240 | `parseInt(String(n))` is n, also when any non-digit text follows |

## Left out

- Rendering, routing, toasts' appearance, modals and every presentational component are not modelled.
- Network clients are parameters. The WooCommerce, Razorpay, Shiprocket and WordPress calls are
  function-typed inputs that answer with a `Result`. Timeouts and retries are not modelled.
- HMAC-SHA256 and `JSON.stringify` are uninterpreted parameters of the webhook handler.
- JavaScript floating point is not reproduced. `parseFloat`, `toFixed`, float `Math.round` and float `%`
  artefacts are outside the model: money is exact.
- Checkout.CheckoutPage.HandleSubmit: the widget amount is the exact `(total) × 100`, without float error.
- JSON (de)serialisation of the cookie and of `user_data` is abstracted. A malformed cookie, which makes
  `JSON.parse` throw at `utils/cartUtils.js:7`, is not modelled, and neither is a cookie set to the empty string.
- Auth.AuthStore.Current: user data that cannot be parsed counts as absent. In the source the parse error is
  caught at `lib/auth.js:131-133` with the same null result.
- Auth.AuthStore.Current: stored `user_data` JSON of another shape (`null`, a number, `{}`) is not modelled. The
  source would return `{...parsed, token}`; the model treats such data as unparsable and returns null.
- JsNumber.ToNumber: returns None for JavaScript numerals such as `+5`, `1e3`, `0x10` and `Infinity`. Only blank
  text and unsigned decimals are modelled, the forms the shop page's price ranges produce.
- The cookie's 7-day expiry and js-cookie's encoding are not modelled.
- `Intl` formatting (`formatPrice`, `formatDate`, `formatShortDate`) is not modelled. It depends on locale data.
- JavaScript `Date` parsing in the events page is not modelled: dates are given as integers.
- Timers are abstracted:
  - the checkout's 500 ms debounce is not modelled;
  - the hero's 7-second interval is modelled as `Carousel.Tick`;
  - the sign-up dialog's 3-second delay before switching to login is a flag.
- Concurrency is not modelled: overlapping effects, and duplicate or concurrent webhook deliveries.
- The checkout page's redirect to `/cart` on an empty cart (`pages/checkout.js:37`) is not modelled. Nor is the
  `cartUpdated` browser event (`pages/checkout.js:183`).
- Validation.ValidateZipCode: a country such as `toString`, a key on the object's prototype, makes the source throw
  rather than return false. The model returns false.
- Text.LowerAll: case mapping covers ASCII letters only. `toLowerCase` on other scripts is not modelled, and string
  lengths count code points, not UTF-16 units.
- Text.TrimStart: the white-space class is a fixed set of characters that approximates `\s`.
- VerifyPayment.Handle: a captured payment without `payment.entity` or `notes` makes the source throw before its
  `try`. It is modelled as a 500 with no calls, a status the framework chooses.
- VerifyPayment.ShipmentPayloadFields: `billing_customer_name` and the totals are not stated beyond the
  `TotalsAppend` and `UnweighedLinesCountHalfKilo` lemmas.
- Checkout.CollectErrorsKeys: the error map is a map, so the insertion order of `newErrors`' keys is not modelled.
  Only which keys are present and what they say is modelled.
- ShopIndex.GetServerSideProps: `|| []` on a null categories answer is folded into a successful, possibly empty
  list.
- The mock products shown by the product grid after a failed request are a constant of the model. Only their count
  is stated.
- The commented-out earlier versions of the shop page, the home grid and the API routes are not modelled.
- Hooks (`useCart`, `useAuth`), analytics, constants and the static pages are not part of this model. Of `lib/api.js`
  only which methods its `api` object defines (`lib/api.js:191-318`) is used, for the shop page's finding.

## Findings

| source | as written | input that shows it | evidently intended | confidence | as-written member | corrected member |
|---|---|---|---|---|---|---|
| pages/checkout.js:110 | the postcode is checked with `validateZipCode(zip, 'IN')`, and `validateZipCode` has no IN pattern, so the zip error is always recorded and no order can be placed | a complete form with zip `700016` and a selected rate | accept an Indian six-digit PIN code (first digit 1-9) | not executed | Checkout.CheckoutPage.ValidateForm, Checkout.ValidateFormNeverPasses | Checkout.CheckoutPage.CorrectedValidateForm, Checkout.IndianPinExamples (used by Checkout.CheckoutPage.HandleSubmit) |
| components/cart/CartSummary.js:7, 46-49 | shipping is free only strictly above 50, but the notice asks for `50 - subtotal` more; paying exactly that leaves the subtotal at 50, which is still charged 10 | subtotal 40: the notice says add 10.00, and a subtotal of 50.00 pays shipping 10 | free shipping from 50 up, so the notice amount is exact; this is one of two consistent fixes, since the comment on line 7 ("over 50") supports the strict threshold, in which case the notice's wording is what to correct | not executed | CartSummary.NoticeAmountFallsShort, CartSummary.AtThresholdChargedSilently | CartSummary.CorrectedShipping, CartSummary.CorrectedSummaryOf, CartSummary.CorrectedNoticeIsExact |
| pages/shop/index.js:236 | the page calls `api.getAttributes()`, which the client object in `lib/api.js` does not define, so the `try` always throws and every request is answered with the fallback props | any request, e.g. `/shop` | fetch the attributes from the shop's attributes endpoint and build the product query from them | not executed | ShopIndex.GetServerSidePropsAsWritten | ShopIndex.GetServerSideProps |
| components/shop/ProductFilter.js:28-36 | the bar re-reads its state from `currentFilters.category_slug` and compares the flags with `'true'`, but its one caller (`components/shop/ProductGrid.js:165-170`) passes the grid's own record, with a `category` key and boolean flags; so after every change the bar's category becomes `''` and both flags false, and its next edit sends that to the grid | choose a category, then change the sort: the grid's next request has no category | the bar mirrors the grid's record, so an edit changes only its own key | not executed | ProductFilter.Resync, ProductFilter.SortChangeDropsCategory | ProductFilter.CorrectedResync, ProductFilter.CorrectedEditKeepsOthers |
