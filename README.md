# SNI storefront — a Dafny model of its front-end logic

SNI's web front end is a React application with two halves:

- **The shop.** The home page shows a catalog of twelve devices (laptops, PCs and iPods). The list is narrowed by:
  - a search box;
  - a category and a price range chosen in a filter panel;
  - a device type chosen from a three-slide carousel.

  An order dialog walks a customer through four steps: configure, personal details, review, confirmation.
- **Warranties.** A public page looks a warranty up by serial number and reveals its details after the right passcode. An administrators' dashboard lists, filters and counts warranty records, and opens an add/edit dialog on them.

This project models those pieces in Dafny and proves what they promise.

- **Pure code** becomes datatypes, functions and lemmas. This covers:
  - the catalog;
  - the product-grid predicate;
  - the option prices and the form checks;
  - the day counting;
  - the dashboard filter and counters.
- **Components that update state step by step** become classes. Each React `useState` variable is a field, and each handler is a method with a `modifies` clause and a contract stating the new state. The components are:
  - `SearchPanel.Panel`, `Home.HomePage` and `Carousel.CarouselHeader`;
  - `OrderModal.OrderWizard`;
  - `WarrantyLookup.WarrantyChecker`;
  - `AdminDashboard.Dashboard`;
  - `WarrantyForm.WarrantyDialog`.
- **Network requests.** A handler that awaits a request is split into two methods:
  - its start (`Begin…`), which raises the loading flag and returns the request it would send;
  - its end (`Finish…`), which takes the reply, or the failure, as a parameter.
- **Callbacks** to a parent component are the values a method returns.
- **The clock** is a parameter (`todayMs`).

Files:

| file | module |
|---|---|
| wrappers.dfy | `Wrappers`: `Option` |
| seqs.dfy | `Seqs`: order-preserving `Filter`, counting, and their laws |
| text.dfy | `Text`: ASCII whitespace, `trim`, whitespace removal, `toLowerCase`, `includes` |
| catalog.dfy | `Catalog`: src/data/laptops.js |
| product_filter.dfy | `ProductFilter`: the product filter of src/pages/Home.js |
| search_and_filter.dfy | `SearchPanel`: src/components/SearchAndFilter.js |
| carousel.dfy | `Carousel`: src/components/CarouselHeader.js |
| home.dfy | `Home`: the state and handlers of src/pages/Home.js |
| order_rules.dfy | `OrderRules`: prices and field checks of src/components/OrderModal.js |
| order_modal.dfy | `OrderModal`: the dialog's state machine |
| warranty_checker.dfy | `WarrantyLookup`: src/components/WarrantyChecker.js |
| warranty_record.dfy | `WarrantyRecords`: the warranty record shared by the admin pages |
| admin_dashboard.dfy | `AdminDashboard`: src/pages/AdminDashboard.js |
| warranty_form.dfy | `WarrantyForm`: src/components/AddWarrantyModal.js |

Two behaviours of the code differ from what a reader might expect:

- A selected price range keeps prices equal to either of its ends, so a price on a shared boundary is in two ranges.
- The search looks at a product's name, category and features, but never at its specs.

Several behaviours of the code are modelled as they are and proved as lemmas, not corrected:

- The filter panel's `onFilter` object has no `deviceType`. Once any category or price button is pressed, the home page's grid is empty (`Home.HomePage.HandleFilter`).
- The carousel reports the ids "laptops", "pcs" and "ipods", but products have the device types "laptop", "pc" and "ipod". "Explore" therefore empties the grid (`Home.ExploreShowsNothing`).
- The order dialog moves to its confirmation step when a reply arrives, even if the dialog was closed in the meantime.
- The warranty checker gives no feedback at all for a reply that says the warranty was found and needs a passcode, but does not report success.
- The "not active" message quotes the serial number as it was typed when the check started, untrimmed.
- A verify reply that claims success but carries no warranty fails while it is being read. It is reported like a failed request.
- With an absent, empty or unparsable end date, the remaining days are NaN. The panel then shows "Days Since Expired: NaN days ago" (`DaysSinceExpired(None)`).
- A `null` end date is shown as "N/A", yet `new Date(null)` is the epoch, so the remaining days are a large negative number and the panel reports the warranty as expired that many days ago (`WarrantyLookup.NullEndDateLongExpired`).
- The edit dialog keeps only the part of a stored date before its first 'T'.

## Model

| member | source | states |
|---|---|---|
| Seqs.Filter | src/pages/Home.js:18-40 | `Array.prototype.filter`: the result is no longer than the input, and holds exactly the input's elements that pass the test |
| Seqs.FilterIsSubsequence | src/pages/AdminDashboard.js:64-80 | filtering keeps the surviving elements in their original order |
| Seqs.FilterMultiplicity | src/pages/Home.js:18-40 | an element that passes appears as often as in the input; one that fails does not appear |
| Seqs.FilterIdempotent | src/pages/AdminDashboard.js:64-80 | filtering twice with the same test is filtering once |
| Seqs.FilterAllPass | src/pages/Home.js:18-40 | when every element passes, the result is the input itself |
| Seqs.FilterNonePass | src/pages/Home.js:18-40 | when no element passes, the result is empty |
| Seqs.FilterThenFilter | src/pages/AdminDashboard.js:65-78 | filtering by one test and then another equals filtering once by their conjunction |
| Seqs.FilterCongruent | src/pages/AdminDashboard.js:65-78 | two tests that agree on every element give the same result |
| Seqs.DisjointCountsBounded | src/pages/AdminDashboard.js:135-140 | the counts of three mutually exclusive tests add up to at most the length |
| Text.TrimStart | src/components/OrderModal.js:61 | the front half of `trim()`: leading ASCII whitespace is dropped, one character at a time |
| Text.TrimEnd | src/components/OrderModal.js:61 | the back half of `trim()`: trailing ASCII whitespace is dropped, one character at a time |
| Text.Trim | src/components/WarrantyChecker.js:28 | `trim()`: leading, then trailing whitespace removed |
| Text.TrimStartDropsLeadingSpace | src/components/OrderModal.js:61 | removing leading whitespace drops exactly a run of whitespace and stops at the first other character |
| Text.TrimEndDropsTrailingSpace | src/components/OrderModal.js:61 | removing trailing whitespace drops exactly a run of whitespace and stops at the last other character |
| Text.TrimIsMiddle | src/components/WarrantyChecker.js:28 | `trim()` returns the middle slice between leading and trailing whitespace, and the slice neither starts nor ends with whitespace |
| Text.TrimEmptyIffBlank | src/components/OrderModal.js:61 | `!s.trim()` holds exactly when every character of `s` is whitespace |
| Text.RemoveSpaces | src/components/OrderModal.js:79 | `replace(/\s/g, '')` leaves no whitespace |
| Text.RemoveSpacesIsFilter | src/components/OrderModal.js:79 | the replacement keeps every non-whitespace character, in order |
| Text.RemoveSpacesOfSpaceless | src/components/OrderModal.js:79 | a string without whitespace is left unchanged |
| Text.ToLower | src/pages/Home.js:21 | `toLowerCase()` keeps the length and lowers each ASCII letter in place |
| Text.ToLowerIdempotent | src/pages/Home.js:21 | lowering twice is lowering once |
| Text.ToLowerSlice | src/pages/Home.js:21 | lowering commutes with taking a slice |
| Text.Includes | src/pages/Home.js:21 | `includes` is true exactly when the term occurs at some index |
| Text.OccurrenceFoundIgnoringCase | src/pages/AdminDashboard.js:75 | an exact occurrence is also found by the lower-cased comparison |
| Text.ContainsIgnoreCaseOfLower | src/pages/Home.js:21-24 | lower-casing the term beforehand does not change the comparison |
| Text.ContainsIgnoreCase | src/pages/Home.js:21 | `s.toLowerCase().includes(t.toLowerCase())` |
| Text.EmptyTermFound | src/pages/Home.js:21 | the empty term occurs in every string |
| Catalog.TilesCover | src/data/laptops.js:246-251 | in a table of ranges that tile upwards from `lo`, every price from `lo` up lies in some range |
| Catalog.BoundaryInBothRanges | src/data/laptops.js:246-251 | with both ends inclusive, a shared boundary price lies in both neighbouring ranges |
| Catalog.TilesMinimums | src/data/laptops.js:246-251 | each range of a tiling starts at or above `lo` and below its own finite max |
| Catalog.Laptops | src/data/laptops.js:1-116 | the six laptops, field by field: id, name, category, price, rating in tenths, features, specs, device type |
| Catalog.Pcs | src/data/laptops.js:118-176 | the three PCs, field by field |
| Catalog.Ipods | src/data/laptops.js:178-239 | the three iPods, field by field, with their `isPreOrder` flags |
| Catalog.AllProducts | src/data/laptops.js:241 | `[...laptops, ...pcs, ...ipods]` |
| Catalog.Categories | src/data/laptops.js:243 | the seven category names, "All" first |
| Catalog.DeviceTypes | src/data/laptops.js:244 | "All", "laptop", "pc", "ipod" |
| Catalog.LaptopsLayout | src/data/laptops.js:1-116 | six laptops, ids 1 to 6, device type "laptop", with no pre-order flag |
| Catalog.PcsLayout | src/data/laptops.js:118-176 | three PCs, ids 7 to 9, device type "pc", with no pre-order flag |
| Catalog.IpodsLayout | src/data/laptops.js:178-239 | three iPods, ids 10 to 12, device type "ipod", each with a pre-order flag |
| Catalog.AllProductsLayout | src/data/laptops.js:241 | laptops, then PCs, then iPods: twelve products with ids 1 to 12; exactly the iPods have a pre-order flag |
| Catalog.PriceRanges | src/data/laptops.js:246-251 | the exported table tiles the prices from 0 upwards, with its last range unbounded |
| Catalog.IdsDistinct | src/data/laptops.js:1-241 | no two products share an id |
| Catalog.ProductsWellFormed | src/data/laptops.js:1-244 | every product's category and device type is a listed value other than "All", and its price is positive |
| ProductFilter.MatchesSearch | src/pages/Home.js:20-25 | an empty term, or the lower-cased term inside the lower-cased name, category or some feature |
| ProductFilter.MatchesCategory | src/pages/Home.js:28-29 | category "All", or the product's category exactly |
| ProductFilter.MatchesDeviceType | src/pages/Home.js:32-33 | device type "All", or the product's device type exactly; an absent key matches neither |
| ProductFilter.MatchesPrice | src/pages/Home.js:36-37 | no range selected, or `min <= price <= max` with both ends inclusive |
| ProductFilter.Matches | src/pages/Home.js:39 | the conjunction of the four tests |
| ProductFilter.Apply | src/pages/Home.js:17-40 | the grid holds exactly the catalog products that pass the search, category, device-type and price tests, in catalog order |
| ProductFilter.ApplyMultiplicity | src/pages/Home.js:17-40 | a matching product appears as often as it is listed; a product that does not match does not appear |
| ProductFilter.DefaultShowsAll | src/pages/Home.js:10-11 | the initial term and filters show every product, in order |
| ProductFilter.ApplyIdempotent | src/pages/Home.js:17-40 | filtering the grid again with the same term and filters changes nothing |
| ProductFilter.MissingDeviceTypeShowsNothing | src/pages/Home.js:32-33 | a filters object without `deviceType` matches no product |
| ProductFilter.UnknownDeviceTypeShowsNothing | src/pages/Home.js:32-33 | when every product has a listed device type, a device type that is neither "All" nor listed shows nothing |
| ProductFilter.CatalogDeviceTypesListed | src/data/laptops.js:1-244 | every catalog product has a listed device type |
| ProductFilter.PriceEndsIncluded | src/pages/Home.js:36-37 | a price equal to the selected range's min or max is kept |
| ProductFilter.ExactEquality | src/pages/Home.js:28-33 | a category or device type other than "All" matches by exact, case-sensitive equality |
| ProductFilter.NameOccurrenceFound | src/pages/Home.js:20-21 | a term occurring in the product's name finds the product |
| ProductFilter.FeatureOccurrenceFound | src/pages/Home.js:23-24 | a term occurring in one of the product's features finds the product |
| ProductFilter.SearchIgnoresTermCase | src/pages/Home.js:20-25 | the letter case of the search term does not matter |
| ProductFilter.SearchIgnoresSpecs | src/pages/Home.js:20-25 | changing a product's specs never changes whether the search finds it |
| SearchPanel.PanelCategories | src/components/SearchAndFilter.js:9 | the panel's category buttons are the catalog's category list |
| SearchPanel.PanelPriceRanges | src/components/SearchAndFilter.js:10-16 | the panel's own five ranges tile the prices from 0 upwards and have distinct labels |
| SearchPanel.HighlightsExactlySelected | src/components/SearchAndFilter.js:137-142 | selecting a range highlights that range's button and no other |
| SearchPanel.ClearVisible | src/components/SearchAndFilter.js:96 | the clear link shows while the category is not "All" or a range is selected |
| SearchPanel.Panel.constructor | src/components/SearchAndFilter.js:4-7 | empty term, category "All", no range, panel closed, no clear link |
| SearchPanel.Panel.HandleSearch | src/components/SearchAndFilter.js:18-22 | the typed value is stored and passed to `onSearch` unchanged |
| SearchPanel.Panel.ClearSearch | src/components/SearchAndFilter.js:59-64 | the cross empties the term and reports the empty term |
| SearchPanel.Panel.HandleCategoryChange | src/components/SearchAndFilter.js:24-27 | stores the category and reports it with the current range and no device type; a category other than "All" shows the clear link |
| SearchPanel.Panel.HandlePriceRangeChange | src/components/SearchAndFilter.js:29-32 | stores the range and reports it with the current category; the clear link shows, and only the chosen button is highlighted |
| SearchPanel.Panel.ClearFilters | src/components/SearchAndFilter.js:34-40 | resets term, category and range, reports the resets, and hides the clear link |
| SearchPanel.Panel.ToggleFilters | src/components/SearchAndFilter.js:77 | the filters section opens or closes |
| Carousel.Slides | src/components/CarouselHeader.js:7-26 | exactly three slides, so the index arithmetic is modulo 3 |
| Carousel.Next | src/components/CarouselHeader.js:36-38 | the next index stays in range and wraps from the last slide to the first |
| Carousel.Prev | src/components/CarouselHeader.js:40-42 | the previous index stays in range and wraps from the first slide to the last |
| Carousel.PrevUndoesNext | src/components/CarouselHeader.js:36-42 | stepping forward and back, in either order, returns to the same slide |
| Carousel.NextThriceIsIdentity | src/components/CarouselHeader.js:29-31 | three timer ticks come back to the starting slide |
| Carousel.CarouselHeader.constructor | src/components/CarouselHeader.js:5 | the first slide is shown |
| Carousel.CarouselHeader.NextSlide | src/components/CarouselHeader.js:28-38 | the right arrow and each timer tick move to `Next` and keep the index valid |
| Carousel.CarouselHeader.PrevSlide | src/components/CarouselHeader.js:40-42 | the left arrow moves to `Prev` and keeps the index valid |
| Carousel.CarouselHeader.SelectSlide | src/components/CarouselHeader.js:109-122 | a dot or label jumps to its slide |
| Carousel.CarouselHeader.HandleCategoryClick | src/components/CarouselHeader.js:44-46 | "Explore" reports the slide's id |
| Home.CarouselIdsAreNotDeviceTypes | src/components/CarouselHeader.js:9-21 | no carousel id is one of the catalog's device types |
| Home.HomePage.constructor | src/pages/Home.js:7-14 | the page holds the imported catalog (any catalog whose products have listed device types, as the real one does); the initial term and filters show all of it |
| Home.HomePage.Shown | src/pages/Home.js:17-40 | `filteredProducts`: the catalog filtered by the current term and filters |
| Home.HomePage.HandleSearch | src/pages/Home.js:43-45 | the reported term becomes the search term |
| Home.HomePage.HandleFilter | src/pages/Home.js:47-49 | the panel's event replaces the whole filters object, and the grid becomes empty |
| Home.HomePage.HandleCategorySelect | src/pages/Home.js:51-54 | sets the device type and keeps category and range; an unknown device type empties the grid |
| Home.HomePage.ClearFilters | src/pages/Home.js:135-138 | "Clear Filters" restores the initial term and filters, and the whole catalog shows again |
| Home.ExploreShowsNothing | src/pages/Home.js:51-54 | exploring any carousel slide leaves an empty grid |
| OrderRules.RamOptions | src/components/OrderModal.js:29-34 | the RAM table: 8GB +0, 16GB +200, 32GB +500, 64GB +1000 |
| OrderRules.StorageOptions | src/components/OrderModal.js:36-41 | the storage table: 256GB +0, 512GB +150, 1TB +300, 2TB +600 |
| OrderRules.Find | src/components/OrderModal.js:45-46 | `find(...)?.price` is absent exactly when no entry has the key, and is otherwise the price of the first entry with that key |
| OrderRules.Surcharge | src/components/OrderModal.js:45-46 | `find(...)?.price \|\| 0`: the first matching entry's price, or 0 when none matches |
| OrderRules.CalculatePrice | src/components/OrderModal.js:43-48 | the price lies between the base price and the base price plus 1600; an unknown RAM or storage value adds nothing, whatever the other option is |
| OrderRules.ListedSurcharge | src/components/OrderModal.js:29-46 | in a table with distinct values, a listed option costs its entry's price |
| OrderRules.ListedPairPrice | src/components/OrderModal.js:43-48 | a listed RAM option and a listed storage option add exactly their two table prices |
| OrderRules.DefaultSelectionPrice | src/components/OrderModal.js:6-7 | the default 16GB and 512GB selections add 350 to the base price |
| OrderRules.Set | src/components/OrderModal.js:51 | writing one field leaves every other field as it was |
| OrderRules.MobilePatternShape | src/components/OrderModal.js:79 | every accepted mobile number has 1 to 17 characters: an optional '+', then digits, the first non-zero |
| OrderRules.MobilePatternAccepts | src/components/OrderModal.js:79 | every string of that shape is accepted |
| OrderRules.ZipPatternRejectsPadding | src/components/OrderModal.js:85 | the ZIP pattern is applied untrimmed, so surrounding whitespace fails it |
| OrderRules.AtSearchIff | src/components/OrderModal.js:89 | the left-to-right search for the at sign succeeds exactly when some position splits the address as the pattern demands |
| OrderRules.DomainPatternIff | src/components/OrderModal.js:89 | the domain part matches exactly when it is plain and has a dot that is neither first nor last |
| OrderRules.PlainAround | src/components/OrderModal.js:89 | both sides of a split are plain exactly when every other character is plain |
| OrderRules.EmailPatternGivesShape | src/components/OrderModal.js:89 | every address the e-mail expression accepts has the e-mail shape |
| OrderRules.ShapeGivesEmailPattern | src/components/OrderModal.js:89 | every address with the e-mail shape is accepted |
| OrderRules.EmailPatternIsShape | src/components/OrderModal.js:89 | the e-mail regular expression accepts exactly the strings with no whitespace, one at sign that is not first, and a dot after it with text on both sides |
| OrderRules.MobilePattern | src/components/OrderModal.js:79 | `/^[\+]?[1-9][\d]{0,15}$/`: an optional '+', a digit 1-9, then at most fifteen digits, nothing else |
| OrderRules.ZipPattern | src/components/OrderModal.js:85 | `/^\d{5}(-\d{4})?$/`: five digits, or five digits, a dash and four digits |
| OrderRules.EmailPattern | src/components/OrderModal.js:89 | `/^[^\s@]+@[^\s@]+\.[^\s@]+$/`, as a left-to-right search for the at sign and then the dot |
| OrderRules.FieldError | src/components/OrderModal.js:61-91 | per field, the condition and message of the source: the four required texts fail when blank; mobile and ZIP first when blank, then on their pattern (mobile with whitespace removed, ZIP untrimmed); a non-empty e-mail on its pattern |
| OrderRules.FormValid | src/components/OrderModal.js:93-94 | no field has a message |
| OrderRules.RequiredFieldFailsIffBlank | src/components/OrderModal.js:61-75 | first name, last name, address and city fail exactly when trimming leaves nothing |
| OrderRules.EmailOptional | src/components/OrderModal.js:89-91 | the e-mail passes exactly when it is empty or has the e-mail shape |
| OrderRules.NotBlank | src/components/OrderModal.js:61 | a string with a non-whitespace character is not blank |
| OrderRules.EmptyMobileRejected | src/components/OrderModal.js:77-78 | an empty mobile number gets "Mobile number is required", not the format message |
| OrderRules.FormValidWhen | src/components/OrderModal.js:58-95 | the form passes once every field meets its own condition |
| OrderRules.InternationalMobileValid | src/components/OrderModal.js:77-81 | '+' followed by up to sixteen digits, the first non-zero, passes the mobile check |
| OrderRules.SampleFormValid | src/components/OrderModal.js:58-95 | filled-in names, address and city, a five-digit ZIP, such a mobile number and no e-mail pass validation |
| OrderModal.OrderWizard.constructor | src/components/OrderModal.js:4-19 | step 1 with black, 16GB and 512GB selected, empty details and errors, not submitting |
| OrderModal.OrderWizard.Price | src/components/OrderModal.js:43-48 | `calculatePrice()` on the dialog's product and current RAM and storage selections |
| OrderModal.OrderWizard.SelectColor | src/components/OrderModal.js:202 | the colour button selects its key |
| OrderModal.OrderWizard.SelectRam | src/components/OrderModal.js:243 | the RAM button selects its value; the price stays at least the base price |
| OrderModal.OrderWizard.SelectStorage | src/components/OrderModal.js:265 | the storage button selects its value; the price stays at least the base price |
| OrderModal.OrderWizard.ContinueToDetails | src/components/OrderModal.js:227 | from step 1 to step 2 without any check |
| OrderModal.OrderWizard.BackToConfiguration | src/components/OrderModal.js:419 | from step 2 back to step 1 |
| OrderModal.OrderWizard.HandlePersonalDetailsChange | src/components/OrderModal.js:50-56 | only the typed field changes; its message is blanked when one is showing |
| OrderModal.OrderWizard.ValidateForm | src/components/OrderModal.js:58-95 | the error map holds exactly the failing fields with their messages; the result is true exactly when the form is valid |
| OrderModal.OrderWizard.ReviewOrder | src/components/OrderModal.js:426-429 | moves to step 3 exactly when the form is valid; the review step therefore only holds valid details |
| OrderModal.OrderWizard.BackToDetails | src/components/OrderModal.js:548 | from step 3 back to step 2 |
| OrderModal.OrderWizard.BeginSubmit | src/components/OrderModal.js:97-112 | raises the submitting flag and sends the product, selections, computed price and validated customer; the final price is at least the base price |
| OrderModal.OrderWizard.FinishSubmit | src/components/OrderModal.js:124-138 | an accepted order shows the confirmation step; any other outcome alerts and leaves the step; the flag is lowered in every case |
| OrderModal.OrderWizard.ResetModal | src/components/OrderModal.js:141-156 | back to step 1 with the default selections (base price plus 350) and empty details; errors and the submitting flag are kept |
| OrderModal.OrderWizard.HandleClose | src/components/OrderModal.js:158-161 | closing resets the dialog |
| WarrantyLookup.FormatDate | src/components/WarrantyChecker.js:75-79 | "N/A" exactly for a falsy date (absent, empty or `null`); a date is shown in its short form |
| WarrantyLookup.CeilDays | src/components/WarrantyChecker.js:82-84 | the ceiling of the difference in days: the least whole number of days reaching the end date |
| WarrantyLookup.RemainingDays | src/components/WarrantyChecker.js:82-84 | a number exactly when the end date is a date or `null` (NaN otherwise): the ceiling day count to the date, or to the epoch for `null` |
| WarrantyLookup.NullEndDateLongExpired | src/components/WarrantyChecker.js:75-84 | a `null` end date shows "N/A" as the expiry, yet from a day after the epoch on it counts as expired that many days ago, not NaN |
| WarrantyLookup.NonNegativeIffLessThanADayAgo | src/components/WarrantyChecker.js:84 | the days are non-negative exactly when the end date is less than a whole day in the past |
| WarrantyLookup.WholeDays | src/components/WarrantyChecker.js:84 | exactly n days ahead counts n days; one millisecond more counts n + 1 |
| WarrantyLookup.DaysDisplay | src/components/WarrantyChecker.js:301-310 | "Days Until Expiry" exactly for a non-negative number; otherwise "Days Since Expired" with the absolute value, or NaN |
| WarrantyLookup.StatusColor | src/components/WarrantyChecker.js:286-292 | green for "Active", orange for "Expired", grey for anything else |
| WarrantyLookup.FoundBadge | src/components/WarrantyChecker.js:163-171 | "(Active)" exactly for "Active"; every other status is announced as "(Expired)" |
| WarrantyLookup.ResultOf | src/components/WarrantyChecker.js:86-95 | the panel copies the reply's texts, formats both dates, counts the remaining days and states the fixed coverage |
| WarrantyLookup.OrElse | src/components/WarrantyChecker.js:44 | `a \|\| b` on strings: `a` unless it is empty |
| WarrantyLookup.WarrantyChecker.constructor | src/components/WarrantyChecker.js:6-12 | everything empty, nothing pending |
| WarrantyLookup.WarrantyChecker.CanCheck | src/components/WarrantyChecker.js:108 | the check button is enabled for a serial number of three or more characters while nothing is loading (line 199) |
| WarrantyLookup.WarrantyChecker.CanVerify | src/components/WarrantyChecker.js:226 | the verify button is enabled for a non-empty passcode while nothing is loading |
| WarrantyLookup.WarrantyChecker.SetSerialNumber | src/components/WarrantyChecker.js:148-151 | typing sets the serial number; the check button is enabled exactly for three or more characters while nothing is pending |
| WarrantyLookup.WarrantyChecker.SetPasscode | src/components/WarrantyChecker.js:182-185 | typing sets the passcode; the verify button is enabled exactly for a non-empty passcode while nothing is pending |
| WarrantyLookup.WarrantyChecker.BeginCheck | src/components/WarrantyChecker.js:15-30 | clears error, result and passcode field, starts loading, and sends the trimmed serial number |
| WarrantyLookup.WarrantyChecker.FinishCheck | src/components/WarrantyChecker.js:32-51 | each reply branch sets its own message or opens the passcode field; loading ends in every case |
| WarrantyLookup.WarrantyChecker.BeginVerify | src/components/WarrantyChecker.js:54-68 | clears the error, starts loading, and sends the trimmed serial number with the passcode as typed |
| WarrantyLookup.WarrantyChecker.FinishVerify | src/components/WarrantyChecker.js:70-105 | success shows the result and hides the passcode field; a refusal shows the server's or the default message; a failure shows the error message |
| WarrantyLookup.WarrantyChecker.Cancel | src/components/WarrantyChecker.js:213-219 | hides the passcode field and clears passcode, error and status |
| WarrantyRecords.TextOrEmpty | src/components/AddWarrantyModal.js:23-25 | `x \|\| ''`: the text, or empty when absent |
| WarrantyRecords.TextOrNA | src/pages/AdminDashboard.js:288-291 | `x \|\| 'N/A'`: the text unless it is absent or empty |
| AdminDashboard.StatusKeeps | src/pages/AdminDashboard.js:68-70 | status "All" keeps every record; any other keeps exactly that `warranty_status` |
| AdminDashboard.SearchKeeps | src/pages/AdminDashboard.js:73-78 | an empty term keeps every record; otherwise the serial number, or a present non-empty NIC number, must contain the term ignoring case |
| AdminDashboard.Visible | src/pages/AdminDashboard.js:64-80 | the list holds exactly the loaded records that both filters keep, in order |
| AdminDashboard.FilterWarranties | src/pages/AdminDashboard.js:64-80 | the two-stage filtering equals the single combined filter `Visible` |
| AdminDashboard.AllStatusesShowsEverything | src/pages/AdminDashboard.js:68-73 | status "All" with an empty search shows every record, in order |
| AdminDashboard.FilterAgainChangesNothing | src/pages/AdminDashboard.js:64-80 | filtering the shown list again shows the same list |
| AdminDashboard.StatusIsExact | src/pages/AdminDashboard.js:68-69 | with a status chosen, only records with exactly that status are shown |
| AdminDashboard.SerialPartFinds | src/pages/AdminDashboard.js:75 | any part of a record's serial number finds it |
| AdminDashboard.MissingNicSearchesSerialOnly | src/pages/AdminDashboard.js:76 | a record without a NIC number is found only through its serial number |
| AdminDashboard.CountStatus | src/pages/AdminDashboard.js:137-139 | `warranties.filter(w => w.warranty_status === s).length` |
| AdminDashboard.ComputeStats | src/pages/AdminDashboard.js:135-140 | total is the record count; the three status counters add up to at most the total |
| AdminDashboard.CounterMatchesStatusFilter | src/pages/AdminDashboard.js:135-140 | choosing a status with an empty search shows as many records as that status's counter |
| AdminDashboard.StatusColor | src/pages/AdminDashboard.js:122-133 | green, red and yellow badges for the three statuses; grey otherwise |
| AdminDashboard.StatusColorsDistinct | src/pages/AdminDashboard.js:122-133 | the three statuses get three different badges, and the grey badge goes exactly to the other statuses |
| AdminDashboard.DateCellOf | src/pages/AdminDashboard.js:116-120 | "N/A" exactly for an absent or empty date |
| AdminDashboard.RowOf | src/pages/AdminDashboard.js:274-291 | a row shows the serial number, the status badge and both dates; a missing NIC number or Windows key reads "N/A", never blank |
| AdminDashboard.Dashboard.constructor | src/pages/AdminDashboard.js:7-14 | empty lists, empty search, status "All", loading, no dialog |
| AdminDashboard.Dashboard.FinishFetch | src/pages/AdminDashboard.js:49-61 | a successful reply replaces the records and the list follows; a failed one keeps them; loading ends |
| AdminDashboard.Dashboard.SetSearchTerm | src/pages/AdminDashboard.js:205 | the list follows the term; an empty term with status "All" shows everything |
| AdminDashboard.Dashboard.SetStatusFilter | src/pages/AdminDashboard.js:213-219 | the list follows the status; only records with the chosen status remain |
| AdminDashboard.Dashboard.HandleAddWarranty | src/pages/AdminDashboard.js:95-98 | opens the dialog with no record |
| AdminDashboard.Dashboard.HandleEditWarranty | src/pages/AdminDashboard.js:100-103 | opens the dialog on the chosen record |
| AdminDashboard.Dashboard.HandleModalClose | src/pages/AdminDashboard.js:105-108 | closes the dialog and forgets the record; the records are untouched |
| AdminDashboard.Dashboard.HandleWarrantySaved | src/pages/AdminDashboard.js:110-114 | closes the dialog and forgets the record |
| WarrantyForm.Set | src/components/AddWarrantyModal.js:32-35 | writing one field leaves every other field as it was |
| WarrantyForm.BeforeT | src/components/AddWarrantyModal.js:21-22 | `split('T')[0]` is the longest prefix without a 'T' |
| WarrantyForm.BeforeTOfTimestamp | src/components/AddWarrantyModal.js:21-22 | a date followed by "T" and a time is cut back to the date |
| WarrantyForm.BeforeTOfDate | src/components/AddWarrantyModal.js:21-22 | a date without a 'T' is kept whole |
| WarrantyForm.DateInput | src/components/AddWarrantyModal.js:21-22 | an absent or empty date gives ""; otherwise the part before the first 'T' |
| WarrantyForm.Prefill | src/components/AddWarrantyModal.js:17-28 | the form copies the record's texts, absent ones as "", and its dates' date parts |
| WarrantyForm.PrefillKeepsDatePart | src/components/AddWarrantyModal.js:21 | a stored timestamp comes back into the form as its date part |
| WarrantyForm.FormValid | src/components/AddWarrantyModal.js:49 | the form is valid when the serial number is not all whitespace |
| WarrantyForm.FormValidIffTrimmedNonEmpty | src/components/AddWarrantyModal.js:49 | the form is valid exactly when the trimmed serial number is non-empty |
| WarrantyForm.SentDateOf | src/components/AddWarrantyModal.js:77-78 | an empty date is sent empty; any other date is sent in ISO form |
| WarrantyForm.RequestFor | src/components/AddWarrantyModal.js:68-88 | PUT to the record's path exactly when editing, otherwise POST to the collection; the body carries the form with its dates converted |
| WarrantyForm.UnchangedEditResendsRecord | src/components/AddWarrantyModal.js:17-88 | saving an untouched edit form PUTs the record's serial number, passcode and date part back |
| WarrantyForm.WarrantyDialog.constructor | src/components/AddWarrantyModal.js:5-28 | the form is prefilled from the edited record, or empty; no errors, not loading |
| WarrantyForm.WarrantyDialog.HandleChange | src/components/AddWarrantyModal.js:30-44 | only the typed field changes; its message is blanked when one is showing; the general error is cleared |
| WarrantyForm.WarrantyDialog.Validate | src/components/AddWarrantyModal.js:46-55 | the errors become empty or only "Serial number is required"; the result is true exactly when the form is valid |
| WarrantyForm.WarrantyDialog.BeginSubmit | src/components/AddWarrantyModal.js:57-79 | an invalid form sends nothing and does not start loading; a valid one starts loading and yields the request |
| WarrantyForm.WarrantyDialog.FinishSubmit | src/components/AddWarrantyModal.js:90-102 | a success calls the save handler; a refusal shows the server's error or "Failed to save warranty"; a failure shows the generic message; loading ends |

## Left out

- Network I/O. Requests become `Begin…` results, and replies become `Finish…` parameters. Left out with it:
  - URLs and the API host;
  - headers and credentials;
  - the JSON encoding;
  - the order's `orderDate` timestamp.
- The clock. Today's date is the parameter `todayMs`.
- Rendering dates as text (`toLocaleDateString`, `toISOString`): kept opaque as `ShortDate`, `Formatted` and `IsoOf`. A `toISOString` that throws on an invalid entered date is not modelled.
- `alert`, `console`, `navigate`, `scrollIntoView` and the five-second timer. The timer's tick is `NextSlide`.
- The parents' `onClose`, which hides a dialog. `OrderModal.OrderWizard.HandleClose` models only the dialog's own reset.
- Authentication (`checkAuth`), logging out, and the request inside `fetchWarranties`. `FinishFetch` models its effect on the state.
- The quick-view dialog of the home page, and the purely presentational parts of every component: icons, images, CSS classes other than the status colours, and the layout.
- Unicode whitespace and letter case. `trim`, `\s` and `toLowerCase` are modelled on ASCII characters only.
- WarrantyLookup.WarrantyChecker.CanCheck: counts the serial number's length in characters, not in UTF-16 code units as JavaScript's `length` does; a serial with characters outside the Basic Multilingual Plane can enable the button in the source and not in the model.
- WarrantyLookup.WarrantyChecker.SetSerialNumber: its enabling clause inherits the same character-based length.
- Ratings are kept in tenths (4.9 is 49), to avoid floating point.
- OrderModal.OrderWizard.FinishSubmit: the text of the alert is not modelled. Only whether an alert is raised is stated.
- OrderModal.OrderWizard.ValidateForm: the source checks the fields one after another in straight-line code. The model runs the same checks in the same order, as a loop over the field list.
- AdminDashboard.Dashboard.FinishFetch: the source stores the unfiltered list as the shown list, and its effect then refilters it. The model performs the two state changes as one step.
- WarrantyLookup.WarrantyReply: absent text fields of a reply are modelled as empty strings. They are only used through `||` and `===`, where `undefined` and `''` behave alike.
