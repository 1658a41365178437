# BazaarTrack core, modelled in Dafny

BazaarTrack is a React client for tracking local market prices. Vendors add products with a dated
price history, and admins moderate users, products and advertisements. Visitors browse, filter and
review products. This project models the client-side logic that decides what is shown and what is
sent:

- the seven-day price trend (`PriceTrends`): an in-place date sort, the chart series, the backward
  scan for the reference price, and the percent change;
- the price-history editor and the records sent by "Add Product" (`ProductRecords`, `AddProduct`)
  and "Update Product" (`UpdateProduct`);
- the public product listing's query string and pagination (`AllProducts`);
- the home page's recent-products section (`ProductSection`);
- the product details page: its chart, stars, review payload and watchlist (`ProductDetails`);
- the admin tables for users and advertisements (`AllUsers`, `AllAdvertisements`);
- the vendor's advertisement editor, modelled as a class (`MyAdvertisements`);
- the dashboard's role menus and logout confirmation (`DashboardLayout`);
- the route guards (`Routes`).

Each page has its own module. Two modules are shared: `ProductRecords` holds the record and
price-row operations that Add Product and Update Product both use, and `Routes` holds the three
route guards. `Common` holds the shared `Option`, user and `||` helpers.

The page components whose state changes step by step are classes whose methods update fields:
`AddProductPage`, `UpdateProductPage`, `ListingPage`, `DetailsPage` and `AdEditor`. The in-place
`sort` of the price history is a method on an array (`PriceTrends.SortInPlace`), proved equal to
the sort function. Pure expressions are modelled as functions, and their properties are proved
as lemmas.

Modelling conventions:

- Dates are millisecond instants (`int`).
- A form's date value is one of five run-time kinds: a valid `Date`, an invalid `Date`, an ISO
  string, another string, or `null`. `toISOString` is modelled as the injective `IsoText`
  constructor.
- The server, the image host, Firebase sign-in, the clock and confirmation dialogs are all
  parameters:
  - the upload outcome is `Option<string>`;
  - `now` is an instant;
  - a dialog's answer is `confirmed: bool`;
  - whether a request succeeded is a `bool` or a response value.

## Model

| member | source | states |
|---|---|---|
| `PriceTrends.ParseInt` | src/pages/Dashboard/PriceTrendsPage/PriceTrendsPage.jsx:50 | `parseInt` of a price truncates toward zero: the result is within one of the price, on the side of zero |
| `PriceTrends.SortByDate` | src/pages/Dashboard/PriceTrendsPage/PriceTrendsPage.jsx:46-47 | the stable date sort keeps one entry per stored entry; its order and content are stated by `SortByDateSortsAndPermutes` |
| `PriceTrends.SortByDateSortsAndPermutes` | src/pages/Dashboard/PriceTrendsPage/PriceTrendsPage.jsx:46-47 | the date sort yields ascending dates and exactly the stored entries (same multiset) |
| `PriceTrends.InsertPermutes` | src/pages/Dashboard/PriceTrendsPage/PriceTrendsPage.jsx:47 | one insertion step of the sort adds exactly the inserted entry |
| `PriceTrends.InsertKeepsSorted` | src/pages/Dashboard/PriceTrendsPage/PriceTrendsPage.jsx:47 | one insertion step keeps a date-sorted history date-sorted |
| `PriceTrends.SortSortedIsIdentity` | src/pages/Dashboard/PriceTrendsPage/PriceTrendsPage.jsx:47 | sorting an already sorted history leaves it unchanged, so re-sorting the cached array on every render is harmless |
| `PriceTrends.SortedPermutationUnique` | src/pages/Dashboard/PriceTrendsPage/PriceTrendsPage.jsx:47 | two date-sorted arrangements of the same entries are equal when equal dates imply equal entries |
| `PriceTrends.SortInPlace` | src/pages/Dashboard/PriceTrendsPage/PriceTrendsPage.jsx:47 | sorting the history array in place leaves it equal to the date-sorted stored history |
| `PriceTrends.InsertAt` | src/pages/Dashboard/PriceTrendsPage/PriceTrendsPage.jsx:47 | one pass of the in-place sort inserts the next entry into the sorted prefix and leaves the rest untouched |
| `PriceTrends.InsertSplit` | src/pages/Dashboard/PriceTrendsPage/PriceTrendsPage.jsx:47 | insertion puts the entry after every entry dated on or before it and before the later ones (stability) |
| `PriceTrends.ChartData` | src/pages/Dashboard/PriceTrendsPage/PriceTrendsPage.jsx:48-52 | the chart has one point per entry, in order, with the raw date and the truncated price |
| `PriceTrends.ChartIsChronological` | src/pages/Dashboard/PriceTrendsPage/PriceTrendsPage.jsx:45-52 | the chart series has one point per history entry and ascending dates |
| `PriceTrends.LatestIsNewest` | src/pages/Dashboard/PriceTrendsPage/PriceTrendsPage.jsx:55-56 | for a non-empty history the latest price is the truncated price of an entry with the newest date, whatever the stored order |
| `PriceTrends.LatestPrice` | src/pages/Dashboard/PriceTrendsPage/PriceTrendsPage.jsx:55-56 | the last chart point's price, or 0 with no points; `LatestIsNewest` ties it to the newest entry |
| `PriceTrends.EmptyHistoryIsFlat` | src/pages/Dashboard/PriceTrendsPage/PriceTrendsPage.jsx:55-56 | with no history the latest price is 0, the trend is 0 and it is shown as positive |
| `PriceTrends.TargetDate` | src/pages/Dashboard/PriceTrendsPage/PriceTrendsPage.jsx:64 | the target date is exactly seven days before the last sorted entry's date |
| `PriceTrends.ReferenceIndex` | src/pages/Dashboard/PriceTrendsPage/PriceTrendsPage.jsx:71-76 | the index found is dated on or before the target, and every later point is dated after it; -1 when there is none |
| `PriceTrends.ReferencePrice` | src/pages/Dashboard/PriceTrendsPage/PriceTrendsPage.jsx:67-76 | with no point on or before the target the fallback (latest) price is used; otherwise the price of the newest such point |
| `PriceTrends.FindReference` | src/pages/Dashboard/PriceTrendsPage/PriceTrendsPage.jsx:67-76 | the backward loop with `break` returns exactly the reference price |
| `PriceTrends.ReferenceIsLastBeforeTarget` | src/pages/Dashboard/PriceTrendsPage/PriceTrendsPage.jsx:71-76 | the trend's reference price comes from a point on or before "last date minus seven days", and all later points are after it |
| `PriceTrends.AllWithinSevenDaysIsFlat` | src/pages/Dashboard/PriceTrendsPage/PriceTrendsPage.jsx:67-76 | when no two entries are seven days apart, the reference equals the latest price and the trend is 0 |
| `PriceTrends.SingleEntryIsFlat` | src/pages/Dashboard/PriceTrendsPage/PriceTrendsPage.jsx:67-76 | a single entry is its own reference: trend 0, shown as positive |
| `PriceTrends.TrendPercent` | src/pages/Dashboard/PriceTrendsPage/PriceTrendsPage.jsx:81-84 | with a non-zero reference, percent × reference = (latest − reference) × 100; with a zero reference, or no change, it is 0 |
| `PriceTrends.PositiveExactlyWhenNotFalling` | src/pages/Dashboard/PriceTrendsPage/PriceTrendsPage.jsx:85 | with a positive reference the trend is shown as positive exactly when the latest price is not below the reference |
| `PriceTrends.TrendOf` | src/pages/Dashboard/PriceTrendsPage/PriceTrendsPage.jsx:45-85 | the trend of a stored history: shown as positive exactly when the percent is not negative, always positive (percent 0) when the reference is 0, latest price 0 with no history |
| `PriceTrends.TrendOfSortedIsSame` | src/pages/Dashboard/PriceTrendsPage/PriceTrendsPage.jsx:47 | the trend of the history after the in-place sort equals the trend before it, so later renders show the same trend |
| `PriceTrends.ComputeTrend` | src/pages/Dashboard/PriceTrendsPage/PriceTrendsPage.jsx:45-85 | the page's computation sorts the array in place and returns the trend of the stored history |
| `PriceTrends.TrendIgnoresStoredOrder` | src/pages/Dashboard/PriceTrendsPage/PriceTrendsPage.jsx:47 | any reordering of a history whose dates determine its entries gives the same latest price, reference and trend |
| `PriceTrends.RisingWeekExample` | src/pages/Dashboard/PriceTrendsPage/PriceTrendsPage.jsx:45-85 | prices 100, 110 and 120 on 1, 5 and 10 January 2024 give reference 100 and a +20% trend |
| `ProductRecords.SetField` | src/pages/Dashboard/AddProduct/AddProduct.jsx:108-111 | changing one field of row i changes only that field of that row; length and all other rows are unchanged |
| `ProductRecords.AppendEmptyRow` | src/pages/Dashboard/AddProduct/AddProduct.jsx:116-118 | adding a row appends one row, dated now with an empty price, and keeps the existing rows |
| `ProductRecords.WithoutIndex` | src/pages/Dashboard/AddProduct/AddProduct.jsx:123 | filtering by index removes exactly row i when it exists and changes nothing otherwise |
| `ProductRecords.RemoveRow` | src/pages/Dashboard/AddProduct/AddProduct.jsx:121-126 | removal deletes exactly row i only while more than one row exists, so a non-empty list stays non-empty |
| `ProductRecords.EditIsUndone` | src/pages/Dashboard/AddProduct/AddProduct.jsx:108-111 | writing the old value back after an edit restores the list |
| `ProductRecords.LastEditWins` | src/pages/Dashboard/AddProduct/AddProduct.jsx:108-111 | of two edits to the same field of a row only the second is kept |
| `ProductRecords.RemoveUndoesAppend` | src/pages/Dashboard/AddProduct/AddProduct.jsx:116-126 | removing the row just appended gives back the previous list |
| `ProductRecords.AppendedRowBlocksSubmit` | src/pages/Dashboard/AddProduct/AddProduct.jsx:44-47 | after adding a row the form cannot be submitted until its price is filled in |
| `ProductRecords.RemovalsKeepARow` | src/pages/Dashboard/AddProduct/AddProduct.jsx:121-126 | any sequence of removals, at any indices, leaves a non-empty list non-empty |
| `AddProduct.ToIso` | src/pages/Dashboard/AddProduct/AddProduct.jsx:77-79 | `toISOString` succeeds exactly on a valid Date and yields that instant's ISO text |
| `AddProduct.IsoRows` | src/pages/Dashboard/AddProduct/AddProduct.jsx:75-78 | the history converts exactly when every row's date is valid, keeping length, order and prices, with each date as ISO text |
| `AddProduct.SubmitOutcome` | src/pages/Dashboard/AddProduct/AddProduct.jsx:42-80 | an empty price stops the submission before any request; a post happens exactly when prices are filled and all dates convert; the record has status "pending", vendor fallbacks "Unknown Vendor" and "vendor email", the uploaded image, the form's names, descriptions and unit price, and an ISO history matching the rows |
| `AddProduct.PressSubmit` | src/pages/Dashboard/AddProduct/AddProduct.jsx:138-246 | pressing the button: an empty price is stopped by the browser, a missing market name, item name, unit price or image by the form rules; a post happens exactly when all of these pass and all dates convert, and it is `onSubmit`'s record |
| `AddProduct.EmptyPriceAlertUnreachable` | src/pages/Dashboard/AddProduct/AddProduct.jsx:44-47 | `onSubmit`'s empty-price alert can never follow a press of the button |
| `AddProduct.PostedRecordHasRequiredFields` | src/pages/Dashboard/AddProduct/AddProduct.jsx:160-246 | every posted record has a non-empty market name, item name, unit price and every price |
| `AddProduct.SubmittedHistoryRoundTrip` | src/pages/Dashboard/AddProduct/AddProduct.jsx:75-78 | the posted history, read back, is exactly the rows entered |
| `AddProduct.AddProductPage.constructor` | src/pages/Dashboard/AddProduct/AddProduct.jsx:26-38 | the page starts with the default values and exactly one row, whose price is empty |
| `AddProduct.AddProductPage.HandlePriceChange` | src/pages/Dashboard/AddProduct/AddProduct.jsx:108-113 | the rows become `SetField` of the old rows; the form values are unchanged |
| `AddProduct.AddProductPage.HandleAddPriceRow` | src/pages/Dashboard/AddProduct/AddProduct.jsx:116-118 | the rows become the old rows plus one empty row |
| `AddProduct.AddProductPage.HandleRemovePriceRow` | src/pages/Dashboard/AddProduct/AddProduct.jsx:121-126 | the rows become `RemoveRow` of the old rows and never become empty |
| `AddProduct.AddProductPage.SubmitForm` | src/pages/Dashboard/AddProduct/AddProduct.jsx:42-138 | returns the outcome of pressing the button; the form is reset only after an acknowledged post, and the price rows are never reset |
| `UpdateProduct.DefaultForm` | src/pages/Dashboard/UpdateProduct/UpdateProduct.jsx:23-32 | the default form has one row with an empty price, an empty image text and no vendor fields |
| `UpdateProduct.ToDate` | src/pages/Dashboard/UpdateProduct/UpdateProduct.jsx:58 | `new Date(x)` of ISO text or a Date keeps its instant; every result is a Date, valid or not |
| `UpdateProduct.Loaded` | src/pages/Dashboard/UpdateProduct/UpdateProduct.jsx:47-59 | loading copies the product's fields into the form, including its price history, its vendor fields and its image |
| `UpdateProduct.NormaliseDate` | src/pages/Dashboard/UpdateProduct/UpdateProduct.jsx:99-102 | a valid Date becomes ISO text; anything else passes through unchanged |
| `UpdateProduct.NormaliseRows` | src/pages/Dashboard/UpdateProduct/UpdateProduct.jsx:92-98 | every row's date is normalised the same way; prices, length and order are kept |
| `UpdateProduct.SentImage` | src/pages/Dashboard/UpdateProduct/UpdateProduct.jsx:71-86 | the current image URL is kept unless a new file was chosen; a chosen file that uploads sends the uploaded URL, one that fails to upload keeps the current URL |
| `UpdateProduct.PatchBody` | src/pages/Dashboard/UpdateProduct/UpdateProduct.jsx:89-103 | the patch body carries the form's fields, the settled image, the normalised history and date, and no status |
| `UpdateProduct.NormaliseRowsIdempotent` | src/pages/Dashboard/UpdateProduct/UpdateProduct.jsx:92-98 | normalising twice is the same as normalising once |
| `UpdateProduct.NormalisedHasNoDates` | src/pages/Dashboard/UpdateProduct/UpdateProduct.jsx:92-98 | no normalised row holds a Date object; a row is ISO text exactly when it was a valid Date or already ISO text |
| `UpdateProduct.UneditedRoundTrip` | src/pages/Dashboard/UpdateProduct/UpdateProduct.jsx:47-103 | loading a product and submitting it unedited sends back its own fields, without a status |
| `UpdateProduct.UpdateProductPage.constructor` | src/pages/Dashboard/UpdateProduct/UpdateProduct.jsx:21-32 | no product, no image URL, the default form |
| `UpdateProduct.UpdateProductPage.Load` | src/pages/Dashboard/UpdateProduct/UpdateProduct.jsx:44-59 | the fetched product and its image URL are stored, and the form becomes `Loaded` |
| `UpdateProduct.UpdateProductPage.EditText` | src/pages/Dashboard/UpdateProduct/UpdateProduct.jsx:219-288 | the edited text field changes and nothing else |
| `UpdateProduct.UpdateProductPage.ChooseImage` | src/pages/Dashboard/UpdateProduct/UpdateProduct.jsx:219-288 | choosing a file replaces the image field by the chosen files and nothing else |
| `UpdateProduct.UpdateProductPage.HandlePriceChange` | src/pages/Dashboard/UpdateProduct/UpdateProduct.jsx:133-140 | only that field of that row changes |
| `UpdateProduct.UpdateProductPage.HandleAddPriceRow` | src/pages/Dashboard/UpdateProduct/UpdateProduct.jsx:143-150 | one empty row is appended |
| `UpdateProduct.UpdateProductPage.HandleRemovePriceRow` | src/pages/Dashboard/UpdateProduct/UpdateProduct.jsx:153-161 | removal happens only with more than one row, so the history is never emptied |
| `UpdateProduct.UpdateProductPage.Submit` | src/pages/Dashboard/UpdateProduct/UpdateProduct.jsx:69-130 | sends `PatchBody` of the form and resets the form to its defaults whatever the server answers |
| `AllProducts.Keys` | src/pages/AllProductPage/AllProuctPage.jsx:12-23 | the keys of a parameter list, one per pair, in order |
| `AllProducts.FetchQuery` | src/pages/AllProductPage/AllProuctPage.jsx:10-23 | the successive `append` calls build exactly the date, sort and page parts in that order |
| `AllProducts.QueryKeys` | src/pages/AllProductPage/AllProuctPage.jsx:15-23 | the query's keys are startDate and endDate (with a date range), priceSort (when chosen), then page and limit |
| `AllProducts.PartKeys` | src/pages/AllProductPage/AllProuctPage.jsx:15-23 | the keys of each of the three parts of the query |
| `AllProducts.QueryPageAndLimit` | src/pages/AllProductPage/AllProuctPage.jsx:22-23 | every query carries the page number and a limit of 10 |
| `AllProducts.QueryDates` | src/pages/AllProductPage/AllProuctPage.jsx:15-18 | with a date range both of its dates are sent |
| `AllProducts.QuerySort` | src/pages/AllProductPage/AllProuctPage.jsx:19-21 | priceSort is sent exactly when a sort is chosen, with that value |
| `AllProducts.LookupConcat` | src/pages/AllProductPage/AllProuctPage.jsx:12-23 | looking a key up in a concatenation finds the first part's value, or the second's when the first lacks the key |
| `AllProducts.KeysConcat` | src/pages/AllProductPage/AllProuctPage.jsx:12-23 | the keys of a concatenation are the concatenated keys |
| `AllProducts.DetailsTarget` | src/pages/AllProductPage/AllProuctPage.jsx:65-71 | a visitor is sent to /login, a signed-in user to /product/ followed by the product id |
| `AllProducts.DetailsTargetsDistinct` | src/pages/AllProductPage/AllProuctPage.jsx:65-71 | the two destinations never coincide, and different products give different links |
| `AllProducts.NextRunsPastLastPage` | src/pages/AllProductPage/AllProuctPage.jsx:170-171 | with no results (zero pages) the Next button as written stays enabled, and every press moves one page further |
| `AllProducts.BoundedNextStaysInRange` | src/pages/AllProductPage/AllProuctPage.jsx:156-171 | under the bounded rule, Previous and Next keep the page between 1 and the last page |
| `AllProducts.ListingPage.constructor` | src/pages/AllProductPage/AllProuctPage.jsx:34-36 | no sort, an empty date filter, page 1 |
| `AllProducts.ListingPage.Query` | src/pages/AllProductPage/AllProuctPage.jsx:39-41 | the page's query is `QueryParams` of its state: it always starts with both dates and sends their values, even empty, since its date range is an object; it carries the page, the limit 10, and the sort value exactly when one is chosen |
| `AllProducts.ListingPage.HandleSortChange` | src/pages/AllProductPage/AllProuctPage.jsx:49-51 | only the sort choice changes |
| `AllProducts.ListingPage.HandleDateFilterChange` | src/pages/AllProductPage/AllProuctPage.jsx:54-57 | only the named date of the range changes |
| `AllProducts.ListingPage.ClickPrevious` | src/pages/AllProductPage/AllProuctPage.jsx:74-76 | one page back unless on page 1; keeps the page in range |
| `AllProducts.ListingPage.ClickNext` | src/pages/AllProductPage/AllProuctPage.jsx:74-76 | one page on unless on or past the last page; keeps the page in range |
| `ProductSection.TruncDiv` | src/pages/Home/ProductSection/ProductSection.jsx:25 | division truncating toward zero, as moment's whole-day difference rounds |
| `ProductSection.IsRecent` | src/pages/Home/ProductSection/ProductSection.jsx:24-27 | "at most three whole days old" holds exactly when the product is less than four days of milliseconds old |
| `ProductSection.FourDayWindow` | src/pages/Home/ProductSection/ProductSection.jsx:25-26 | a truncated day difference of at most 3 is exactly a difference under four days |
| `ProductSection.FutureAndFreshAreRecent` | src/pages/Home/ProductSection/ProductSection.jsx:24-27 | a future-dated product is recent, one a millisecond short of four days is recent, one exactly four days old is not |
| `ProductSection.RecentProducts` | src/pages/Home/ProductSection/ProductSection.jsx:47 | the filter shows no more products than were fetched; which ones and in what order are stated by the next two rows |
| `ProductSection.RecentProductsAreTheRecentOnes` | src/pages/Home/ProductSection/ProductSection.jsx:47 | the section shows exactly the recent products |
| `ProductSection.RecentProductsKeepsOrder` | src/pages/Home/ProductSection/ProductSection.jsx:47 | filtering distributes over concatenation, so the shown products keep the fetched order |
| `ProductSection.AverageRating` | src/pages/Home/ProductSection/ProductSection.jsx:30-34 | 0 with missing or empty reviews; otherwise the average times the count is the sum of the ratings |
| `ProductSection.SumBounds` | src/pages/Home/ProductSection/ProductSection.jsx:32 | the sum of ratings in [lo, hi] lies between count × lo and count × hi |
| `ProductSection.AverageWithinBounds` | src/pages/Home/ProductSection/ProductSection.jsx:30-34 | the average of ratings in [lo, hi] lies in [lo, hi] |
| `ProductSection.LastThreeNewestFirst` | src/pages/Home/ProductSection/ProductSection.jsx:89 | the last three history entries (or all, when fewer), last one first; nothing without a history |
| `ProductDetails.ChartSeries` | src/pages/ProductDetails/ProductDetails.jsx:83-91 | one point per entry, in reverse stored order |
| `ProductDetails.ChartSeriesRoundTrip` | src/pages/ProductDetails/ProductDetails.jsx:83-91 | reading the chart backwards gives the stored history's dates and prices |
| `ProductDetails.Stars` | src/pages/ProductDetails/ProductDetails.jsx:210-218 | star s (1 to 5) is filled exactly when the rating is at least s |
| `ProductDetails.FilledStarsMatchRating` | src/pages/ProductDetails/ProductDetails.jsx:235-247 | the number of filled stars is the rating clamped to 0..5 |
| `ProductDetails.ReviewAvatar` | src/pages/ProductDetails/ProductDetails.jsx:197-201 | a review's photo, or the default avatar when it has none or an empty one; never empty |
| `ProductDetails.ReviewList` | src/pages/ProductDetails/ProductDetails.jsx:186-224 | "No reviews yet." exactly when the reviews are missing or empty (`NoReviews`); otherwise one card per review, in order, with its name, avatar, stars and comment |
| `ProductDetails.ShowWatchlistButton` | src/pages/ProductDetails/ProductDetails.jsx:165 | the watchlist button is shown exactly when the viewer's email differs from the vendor's |
| `ProductDetails.StoredReviewShowsSentAvatar` | src/pages/ProductDetails/ProductDetails.jsx:107-218 | a review stored as it was sent shows the avatar sent, its rating's stars and the review author's name |
| `ProductDetails.ReviewPayload` | src/pages/ProductDetails/ProductDetails.jsx:107-124 | no payload without a user; otherwise the draft with the user's name and email, and the photo or the default avatar when there is none |
| `ProductDetails.DetailsPage.constructor` | src/pages/ProductDetails/ProductDetails.jsx:30-32 | not on the watchlist; no stars and no comment |
| `ProductDetails.DetailsPage.HandleWatchlist` | src/pages/ProductDetails/ProductDetails.jsx:65-70 | the flag is set once the product has loaded, and nothing clears it |
| `ProductDetails.DetailsPage.HandleStarRating` | src/pages/ProductDetails/ProductDetails.jsx:127-129 | the rating becomes the star clicked and exactly the stars up to it are filled; the comment is kept |
| `ProductDetails.DetailsPage.EditComment` | src/pages/ProductDetails/ProductDetails.jsx:253-254 | the comment changes; the rating is kept |
| `ProductDetails.DetailsPage.ClickWatchlistButton` | src/pages/ProductDetails/ProductDetails.jsx:165-171 | a click on the button, which exists only for a viewer who is not the vendor, sets the flag once the product has loaded; the vendor's own product never lands on the watchlist |
| `ProductDetails.DetailsPage.SubmitReview` | src/pages/ProductDetails/ProductDetails.jsx:107-124 | nothing without a user; otherwise the rating and comment currently in the draft, the user's name and email, and the photo or the default avatar; the draft is kept |
| `AllUsers.RoleActions` | src/pages/Dashboard/AllUsers/AllUsers.jsx:79-108 | admin is offered "vendor"; vendor "admin" and "user"; user "vendor"; any other role nothing |
| `AllUsers.OfferedRoleDiffers` | src/pages/Dashboard/AllUsers/AllUsers.jsx:79-107 | every offered role differs from the current one and is a known role |
| `AllUsers.KnownRolesConnected` | src/pages/Dashboard/AllUsers/AllUsers.jsx:79-107 | any known role reaches any other in at most two offered steps, through "vendor" |
| `AllUsers.VisibleAccounts` | src/pages/Dashboard/AllUsers/AllUsers.jsx:70-72 | the listed rows are at most the fetched ones |
| `AllUsers.OwnRowNeverListed` | src/pages/Dashboard/AllUsers/AllUsers.jsx:72 | exactly the accounts with another email are listed; the signed-in user's own row never is |
| `AllUsers.VisibleAccountsKeepsOrder` | src/pages/Dashboard/AllUsers/AllUsers.jsx:70-72 | the listing distributes over concatenation, so rows keep the fetched order |
| `AllUsers.RoleUpdate` | src/pages/Dashboard/AllUsers/AllUsers.jsx:29-54 | a role change is sent exactly when the dialog is confirmed, with that user and role |
| `AllUsers.ConfirmedClickChangesAnotherAccount` | src/pages/Dashboard/AllUsers/AllUsers.jsx:29-108 | a confirmed click on a listed row patches someone else's account to a different role |
| `AllAdvertisements.ToggleStatus` | src/pages/Dashboard/AllAdvertisements/AllAdvertisements.jsx:24 | "pending" toggles to "approved"; every other status toggles to "pending" |
| `AllAdvertisements.ToggleTwice` | src/pages/Dashboard/AllAdvertisements/AllAdvertisements.jsx:24 | toggling twice restores a status exactly when it is "pending" or "approved"; a non-pending status comes back as "approved" |
| `AllAdvertisements.ToggleLandsInCycle` | src/pages/Dashboard/AllAdvertisements/AllAdvertisements.jsx:24 | toggling always changes the status, to "pending" or "approved" |
| `AllAdvertisements.StatusRequest` | src/pages/Dashboard/AllAdvertisements/AllAdvertisements.jsx:24-26 | the status sent is exactly the toggled value, which differs from the current one |
| `AllAdvertisements.BadgeFor` | src/pages/Dashboard/AllAdvertisements/AllAdvertisements.jsx:79-85 | green exactly for "approved", red exactly for "rejected", yellow exactly for everything else |
| `AllAdvertisements.DeleteRequest` | src/pages/Dashboard/AllAdvertisements/AllAdvertisements.jsx:35-55 | the delete is sent exactly when the dialog is confirmed |
| `MyAdvertisements.ImageAfterUpload` | src/pages/Dashboard/MyAdvertisements/MyAdvertisements.jsx:96-116 | a string image is kept, chosen files become the uploaded URL (or stay files when the upload fails); a missing image throws |
| `MyAdvertisements.SentImage` | src/pages/Dashboard/MyAdvertisements/MyAdvertisements.jsx:124 | an empty image falls back to the current ad's image |
| `MyAdvertisements.SubmitRequest` | src/pages/Dashboard/MyAdvertisements/MyAdvertisements.jsx:93-134 | an update of the current ad when one is set, a create otherwise; status falls back to "pending"; the vendor fields come from the user; nothing is sent when the image step throws |
| `MyAdvertisements.StringImageNotUploaded` | src/pages/Dashboard/MyAdvertisements/MyAdvertisements.jsx:101 | an image that is still a string is not re-uploaded: the upload outcome does not affect the request |
| `MyAdvertisements.EditKeepsImage` | src/pages/Dashboard/MyAdvertisements/MyAdvertisements.jsx:65-134 | editing an ad without choosing a file updates that ad and sends its own image back |
| `MyAdvertisements.AdEditor.constructor` | src/pages/Dashboard/MyAdvertisements/MyAdvertisements.jsx:15-24 | modal closed, no current ad, empty title and description, status "pending" |
| `MyAdvertisements.AdEditor.HandleUpdate` | src/pages/Dashboard/MyAdvertisements/MyAdvertisements.jsx:65-74 | loads the ad's four fields, sets it as current and opens the modal |
| `MyAdvertisements.AdEditor.HandleInputChange` | src/pages/Dashboard/MyAdvertisements/MyAdvertisements.jsx:77-82 | only the field the input names changes |
| `MyAdvertisements.AdEditor.HandleImageChange` | src/pages/Dashboard/MyAdvertisements/MyAdvertisements.jsx:85-90 | the image becomes the chosen files; nothing else changes |
| `MyAdvertisements.AdEditor.ToggleModal` | src/pages/Dashboard/MyAdvertisements/MyAdvertisements.jsx:144-147 | visibility flips and the current ad is always cleared |
| `MyAdvertisements.AdEditor.HandleFormSubmit` | src/pages/Dashboard/MyAdvertisements/MyAdvertisements.jsx:93-141 | sends `SubmitRequest`; on success the current ad is cleared and the modal toggled, on any error both stay; the form is kept; an ad is edited only while the modal is open |
| `DashboardLayout.RoleLinks` | src/layouts/Dashboard.jsx:107-232 | admin: all-users, all-products, all-ads, add-products, update-products; vendor: products, add-products, add-ads, ads; user: my-orders, profile; any other or missing role: none |
| `DashboardLayout.Menu` | src/layouts/Dashboard.jsx:94-239 | the sidebar is Overview, then the role's links in order, then Logout |
| `DashboardLayout.CommonEntries` | src/layouts/Dashboard.jsx:95-103 | Overview comes first and Logout last for every role; an unknown or missing role sees only those two |
| `DashboardLayout.MenuHasNoDuplicates` | src/layouts/Dashboard.jsx:94-239 | no role's sidebar lists an entry twice |
| `DashboardLayout.SharedAdminVendorLink` | src/layouts/Dashboard.jsx:141-177 | add-products is the only link the admin and vendor menus share; the user menu shares none |
| `DashboardLayout.HandleLogout` | src/layouts/Dashboard.jsx:19-39 | `logoutUser` is called exactly when the dialog is confirmed, and the app goes to "/" exactly when it succeeds |
| `Routes.PrivateRoute` | src/routes/PrivateRoute.jsx:7-21 | the loader while auth loads; without a user, a replacing redirect to /login that carries the location; otherwise the page |
| `Routes.LoaderIgnoresUser` | src/routes/PrivateRoute.jsx:11-15 | while loading the loader shows whoever the user is |
| `Routes.VendorRoute` | src/routes/VendorRoute.jsx:5-17 | the page exactly for the role "vendor"; Access Denied otherwise, including while the role is unknown; it depends on the role alone |
| `Routes.AdminRoute` | src/routes/AdminRoute.jsx:5-14 | the page exactly for the role "admin"; Access Denied otherwise, including while the role is unknown; it depends on the role alone |
| `Routes.RoleGuardsExclusive` | src/routes/AdminRoute.jsx:7 | no role passes both guards; "user" and a missing role pass neither |
| `Routes.VendorPageUnderDashboard` | src/routes/router.jsx:33-39 | the vendor page under the dashboard renders exactly for a loaded, signed-in user whose role is "vendor" |

## Left out

- Rendering, styling, toasts and alert text are left out; only the state and the request each outcome leads to are modelled.
- HTTP requests, Firebase sign-in and sign-out, the image upload and payment are parameters. Their outcomes are `Option`s, `bool`s or response values, and no request is executed.
- The query cache and `refetch` calls are left out.
- `PriceTrends.TrendPercent`: the two-decimal `toFixed` rounding and the string comparison in `isPositive` are not modelled. A trend in (-0.005, 0) displays as "-0.00" and still counts as positive; the model compares the exact value.
- Dates are millisecond instants: calendar arithmetic across daylight-saving changes and moment's month-day formatting are not modelled. `moment(undefined)` (no entries) is the `now` parameter.
- `PriceTrends.ParseInt`: a price that is not a number (NaN, which `|| 0` turns into 0) is not modelled. Prices are reals.
- `UpdateProduct.ToDate`: `new Date` parsing of text that is not ISO is modelled as an invalid Date.
- The server's numeric fields (`pricePerUnit` and row prices) are kept as text, as the inputs hold them.
- `ProductRecords.SetField`: the handlers copy the row list but assign into the shared row object. The earlier list therefore sees the edit too. Rows are values here, so that aliasing is not modelled.
- `AddProduct.AddProductPage.HandlePriceChange`: the copy kept by react-hook-form through `setValue` is not modelled. The separately kept rows are what is posted.
- `AddProduct.PressSubmit`: the form rules and the browser's `required` check are modelled as emptiness tests only. The number input's parsing of what was typed is not modelled.
- Update Product's submit handler does not call `preventDefault`, so the browser's own form submission is not modelled.
- The listing's query string is modelled as the ordered list of appended pairs: URL encoding is not modelled.
- The date range's refetch on blur is left out. The listing's total page count is an integer; a missing `totalPages`, which also keeps Next enabled, is not modelled.
- Dates shown with `toLocaleDateString` are not modelled.
- `ProductSection.AverageRating`: the one-decimal `toFixed` rounding is not modelled.
- My Advertisements' delete handler is not modelled: it has the same confirmation gate as `AllAdvertisements.DeleteRequest`.
- Payment, orders, watchlist storage and the profile pages are left out, as are the routing configuration and app bootstrap, apart from the one nested guard `Routes.VendorPageUnderDashboard` states.

## Findings

| source | as written | input that shows it | evidently intended | confidence | as-written member | corrected member |
|---|---|---|---|---|---|---|
| src/pages/AllProductPage/AllProuctPage.jsx:171 | Next is disabled only when the current page equals the total page count | a filter with no results (`totalPages` 0) on page 1: Next stays enabled, and pressing it moves to pages 2, 3, … forever | Next is disabled on or past the last page (`currentPage >= totalPages`), so the page stays between 1 and the last page | medium, not executed | `AllProducts.NextRunsPastLastPage` | `AllProducts.ListingPage.ClickNext` |
