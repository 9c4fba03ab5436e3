# Art gallery marketplace — a Dafny model of its rules

This project models the decision rules of a Django art marketplace and proves
properties about them. In the marketplace, artists list artworks, buyers bid on
auctions, fill a cart, check out and pay, commission custom work, and rate
artists. An AI studio turns a prompt into concept art.

Each database table is modelled as an in-memory store: a class whose fields are
sequences of records. Each view becomes a method whose branches mirror the
view's, and its response is a result tag. Amounts are integer cents bounded by
the `DecimalField(max_digits=10, decimal_places=2)` columns.

Modules, one file each:

- `Common` (common.dfy): shared pieces.
  - `Option`, the row ids, `Cents`.
  - Python's `str(n)` for ids (`NatToString`) and a proof that it is injective.
  - Newest-first listing.
  - A queryset `filter` over a table (`Filter`), and the artwork price map with `price or 0`.
  - Python's `str.strip()` (`Strip`), with the proof that it cuts only whitespace at the ends and is idempotent.
- `Accounts` (accounts.dfy): users, registration, artist ratings and their average.
- `Artworks` (artworks.dfy): the artwork record and its defaults, the upload sale-type branch, the concept-art save, and the artist-only views.
- `AiService` (ai_service.dfy): the SDXL size table, prompt enhancement, the request payload, and classification of the HTTP outcome.
- `Auctions` (auctions.dfy): the bid rule as a pure transition, the auction table, the bid history and the winners list.
- `ShoppingCart` (cart.dfy): cart rows, add, remove and the cart total.
- `CustomOrders` (custom_orders.dfy): commissioned orders and their status changes.
- `Orders` (orders.dfy): checkout, payment and the order/payment ledger invariant.

Two behaviours of the code are worth stating up front:

- **Auction bids.** `place_bid` compares a bid only with `current_bid`, which starts at 0. So a positive bid below `starting_bid` is accepted (`BidRuleIgnoresStartAndWindow`).
- **`completed_at`.** It is stamped on entry to `completed` and never cleared. An order moved back to `in_progress` keeps its stamp (`CompletedAtOutlivesCompletion`). Only the direction "completed implies stamped" holds (`StampKept`).

## Model

| member | source | states |
|---|---|---|
| Accounts.CleanReview | accounts/forms.py:4-7 | the form's review is the posted text with surrounding whitespace stripped, and "" when nothing was posted |
| Accounts.CleanRating | accounts/views.py:103-107 | a posted rating is kept exactly when it is one of the choices 1..5 and the cleaned review holds no null character; the kept rating has the viewed artist, the current user and the cleaned review |
| Accounts.NullReviewRefused | accounts/views.py:104 | a review holding the null character anywhere makes the form invalid, whatever the rating |
| Common.StripKeepsNonSpace | accounts/forms.py:4-7 | stripping keeps every character that is not whitespace |
| Accounts.StoredReviewIsClean | accounts/views.py:103-107 | a stored review has no whitespace at either end and is unchanged by cleaning it again; a review of blanks is stored as "" |
| Common.Strip | accounts/forms.py:4-7 | the stripped text is the slice of the input left after cutting whitespace at both ends; it neither begins nor ends with whitespace |
| Common.StripIdempotent | accounts/forms.py:4-7 | stripping twice is stripping once |
| Accounts.RatingsOfMembers | accounts/views.py:97 | the ratings shown are exactly the stored ratings whose artist is the viewed artist |
| Accounts.StarTotalBounds | accounts/models.py:20 | every rating adds between 1 and 5 stars, so n ratings total between n and 5n |
| Accounts.AverageRating | accounts/views.py:98 | the average is 0 when the artist has no ratings and lies in [1, 5] otherwise |
| Accounts.AverageIsMean | accounts/views.py:98 | the average times the number of ratings equals the star total: it is the arithmetic mean |
| Accounts.RepeatedRatingsCount | accounts/models.py:17-22 | nothing stops a rater rating the same artist twice; both copies are stored and counted |
| Accounts.Directory.Register | accounts/views.py:29-54 | a GET changes nothing. A username taken as posted gives "Username already registered." and no change. An empty one is refused with no change. A name whose normalized form is taken is refused by the unique column with no change. Otherwise exactly one user is appended, stored under the normalized name, with the posted type (default `buyer`) and not staff; artists go to add-artwork and everyone else home. Usernames stay unique, and the set of staff users never changes, so no view creates a user `customize_art` could accept |
| Accounts.NonStaffKeepsStaff | payments/views.py:96 | adding a user who is not staff leaves `filter(is_staff=True)` unchanged |
| Accounts.Directory.ArtistDetail | accounts/views.py:90-118 | an unknown artist is not found. A valid posted rating (`CleanRating`: a choice 1..5 and no null character in the review) appends exactly one rating (viewed artist, current user) and reloads. Otherwise the page shows the artist's ratings and their average, with nothing stored |
| Artworks.UploadedArtwork | artworks/views.py:28-55 | the sale type defaults to `fixed`; a `fixed` artwork gets a fixed price (0 if none posted) and no starting price; any other sale type gets a starting price and no fixed price; the other columns keep their model defaults |
| Artworks.ConceptFilename | artworks/views.py:185 | the saved image is named `ai_generated_` + the decimal primary key + `.png` |
| Artworks.ConceptFilenamesDistinct | artworks/views.py:185 | different artworks never get the same concept image file name |
| Artworks.ConceptArtwork | artworks/views.py:175-182 | the saved artwork is AI-generated, carries the session prompt, the "Stability AI" source model and the concept file name, and is not sold |
| Artworks.ConceptArtRejection | artworks/views.py:146-193 | a POST is accepted exactly when it has a title, a session image and a successful decode. The checks run in that order: missing title, then "No image to save", then the decode error |
| Artworks.TitleCheckedFirst | artworks/views.py:153-162 | without a title the answer is the title error page, which depends only on the session's preview and never on the decoder; a missing title and an empty one get the same answer |
| Artworks.DecodeOnlyWithImage | artworks/views.py:165-193 | with a title but no session image the answer is the "No image to save" page, whatever the decoder would say |
| Artworks.ArtworksByMembers | artworks/views.py:246 | the dashboard selection is exactly the artworks whose artist is the user |
| Artworks.Catalog.Listing | artworks/models.py:40-41 | artworks are listed newest first: the same rows, with primary keys strictly decreasing |
| Artworks.Catalog.UploadArtwork | artworks/views.py:26-57 | a GET changes nothing; a POST appends exactly one `UploadedArtwork` row with the next primary key and shows its detail page |
| Artworks.Catalog.SaveConceptArt | artworks/views.py:144-204 | a GET shows the preview. A rejected POST creates nothing and shows the rejection page. An accepted POST appends exactly one `ConceptArtwork` row and shows it |
| Artworks.Catalog.AddArtwork | artworks/views.py:220-238 | a non-artist is sent home and nothing is created. A valid POST from an artist appends one artwork by that artist, then goes to auction creation for auction artworks and to the dashboard otherwise |
| Artworks.ArtworksByKeepsOrder | artworks/views.py:246 | selecting an artist's artworks keeps the table order: increasing primary keys stay increasing |
| Artworks.Catalog.ArtistDashboard | artworks/views.py:242-252 | a non-artist is sent home; an artist sees exactly their own artworks, newest first (primary keys strictly decreasing, from `ordering = ['-created_at']`), and whether there are any. No URL routes to this view (see "## Left out") |
| AiService.GetValidDimensions | artworks/ai_service.py:22-33 | 512, 768 and 1024 map to their table entries and every other width to 1024x1024; every result is one of the listed SDXL sizes |
| AiService.FormWidthsInTable | artworks/forms.py:44-48 | every width the form offers has its own table entry |
| AiService.StyleSuffix | artworks/ai_service.py:55-68 | a known style gets its phrase, any other style gets `detailed`; the phrase is never empty |
| AiService.FormStylesHaveSuffixes | artworks/forms.py:8-18 | every style the form offers has its own phrase |
| AiService.EnhancePrompt | artworks/ai_service.py:68 | the enhanced prompt is the user's prompt, then ", ", then the style phrase |
| AiService.EnhancePromptInjective | artworks/ai_service.py:68 | for one style, different prompts give different enhanced prompts |
| AiService.SdxlPayload | artworks/ai_service.py:75-93 | the payload has the size `get_valid_dimensions` gives for the width (always an SDXL size), the enhanced prompt, weight 1, cfg scale 7, one sample and 30 steps |
| AiService.HttpErrorMessage | artworks/ai_service.py:105-113 | a non-200 reply always yields a non-empty error message |
| AiService.Classify | artworks/ai_service.py:102-161 | success exactly when the status is 200 and the first artifact has a non-empty image, which is returned with the enhanced prompt and the style. A non-200 status gives its error message. Every failure carries a non-empty error |
| AiService.GenerateImage | artworks/ai_service.py:35-161 | without a key the result is the configuration error. Success needs a key, status 200 and a first image. A successful prompt starts with the user's prompt |
| AiService.MissingKeyMakesNoRequest | artworks/ai_service.py:48-52 | without a key the result does not depend on what a request would have produced |
| AiService.SuccessCarriesFirstArtifact | artworks/ai_service.py:124-135 | a 200 reply whose first artifact has an image yields exactly that image and the enhanced prompt |
| Auctions.NewAuction | auctions/models.py:5-13 | a new auction has current bid 0 (not the starting bid), is active, has no winner and no bids |
| Auctions.PlaceBidOn | auctions/views.py:7-24 | a bid is accepted exactly when it is a POST whose amount is strictly above the current bid. Acceptance appends one bid and makes its amount the current bid and its bidder the winner. Anything else leaves the auction unchanged. Only those three fields ever change, and the bid invariant is kept |
| Auctions.ReplayMonotone | auctions/views.py:13-21 | over any sequence of calls the current bid never decreases, bids are only appended, the invariant is kept and the other fields stay fixed |
| Auctions.CurrentBidIsHighest | auctions/views.py:13-21 | in a well-formed auction no bid exceeds the current bid, and once there is a bid the winner placed a bid of exactly that amount |
| Auctions.FreshAuctionTracksMaximum | auctions/views.py:13-21 | from a new auction, after any calls, the current bid is at least every bid and equals the highest once one exists |
| Auctions.BidRuleIgnoresStartAndWindow | auctions/models.py:7-11 | a positive bid below the starting bid is accepted on a fresh auction, whatever its active flag and end time |
| Auctions.MissingAmountRejected | auctions/views.py:11-13 | a POST without an amount counts as 0 and is never accepted |
| Auctions.ThreeBidderScenario | auctions/views.py:10-24 | from a current bid below 80.00: 100.00 by A is accepted, 80.00 by B is refused, 150.00 by C wins |
| Auctions.BidHistory | auctions/models.py:21-22 | the bids are listed newest first, and the first listed is the current bid and the winner's |
| Auctions.BidHistoryFalling | auctions/views.py:32 | the listed bids come in strictly falling amounts |
| Auctions.WinnersList | auctions/views.py:35-37 | every listed auction is inactive and has a winner |
| Auctions.WinnersListMembers | auctions/views.py:36 | exactly the inactive auctions with a winner are listed |
| Auctions.WinnerPlacedHighestBid | auctions/views.py:36 | every listed winner placed the auction's highest bid |
| Auctions.NoWinnersWhileActive | auctions/models.py:11 | while every auction is active the winners list is empty |
| Auctions.AuctionHouse.Open | auctions/models.py:6-13 | a second auction for the same artwork is refused; otherwise one `NewAuction` row is appended, and no artwork ever has two auctions |
| Auctions.AuctionHouse.PlaceBid | auctions/views.py:7-24 | an unknown auction is not found. Otherwise that auction becomes `PlaceBidOn` of itself and every other auction is untouched. Both outcomes redirect to the detail page |
| Auctions.AuctionHouse.AuctionDetail | auctions/views.py:30-33 | a known auction is shown with its bid history, an unknown one is not found |
| ShoppingCart.FindItemUnique | payments/views.py:18-22 | each (user, artwork) pair has at most one row, and any row of a pair is the one the lookup finds |
| ShoppingCart.Added | payments/views.py:18-27 | an existing pair keeps its row count and next id; a new pair appends one row with quantity 1 and the next id |
| ShoppingCart.AddedRows | payments/views.py:18-27 | adding keeps ids increasing, pairs unique and quantities at least 1 |
| ShoppingCart.AddedQuantities | payments/views.py:25-27 | an add raises that pair's quantity by exactly 1 and leaves every other pair's quantity unchanged |
| ShoppingCart.FirstAddCreatesOne | payments/views.py:18-22 | the first add of a pair creates one row with quantity 1 |
| ShoppingCart.AddedTimesQuantity | payments/views.py:18-27 | n adds raise the pair's quantity by exactly n, so from an empty cart there is one row with quantity n |
| ShoppingCart.EmptyCartTotalsZero | payments/views.py:38-41 | a user with no rows has a total of 0 |
| ShoppingCart.UserItemsTotal | payments/views.py:35-41 | totalling the user's own rows gives the same total as the whole table |
| ShoppingCart.AddRaisesTotal | payments/views.py:38-41 | an add raises the adder's total by the artwork's price (or 0) and leaves other users' totals unchanged |
| ShoppingCart.RemoveLowersTotal | payments/views.py:38-41 | removing a row lowers its owner's total by price times quantity and leaves other users' totals unchanged |
| ShoppingCart.RowsRemove | payments/views.py:52-53 | deleting a row keeps the rows well formed and leaves no row with its id |
| ShoppingCart.FindOwned | payments/views.py:52 | the lookup finds a row only when it has the id and belongs to the caller |
| ShoppingCart.Cart.AddToCart | payments/views.py:13-29 | an unknown artwork is not found and changes nothing. Otherwise the rows become `Added` of the old rows, and the pair's quantity rises by one |
| ShoppingCart.UserItemsMembers | payments/views.py:35 | the rows shown are exactly the stored rows that belong to the user |
| ShoppingCart.Cart.ViewCart | payments/views.py:33-46 | exactly the user's rows, with the cart total (the sum of price-or-0 times quantity over them); an empty cart totals 0 |
| ShoppingCart.Cart.RemoveFromCart | payments/views.py:50-54 | only the caller's row with that id is deleted; anything else is not found and changes nothing |
| CustomOrders.ParseStatus | payments/views.py:126-129 | a posted value is accepted only as the name of the status it yields |
| CustomOrders.ParseStatusName | payments/views.py:127-129 | each of the five statuses is accepted under its own name |
| CustomOrders.NewCustomOrder | payments/views.py:62-91 | the new order has the posted title, art type, description, length, budget and artist request (empty strings and a 0 budget when absent), the given id, user and creation time, no completion time, and status `accepted` exactly when an assigned artist was posted who is staff, `pending` otherwise |
| CustomOrders.Restatus | payments/views.py:129-136 | any status may follow any other; `completed` stamps the time, other statuses keep the old stamp; nothing else changes |
| CustomOrders.StampKept | payments/models.py:37-39 | a new order and every status change keep "completed implies stamped" |
| CustomOrders.CompletedAtNeverCleared | payments/views.py:133-134 | once set, the completion time survives any later status changes |
| CustomOrders.CompletedAtOutlivesCompletion | payments/views.py:129-134 | an order moved from `completed` to `in_progress` keeps its completion time |
| CustomOrders.CustomOrderBook.Customize | payments/views.py:60-99 | a GET shows the form; a POST appends exactly one `NewCustomOrder` row for the caller and shows it |
| CustomOrders.CustomOrderBook.UpdateStatus | payments/views.py:117-139 | only the assigned artist finds the order. A POST of a valid status applies `Restatus`. Anything else shows the form and changes nothing |
| Orders.DefaultPaymentId | payments/views.py:169 | the default reference is `test_` followed by the decimal order id |
| Orders.DefaultPaymentIdsDistinct | payments/views.py:169 | default references of different orders differ |
| Orders.PaymentFor | payments/views.py:168-178 | the recorded payment is for the order and its full amount, is successful, and carries the posted method and reference, `stripe` and `test_<order id>` when none was posted |
| Orders.PaidKeepsLedger | payments/views.py:172-182 | paying an unpaid order with a fresh reference and completing it keeps the ledger invariant |
| Orders.CompletedOrderPaidOnce | payments/models.py:60-65 | a completed order has exactly one payment, which is successful and for the order's amount |
| Orders.OrderLedger.Checkout | payments/views.py:145-159 | an unknown artwork is not found and a GET changes nothing. A POST appends one pending order for the caller with amount price-or-0 and goes to payment |
| Orders.OrderLedger.Pay | payments/views.py:163-186 | only the buyer finds the order and a GET changes nothing. A POST appends `PaymentFor` the order and completes it, unless the order is already paid or the reference is taken, in which case nothing changes |

## Left out

- HTTP, template rendering and redirect targets are modelled as result tags; `login_required` and the session are not modelled.
- `login_view`, `logout_view`, `profile`, `home`, `artwork_list`, `gallery`, `my_artworks`, `artwork_detail`, `artists_list`, `auction_list`, `custom_order_detail`, `my_custom_orders`, `my_orders`, `payment_success` and `accounts/views.py` `artist_dashboard`: authentication plumbing or read-only queries with no rule to state.
- The URL name `artist_dashboard` is routed to the accounts view (accounts/urls.py:11), which has no role gate and shows the user's artworks and auctions. No URL reaches the gated artworks/views.py `artist_dashboard` that `Artworks.Catalog.ArtistDashboard` models, and `add_artwork`'s dashboard redirect lands on the ungated view.
- `ai_studio`, which stores a generated preview in the session: `Session` is taken as an input of `SaveConceptArt`.
- `artworks/views.py` `winners_list` filters on a `status` field that `Auction` does not have and falls back to an empty list; only the `auctions` winners list is modelled.
- The HTTP POST to the image service, its timeout and logging: the outcome is an input (`Transport`). A 200 body that is JSON but not a dict counts as "no image". A dict whose `artifacts` is null, which would raise inside the parser, is not distinguished from a missing key.
- AiService.Classify: a 200 body that does not decode as JSON yields "Network error: …". This assumes `requests` 2.27 or later, where the JSON decoding error is a request exception.
- `float(bid_amount)` and the other string-to-number conversions: amounts arrive as cents, so malformed numbers, which raise an uncaught error, and sub-cent floats are not modelled. In `customize_art` a non-numeric `assigned_artist` makes the staff lookup raise an error that the `DoesNotExist` handler does not catch. That happens after the order row is created, so the row stays stored; the model takes the assigned artist as an optional id and does not model that error.
- The 10-digit bound of the decimal columns is built into `Cents`. The views do not check it themselves, so an out-of-range amount, which the database would refuse, cannot occur in the model.
- Image storage: the uploaded file becomes its file name, and base64 decoding is an input (`DecodeResult`). The storage's upload directory and any renaming of a clashing file name are not modelled.
- `Artwork.price` does not exist, yet cart totals and checkout read it. The price is an input map (`Prices`) from artwork to optional price.
- `ArtworkForm` is not imported in artworks/views.py. The validated form is an input: `Option<ArtworkDraft>`, with `None` for an invalid form. The form's field list also names a `price` field that `Artwork` does not have. The draft leaves it out, so an added artwork gets no price and the `Prices` map is not updated.
- `assigned_artist` is not a field of `CustomArtOrder`. It is modelled as an input to `UpdateStatus`: whether the caller is the order's assigned artist.
- `customize_art` assigns `assigned_artist` on the instance; nothing is stored for it beyond the status change. The staff users are an input set, which `Accounts.StaffIds` computes from the user table.
- Accounts.Directory.Register: an empty username, for which `create_user` raises an error, is the `UsernameRequired` outcome with no change. A normalized name that is already taken, for which the unique column raises an integrity error, is the `UsernameClash` outcome with no change. `normalize_username` (Unicode NFKC normalization) is a parameter, not computed. Email and password are not modelled.
- Common.Strip: only the ASCII whitespace of Python's `str.isspace` is cut. Non-ASCII whitespace, which Python also strips, is kept.
- Accounts.AverageRating: the database's `Avg` returns a floating-point number; the model gives the exact real quotient, so rounding is not modelled.
- `add_artwork` redirects an auction artwork to `auctions:create_auction`, a route that does not exist (auctions/urls.py has no namespace and no such name), so the source raises a reverse-lookup error there. `RedirectCreateAuction` stands for the redirect the code evidently intends.
- `save_concept_art` reads the session's preview style but never uses it, so `Session` does not carry it.
- Concurrent requests (the read-modify-write in `place_bid` and `add_to_cart`) are modelled one at a time.
- Timestamps: bid times and creation times are the position in the table. The custom-order clock is a parameter. `start_time`, `end_time` and `is_active` never change, since no view closes an auction.
- Orders.OrderLedger.Pay: a payment refused by the one-per-order or unique-reference constraint, which raises an integrity error, is the `PaymentConflict` outcome with no change.
