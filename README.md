# RentRightNL rent logic in Dafny

RentRightNL is a prototype rental-listing browser that puts Dutch rent-regulation
(WWS, *Woningwaarderingsstelsel*) points next to apartment listings. This project
models its two pieces of rent logic and proves properties about them.

1. **The back-end WWS calculator** (`WwsCalculator`, in `wws_calculator.dfy`).
   - Four point categories are added up: surface area, energy label, WOZ value and rooms.
   - Every category is recorded in a four-entry breakdown.
   - Points map to a maximum legal rent.
   - The entry point validates a raw input dictionary before running the calculation.
   - `calculate_wws_points` accumulates step by step, so `CalculateWwsPoints` is a method.
     It is proved against the specification functions `Breakdown` and `WwsPoints`.
     After each of the first three steps it asserts that the running total equals the points
     recorded so far; the postcondition covers the last step.
   - Money is in integer euro cents: `750 * points + 5000`.
   - Size and WOZ value are exact reals. Python's `int()` on a float is written out as
     truncation toward zero (`Trunc`).
2. **The front-end rent-fairness rule** (`Comparison`, `ListingDetailPage`, `ListingCard`,
   `HomePage`). The rule appears three times:
   - a four-way version with an explanation on the detail page;
   - a three-way version in the card component;
   - a second three-way copy inline on the home page.

   Each copy is modelled on its own, with its own threshold constant. Lemmas prove that
   the copies agree. The detail page also has:
   - its listing table with the `default` fallback;
   - the gallery selection;
   - the contact button, a small class whose only transition disables the button for good.

The front end never validates its numbers. The rule is therefore total over all rents and
point scores, and the model adds no `InvalidInput` error of its own.

## Model

| member | source | states |
|---|---|---|
| `WwsCalculator.Trunc` | backend/wws_calculator.py:35 | `int()` on a float is the integer next to it toward zero: floor for non-negative values, ceiling for negative ones |
| `WwsCalculator.Upper` | backend/wws_calculator.py:40-41 | upper-casing keeps the length and upper-cases each character on its own |
| `WwsCalculator.SurfacePoints` | backend/wws_calculator.py:35 | a non-negative surface earns its whole square metres (factor 1): the largest integer not above the size |
| `WwsCalculator.LabelPoints` | backend/wws_calculator.py:40-45 | a non-empty label whose upper case is a key earns that key's table points; anything else earns 0; the points lie in 0..40 and are positive exactly when the label is recognised |
| `WwsCalculator.LabelPointsIgnoreCase` | backend/wws_calculator.py:40-41 | two spellings that differ only in letter case upper-case to the same key and earn the same points |
| `WwsCalculator.LabelExamples` | backend/tests/test_wws_calculator.py:81-89 | lower-case "a++" and "b" are recognised (40, 20); an unknown label "Z", the empty label and no label earn 0 |
| `WwsCalculator.WozPoints` | backend/wws_calculator.py:48-53 | a present, positive WOZ value earns the integer part of value × 0.0003; an absent or non-positive one earns 0; never negative |
| `WwsCalculator.RoomPoints` | backend/wws_calculator.py:57 | 5 points exactly when there is at least one room, 0 exactly when there is none |
| `WwsCalculator.Breakdown` | backend/wws_calculator.py:34-59 | the breakdown has exactly four entries, in the order surface, energy label, WOZ value, rooms, each carrying that category's points |
| `WwsCalculator.SumPointsAppend` | backend/wws_calculator.py:36-37 | appending an entry to a breakdown adds exactly its points to the breakdown's sum |
| `WwsCalculator.BreakdownSumsToTotal` | backend/wws_calculator.py:31-67 | the total always equals the sum of the points recorded in the breakdown |
| `WwsCalculator.CalculateWwsPoints` | backend/wws_calculator.py:26-67 | the accumulated breakdown is the four-entry breakdown, and the returned total equals both its sum and the sum of the four category contributions |
| `WwsCalculator.MaxLegalRentCents` | backend/wws_calculator.py:69-76 | the rent is never negative; it is 0 exactly for non-positive points; for positive points it is at least 57.50 and exceeds 50.00 by a whole number of 7.50 steps |
| `WwsCalculator.MaxLegalRentRoundTrip` | backend/wws_calculator.py:73-76 | positive points give points × 7.50 + 50.00 (750 · points + 5000 cents), and the points can be recovered from that rent: (rent − 50.00) / 7.50 = points |
| `WwsCalculator.MaxLegalRentMonotonic` | backend/wws_calculator.py:73-76 | more points never lower the rent, and strictly raise it once the points are positive |
| `WwsCalculator.MaxLegalRentExamples` | backend/tests/test_wws_calculator.py:46-56 | 140 points give 1100.00 and 100 points give 800.00; zero and negative points give 0 |
| `WwsCalculator.Validate` | backend/wws_calculator.py:84-89 | an input is accepted exactly when `size_m2` is a number, `rooms` is a whole number, `energy_label` is absent, null or a string, and `woz_value` is absent, null or a number; an accepted input carries exactly the dictionary's size, rooms, label string and WOZ number, with an absent or null optional field as no value |
| `WwsCalculator.ValidateEncode` | backend/models.py:45-49 | every calculator input, sent as a dictionary with these four keys, validates back to itself |
| `WwsCalculator.GetWwsDetails` | backend/wws_calculator.py:78-93 | on invalid input it returns points 0, rent 0 and the single "Error in input data" entry of 0 points; otherwise it returns the calculated points, the maximum rent of those points and the breakdown; the points always equal the breakdown's sum |
| `WwsCalculator.SampleDataAssessment` | backend/wws_calculator.py:96-103 | with exact arithmetic, the example input (75 m², 3 rooms, label "A", WOZ 300000) gives 75 + 30 + 90 + 5 = 200 points and a maximum rent of 1550.00; the module's own run in binary floating point gets 89 WOZ points, 199 in total and 1542.50 |
| `WwsCalculator.StoredWozFactorFallsShort` | backend/wws_calculator.py:49 | the double Python stores for 0.0003 is below 0.0003, so even multiplied exactly, WOZ values 300000 and 100000 give 89 and 29 points where exact arithmetic gives 90 and 30 |
| `WwsCalculator.MisnamedKeysRejected` | backend/tests/test_wws_calculator.py:10-16 | a dictionary keyed `surface_area` / `room_count` lacks the required fields and is rejected |
| `Comparison.Badge` | src/components/ListingCard.js:53 | the badge is green exactly for 'fair', red exactly for 'overpriced', and gray for every other class |
| `ListingDetailPage.FetchListing` | src/pages/ListingDetailPage.js:176 | the page always shows a record of its table: the record of a present id, otherwise the `default` record (id 0) |
| `ListingDetailPage.FetchListingExamples` | src/pages/ListingDetailPage.js:12-166 | ids "1" to "4" show their own records; an id not in the table shows the `default` record |
| `ListingDetailPage.CompareRent` | src/pages/ListingDetailPage.js:185-204 | 'neutral' exactly when points ≥ 136; 'overpriced' exactly when below 136 and the advertised rent exceeds the maximum, with the positive excess reported; 'fair' exactly when below 136 and the rent is at most the maximum; the text gives the positive shortfall when the rent is below the maximum and no amount when it is equal |
| `ListingDetailPage.OverpricedStaysOverpriced` | src/pages/ListingDetailPage.js:195-197 | raising the advertised rent never turns an overpriced listing fair |
| `ListingDetailPage.FairStaysFair` | src/pages/ListingDetailPage.js:198-204 | lowering the advertised rent never turns a fair listing overpriced |
| `ListingDetailPage.ThresholdIsClosed` | src/pages/ListingDetailPage.js:189-193 | whatever the rents, 136 points is liberalized and 135 points is not |
| `ListingDetailPage.TableComparisons` | src/pages/ListingDetailPage.js:12-166 | records 1 to 3 are liberalized; record 4 is 249.80 above its maximum; the default record is 800.00 above its maximum |
| `ListingDetailPage.RenderGallery` | src/pages/ListingDetailPage.js:211-231 | no images give the placeholder; one image is shown alone; two or more give a grid of the first min(5, n) images, in order |
| `ListingDetailPage.GalleryShowsPrefix` | src/pages/ListingDetailPage.js:219-221 | the gallery always shows a prefix of the images: all of them when there are at most five, and exactly five otherwise |
| `ListingDetailPage.ContactBox.constructor` | src/pages/ListingDetailPage.js:171-172 | the button starts enabled, showing the prototype notice |
| `ListingDetailPage.ContactBox.HandleContactLister` | src/pages/ListingDetailPage.js:206-209 | after the handler the message is the thank-you text and the button is disabled |
| `ListingDetailPage.ContactBox.ClickContactButton` | src/pages/ListingDetailPage.js:308-312 | a click leaves the button disabled with the thank-you text; a click on a disabled button changes nothing; the client `ContactScenario` clicks twice and finds the button disabled, with the thank-you text, after each click |
| `ListingCard.CompareRent` | src/components/ListingCard.js:21-34 | 'neutral' exactly when points ≥ 136; 'overpriced' exactly when below 136 and the rent exceeds the maximum; 'fair' otherwise, including a rent equal to the maximum; the text is the one fixed text of the class |
| `ListingCard.BadgeDistinguishesClasses` | src/components/ListingCard.js:53-54 | two different classes never get the same badge text or the same badge colour |
| `ListingCard.Render` | src/components/ListingCard.js:4-7 | a missing listing renders nothing; any listing renders the badge of its comparison, coloured by its class |
| `ListingCard.AgreesWithDetailPage` | src/components/ListingCard.js:25-34 | for every listing the card's class equals the detail page's class |
| `ListingCard.FairCardMeansBelowOrAtMax` | src/components/ListingCard.js:31-34 | a card is 'fair' exactly when the detail page reports the rent below or exactly at the maximum |
| `HomePage.CompareRent` | src/pages/HomePage.js:7-21 | the inline card follows the same three-way rule, with the same closed threshold at 136 and the same texts |
| `HomePage.AgreesWithListingCard` | src/pages/HomePage.js:7-21 | the inline card gives the same class and text as the card component on every listing |
| `HomePage.MockListingsClassification` | src/pages/HomePage.js:58-103 | mock listings 1 to 3 (140, 165 and 170 points) are 'neutral'; listing 4 (125 points, 1100 > 850.20) is 'overpriced' |
| `HomePage.MockListingsMatchDetailTable` | src/pages/HomePage.js:58-103 | each mock listing has the same id, title, location, rent, size, rooms, points and maximum rent as the detail table's record for that id, so both pages classify it alike |

## Left out

- HTTP and storage are not modelled: the FastAPI endpoints, JSON loading, logging, CORS, the SQLAlchemy ORM and the axios client (`backend/main.py`, `backend/seed_db.py`, `backend/database.py`, `src/services/api.js`). The callers in `backend/main.py:74-77` and `backend/seed_db.py:71,82-83` read `.points` and `.max_rent` from the tuple that `get_wws_details` returns. That read fails; in `main.py` the error is swallowed.
- Routing, markup, styling, the header's menu toggle, the search and filter placeholders and the about page are not modelled. They hold no rent logic.
- Validate: Pydantic's lax coercions are not modelled. Pydantic would accept numeric strings and booleans for the number fields; the model rejects them. Pydantic's error text and the `print` of the error are left out too.
- Trunc and SurfacePoints: reals have no infinity or NaN. For those sizes Python's `int()` raises, and that exception escapes `get_wws_details`.
- WozPoints: the product value × 0.0003 is exact here. In binary floating point the stored factor is slightly below 0.0003. Ordinary round values then land just below a whole number and truncate one point lower: 100000 gives 29 points and 300000 gives 89 (see `StoredWozFactorFallsShort`). An infinite WOZ value makes `int()` raise out of `get_wws_details`. A NaN WOZ value scores 0, because `nan > 0` is false. Reals have neither.
- SampleDataAssessment: states the exact-arithmetic result (200 points, 1550.00). The module's own run computes 199 points and 1542.50, for the reason given on the `WozPoints` line.
- MaxLegalRentCents: `round(..., 2)` is exact for whole points, so the rent is kept in cents. The model has no float representation of the result.
- Upper: only ASCII letters are upper-cased. Python also upper-cases other scripts. No non-ASCII character upper-cases to a table key, so the points are the same; only the upper-cased label text kept in the breakdown can differ.
- Breakdown: each entry's `item` text is kept as the values its f-string interpolates. Float `repr` and the thousands separator of the WOZ amount are not rendered.
- CompareRent on the detail page: the explanation is kept as the values it interpolates. Rendering the amount with `toFixed(2)` is not modelled; the amount is the exact, unrounded difference. `toLocaleString`, the page title and the HTML entities are left out as well.
- Rents on the front end are exact reals, so JavaScript's binary floating point is not modelled.
- FetchListing: JavaScript objects also answer inherited property names such as "constructor". Such a name does not fall back to `default`; the model treats it as absent.
- The detail page's loading state is not modelled: before the effect runs, the listing is null.
- Fields with no bearing on the rules are not modelled: `description`, `amenities` and the display-only `wwsBreakdown` of the detail table. The image URLs are replaced by short identifiers that keep their count and order.
- RenderGallery: the `!listing.images` guard is not modelled, because every table record has an image list. The tile layout classes are not modelled either.
- HomePage.CompareRent: the inline card has no null guard, so a null listing would throw in the source. The model only applies it to listings. The page's `useState`/`useEffect` and search handling are UI state.
- The card's image fallback (`src/components/ListingCard.js:38`) is display only.
- The threshold rent commented out at `src/pages/ListingDetailPage.js:188` is unused and not modelled.
- Much of `backend/tests/test_wws_calculator.py` no longer matches the code: other key names, WOZ divided by 10000, 5 points per room, bare item names, a `WWSDetails` return value. Those expectations are not modelled; the model follows `backend/wws_calculator.py`. Only the maximum-rent test and the unknown-label test are reproduced.
