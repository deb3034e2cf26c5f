# Coupon directory: session, bookmarks, brand browsing

A Dafny model of the core of a small coupon-directory web application. The
application has a static catalogue of brands and coupons, a mock user directory,
a session manager that signs users in and keeps their bookmarked coupons, a brand
browser with search and category filters mirrored in the URL, a brand detail page,
and a coupon card.

The model has these modules:

- `Types`: the records `User`, `Brand` and `Coupon`, plus `Option` for `null` and `undefined`.
- `Seqs`: `filter`, `find`, `some` and `slice(0, n)` as sequence functions. Their
  contracts cover membership, multiplicity, order (as subsequence) and first-match facts.
- `Text`: `toLowerCase` restricted to ASCII, `includes`, and the decimal rendering of a number.
- `Catalog`: the four tables, copied value for value from `project/src/data/index.ts`.
  Also the lookups `getCouponsByBrandId`, `getBrandById`, `getFeaturedBrands` and
  `getUserSavedCoupons`, each stated over an arbitrary table and proved there.
  The wrappers `GetCouponsByBrandId`, `GetBrandById`, `GetFeaturedBrands` and
  `GetUserSavedCoupons` apply those lookups to the tables. Several facts are proved
  about the tables themselves:
  - ids are unique;
  - every coupon's brand exists;
  - the category list covers every brand.
- `Auth`: the session provider, modelled as the class `AuthContext`.
  - The field `user` is the in-memory session and `stored` is the browser storage entry `'user'`.
  - Every operation keeps the invariant `Valid()`, which says the two are equal.
  - The bookmark updates are the pure functions `AddSaved`, `RemoveSaved`, `AfterSave` and
    `AfterRemove`. Lemmas relate them: save-then-remove restores, removal is idempotent,
    and both keep lists free of duplicates.
- `BrandsPage`: the brand browser, modelled as the class `BrandsView`.
  - It holds the search term, the selected category, the filtered list and the URL query parameters.
  - `FilteredBrands` is the filter's specification.
  - `UrlParams` and `SetParam` are the query written by `updateUrlParams`.
- `BrandDetails`: the detail page, modelled as the class `BrandDetailsView`, with its
  load effect, the "similar brands" selection and `isCouponSaved`.
- `CouponCard`: the card's toggle dispatch, the visibility and copy-disabled rules,
  and the brand fallback.

The model keeps the source's behaviour where it is surprising:

- `register` checks only the static directory and never adds the new account to it. So a
  second registration with the same new email succeeds. Every registered account gets
  the id `users.length + 1`, which is `"3"`. `Auth.RegisterScenario` proves both points.
- `getUserSavedCoupons` reads the static directory, not the session. A newly registered
  account's bookmarks are not visible through it (`Auth.RegisteredIdHasNoDirectoryBookmarks`).

Inputs that come from outside become parameters:

- The clock: an expired coupon is a boolean `isExpired`, and `createdAt` is the parameter `now`.
- The initial storage entry: a parameter of the `AuthContext` constructor.
- The URL query parameters: a parameter of the `BrandsView` constructor.
- The route parameter `id`: the argument of `BrandDetailsView.Load`, where `""` stands for a missing id.

Several helper predicates carry no contract of their own. The members listed below state
what they mean:

- `ShowSaveButton` and `CopyDisabled`: `CouponCard.ExpiredCardIsReadOnly`.
- `ShowBrandHeader`: `CouponCard.BrandHeaderShown`.
- `IsCouponSaved`: `BrandDetails.SavedFlagFollowsSession` and `BrandDetails.ApplyCall`.
- `MatchesSearch` and `RestrictsCategory`: `BrandsPage.FilteredBrands` and `BrandsPage.SearchIgnoresCase`.
- `AuthContext.IsAuthenticated` (`!!user`): the `AuthContext` constructor and methods, whose contracts say when it holds after each operation.

## Model

| member | source | states |
|---|---|---|
| Auth.AuthContext.constructor | project/src/contexts/AuthContext.tsx:11-21 | After mounting, the session is the stored record if there is one and none otherwise. Storage and session agree, and loading is finished. The user counts as authenticated exactly when a record was stored. |
| Auth.FindByCredentials | project/src/contexts/AuthContext.tsx:28 | None exactly when no directory entry has both the email and the password. Otherwise the result is the first entry that has both. |
| Auth.AuthContext.Login | project/src/contexts/AuthContext.tsx:23-37 | Succeeds exactly when some directory entry matches email and password. On success, session and storage become the first matching entry, and the user is authenticated. On failure, nothing changes. |
| Auth.EmailTaken | project/src/contexts/AuthContext.tsx:44 | True exactly when some directory entry has the email. |
| Auth.AuthContext.Register | project/src/contexts/AuthContext.tsx:39-65 | Fails, changing nothing, exactly when the directory already has the email. Otherwise session and storage become a new user with id `|users|+1` in decimal, the given name, email, password and timestamp, and no bookmarks, and the user is authenticated. |
| Text.NatToString | project/src/contexts/AuthContext.tsx:52 | The rendering of the id number is a non-empty string of decimal digits with no leading zero, and it denotes exactly that number. |
| Auth.AuthContext.Logout | project/src/contexts/AuthContext.tsx:67-70 | Session and storage entry are both cleared, and nobody is authenticated. |
| Auth.LogoutTwice | project/src/contexts/AuthContext.tsx:67-70 | Logging out twice leaves exactly the cleared state. |
| Auth.AddSaved | project/src/contexts/AuthContext.tsx:76-84 | The id is bookmarked afterwards. A list that already had it is unchanged. Otherwise the old list is kept as a prefix and the id is appended once. |
| Auth.AddSavedNoDup | project/src/contexts/AuthContext.tsx:76-84 | Saving keeps a bookmark list free of duplicates. |
| Auth.AfterSave | project/src/contexts/AuthContext.tsx:72-90 | Nothing changes when signed out or when the coupon is already bookmarked. Otherwise the coupon is bookmarked afterwards, only the bookmarks change, and the id is appended at the end. |
| Auth.AuthContext.SaveCoupon | project/src/contexts/AuthContext.tsx:72-90 | The session becomes `AfterSave` of the old one, and storage mirrors it. A duplicate-free bookmark list stays duplicate-free, and being authenticated is unchanged. |
| Auth.RemoveSaved | project/src/contexts/AuthContext.tsx:98 | The id is absent afterwards. Every other id keeps its presence and its number of occurrences. The order of the rest is kept. |
| Auth.RemoveSavedNoDup | project/src/contexts/AuthContext.tsx:98 | Removal keeps a bookmark list free of duplicates. |
| Auth.RemoveAbsentIsNoop | project/src/contexts/AuthContext.tsx:98 | Removing an id that is not bookmarked leaves the list unchanged. |
| Auth.RemoveIdempotent | project/src/contexts/AuthContext.tsx:98 | Removing the same id twice gives the same list as removing it once. |
| Auth.AfterRemove | project/src/contexts/AuthContext.tsx:92-104 | Nothing changes when signed out. Otherwise the coupon is no longer bookmarked, only the bookmarks change, every other id keeps its presence, and the order of the rest is kept. |
| Auth.AuthContext.RemoveSavedCoupon | project/src/contexts/AuthContext.tsx:92-104 | The session becomes `AfterRemove` of the old one, and storage mirrors it. A duplicate-free bookmark list stays duplicate-free, and being authenticated is unchanged. |
| Auth.SaveThenRemove | project/src/contexts/AuthContext.tsx:72-104 | Saving an id that was not bookmarked and then removing it restores the exact list. |
| Auth.SessionSaveThenRemove | project/src/contexts/AuthContext.tsx:72-104 | The same for the whole session, signed in or not. |
| Auth.SaveThenRemoveCoupon | project/src/contexts/AuthContext.tsx:72-104 | Calling `saveCoupon` then `removeSavedCoupon` on an unsaved id leaves session and storage exactly as before. |
| Auth.AuthContext.UpdateUserInfo | project/src/contexts/AuthContext.tsx:106-124 | Succeeds exactly when a user is signed in, and otherwise changes nothing. On success only name and email change. Id, password, bookmarks and creation date are kept, and storage mirrors the session. Being authenticated is unchanged. |
| Auth.AuthContext.ForgotPassword | project/src/contexts/AuthContext.tsx:126-141 | Reports success exactly when the directory has the email. |
| Auth.LoginScenario | project/src/contexts/AuthContext.tsx:28-36 | The directory's first account signs in with its password and gets the name "John Doe". A wrong password is refused. |
| Auth.RegisterScenario | project/src/contexts/AuthContext.tsx:44-62 | Two registrations with the same new email both succeed, and the second account gets the id "3", because the new account is never added to the directory. |
| Auth.RegisteredIdHasNoDirectoryBookmarks | project/src/data/index.ts:231-235 | The id given to a new account is unknown to the directory, so the directory lookup of its saved coupons is empty. |
| Catalog.CouponsOfBrand | project/src/data/index.ts:185-187 | Exactly the coupons with that brand id, each as often as in the table, in table order. |
| Catalog.BrandWithId | project/src/data/index.ts:190-192 | None exactly when no brand has the id. Otherwise the first brand with it. |
| Catalog.Featured | project/src/data/index.ts:195-197 | Exactly the featured brands, each as often as in the table, in table order. |
| Catalog.CouponsSavedIn | project/src/data/index.ts:235 | Exactly the coupons whose id is among the saved ids, each as often as in the table, in table order. |
| Catalog.SavedCouponsOf | project/src/data/index.ts:231-235 | An id absent from the directory gives no coupons. Otherwise the result is the coupons saved by the first entry with that id. |
| Catalog.SavedInIgnoresOrderAndRepeats | project/src/data/index.ts:235 | Two bookmark lists holding the same ids give the same coupons, whatever their order or repetitions. |
| Catalog.BrandIdsUnique | project/src/data/index.ts:5-78 | No two brands of the table share an id. |
| Catalog.CouponIdsUnique | project/src/data/index.ts:81-182 | No two coupons of the table share an id. |
| Catalog.CouponBrandsExist | project/src/data/index.ts:81-182 | Every coupon's brand id names a brand of the table. |
| Catalog.CategoriesCoverBrands | project/src/data/index.ts:220-228 | The category list starts with "All" and contains every brand's category. |
| Text.ToLower | project/src/pages/Brands.tsx:33-34 | Same length, no capital A-Z left, each capital replaced by its small letter, and every other character kept in place. |
| Text.ToLowerIdempotent | project/src/pages/Brands.tsx:33-34 | Lowercasing an already lowercased string changes nothing. |
| BrandsPage.BySearch | project/src/pages/Brands.tsx:31-36 | Exactly the brands whose lowercased name or description includes the lowercased term, each as often as in the table, in table order. |
| BrandsPage.ByCategory | project/src/pages/Brands.tsx:39-41 | Exactly the brands of that category, each as often as in the input, in order. |
| BrandsPage.FilteredBrands | project/src/pages/Brands.tsx:27-43 | A brand is shown exactly when it matches the term or the term is empty, and it is of the category or the category is "" or "All". Table order is kept. |
| BrandsPage.FilteredBrandsCounts | project/src/pages/Brands.tsx:27-43 | Each shown brand appears as often as the table lists it, and every other brand not at all. |
| BrandsPage.SearchIgnoresCase | project/src/pages/Brands.tsx:31-36 | A search term and its lowercase form show the same brands for every category. |
| BrandsPage.NoCriteriaShowsAll | project/src/pages/Brands.tsx:27-43 | With an empty term and the category "" or "All", every brand is shown in table order. |
| BrandsPage.SetParam | project/src/pages/Brands.tsx:68-69 | After setting, reading the key gives the new value, and every other key reads as before. |
| BrandsPage.UrlParams | project/src/pages/Brands.tsx:66-71 | The query has `search` exactly for a non-empty term and `category` exactly for a category other than "" and "All". It has no other key and at most two parameters. |
| BrandsPage.BrandsView.constructor | project/src/pages/Brands.tsx:10-13 | The term is the URL's non-empty `search`, or "". The category is the URL's non-empty `category`, or "All". The whole table is shown. |
| BrandsPage.BrandsView.SyncFromUrl | project/src/pages/Brands.tsx:16-25 | A non-empty `search` or `category` in the URL replaces the current term or category, and otherwise the current one is kept. The list becomes `FilteredBrands` of the table by the resulting pair. |
| BrandsPage.OpenBrandsPage | project/src/pages/Brands.tsx:10-25 | The first render followed by its effect shows `FilteredBrands` of the table by the URL's term and category, with the defaults "" and "All". |
| BrandsPage.BrandsView.TypeSearch | project/src/pages/Brands.tsx:95 | Typing sets only the search term. URL and list change only on submit. |
| BrandsPage.BrandsView.FilterBrands | project/src/pages/Brands.tsx:27-44 | The shown list becomes `FilteredBrands` of the table, and nothing else changes. |
| BrandsPage.BrandsView.UpdateUrlParams | project/src/pages/Brands.tsx:66-71 | The URL query becomes `UrlParams` of the term and category, built by successive sets on an empty query. |
| BrandsPage.BrandsView.ClearFilters | project/src/pages/Brands.tsx:59-64 | Term "" and category "All", an empty query, and the whole table shown. This agrees with `FilteredBrands` for the cleared criteria. |
| BrandsPage.BrandsView.HandleSearch | project/src/pages/Brands.tsx:46-50 | Query and list both follow the current term and category. |
| BrandsPage.BrandsView.HandleCategoryChange | project/src/pages/Brands.tsx:52-57 | The category becomes the chosen one, and query and list follow it with the current term. |
| BrandDetails.SameCategoryOthers | project/src/pages/BrandDetails.tsx:37-38 | Exactly the table's brands of the found brand's category with a different id, each as often as in the table, in order. |
| BrandDetails.RelatedBrands | project/src/pages/BrandDetails.tsx:37-39 | The first `min(3, n)` of those n brands. The brand itself is never among them, and table order is kept. |
| BrandDetails.SavedFlagFollowsSession | project/src/pages/BrandDetails.tsx:46-48 | After a save through the session, `isCouponSaved` holds exactly when someone is signed in. After a removal it never holds. |
| BrandDetails.ApplyCall | project/src/pages/BrandDetails.tsx:117-118 | A card's callback never signs anyone in or out and changes only the bookmarks. No call changes nothing. A save leaves a signed-in user's coupon saved, and a removal leaves it unsaved. |
| BrandDetails.ToggleTwiceRestores | project/src/pages/BrandDetails.tsx:111-118 | On this page a card gets `isSaved` from the session and both callbacks. So the first click on an unsaved coupon saves it, the second removes it, and the session is back where it started. |
| BrandDetails.BrandDetailsView.constructor | project/src/pages/BrandDetails.tsx:15-18 | No brand, no coupons, no related brands, still loading, no navigation. |
| BrandDetails.BrandDetailsView.Load | project/src/pages/BrandDetails.tsx:20-43 | A missing id changes nothing. An unknown id navigates to "/not-found" and changes nothing else. A known id sets the brand with that id, that brand's coupons and the related brands, and ends loading. |
| CouponCard.HandleSaveToggle | project/src/components/CouponCard.tsx:35-41 | A click calls `onRemove` exactly when the coupon is saved and the callback is given. It calls `onSave` exactly when it is unsaved and that callback is given. Otherwise it calls nothing. Any call carries the coupon's id. |
| CouponCard.ExpiredCardIsReadOnly | project/src/components/CouponCard.tsx:104-127 | An expired coupon offers neither the save toggle nor copying. An active one always allows copying and offers the toggle exactly to a signed-in user. |
| CouponCard.DisplayedBrand | project/src/components/CouponCard.tsx:23 | A given `brand` prop takes precedence. Without it, a brand is found exactly when the table has the coupon's brand id, and the brand found is a table brand carrying that id. |
| CouponCard.BrandHeaderShown | project/src/components/CouponCard.tsx:52 | The brand header appears exactly when `showBrand` is set and either the prop is given or the table has the coupon's brand. |
| CouponCard.TableCouponsShowBrand | project/src/components/CouponCard.tsx:23 | For every coupon of the table, the fallback finds a brand, and its id is the coupon's brand id. |

## Left out

- Rendering (JSX, animations, icons, CSS classes) and the loading screens are left out. Only the state and the decisions behind what is rendered are modelled.
- Toast notifications are left out. They do not change state.
- The simulated 800 ms network delays are left out. Each asynchronous operation is modelled as completing atomically, so interleavings of concurrent calls are not modelled.
- JSON serialisation and `localStorage` are left out. The storage entry is an `Option<User>` slot, and a stored record is taken to read back identically. Malformed stored JSON, which would throw, is not modelled.
- Dates are left out (`date-fns`, `new Date()`). Whether a coupon is expired is the boolean `isExpired`, the registration timestamp is the parameter `now`, and date strings are never interpreted.
- Text.ToLower: lowercases ASCII A-Z only, not the full Unicode mapping of `toLowerCase`.
- The copy-to-clipboard action and its two-second "copied" indicator are left out. They are timer-driven display state.
- Routing is left out. A navigation is recorded only as the target path in `BrandDetailsView.redirect`. A missing route id is the empty string.
- The Brands page's filter-panel toggle (`isFilterOpen`) and its active-filter chips are left out. The chips only re-run the modelled handlers.
- `SyncFromUrl` is not re-run automatically when the URL changes. A caller invokes it after each change of `searchParams`.
- CouponCard's default props (`showBrand = true`, `isSaved = false`, CouponCard.tsx:14-15) are not defaults in the model. The functions take these values as explicit arguments.
- `useAuth`'s error when used outside the provider is left out. It is a React wiring check.
- The Home, Profile, ForgotPassword, NotFound pages, the Navbar, the Footer and the layouts are not part of this model. They only call the operations modelled here.
