# Library management: a verified model of its core rules

The repository is a library back office: an Inertia/React front end over a Laravel
back end with a PostgreSQL database. Staff manage users and their permissions,
floors, zones, bookcases, books and loans. This project models in Dafny the rules
in that code:

- **User timeline.** The date filter, the loan/reservation tags, the newest-first
  merge, and the colour rules of the dots and cards (`TimeLine`).
- **User form.** The permission selection with its toggle, role and checkbox rules,
  the validators, and where the form submits and returns to (`UserForm`).
- **Loans.**
  - The `return` transition and the `store` validation (`LoanController`, over the
    `Loans` model classes).
  - The update action (`LoanUpdateAction`).
  - The loan form (`LoanForm`).
- **Zones.**
  - The zone form (`ZoneForm`).
  - Decoding the four-slot zone search and the query it runs (`ZoneIndexAction`).
  - The zone projection (`ZoneResource`).
  - The zones index page: its search array, genre picker and paging state
    (`ZonesIndexPage`).
- **Bookcases.** The bookcases index page (`BookcasesIndexPage`).
- **Books.** Book creation with its genre column (`BookStoreAction`).
- **Tables.** The `floors` and `bookcases` tables with their constraints
  (`FloorsTable`, `BookcasesTable`).

Shared modules:

| module | what it holds |
|---|---|
| `Wrappers` | `Option` and `Result` |
| `Text` | character classes, `join` / `implode`, `explode`, decimal printing, `parseInt` |
| `Seqs` | order-preserving `filter` and the subsequence relation |
| `Sorting` | a stable descending sort |
| `QueryParams` | `URLSearchParams.get` over `url.split('?')[1]`, the page defaults, the return URLs |
| `Validation` | the first-failing-check rule shared by the form validators, and the e-mail pattern |
| `SqlTypes` | the range of the PostgreSQL `integer` type |

Modelling choices:

- **Form checks.** The front-end validators, URL builders and filters are pure
  conditionals. They are modelled as functions.
- **State.** The state that the source changes in place is modelled as classes whose
  methods are specified by pure functions:
  - the module-level permission list;
  - the Eloquent loan instance and its table;
  - the React page state;
  - the database tables.
- **Outside inputs are parameters.** These include:
  - the clock (`now`, `today`);
  - date parsing (`parseISO`, Laravel's `date` rule) and `Number()`;
  - the `exists:` lookups (sets of e-mails and ISBNs);
  - the RFC e-mail check;
  - the generated UUIDs.
- **Timestamps.** A timestamp is an integer number of seconds. A calendar day `d` runs
  from second `d * 86400` to second `d * 86400 + 86399`.
- **Laravel errors.** PHP notices and warnings become exceptions in Laravel, and an
  SQL comparison of an integer column with text that is not an integer fails. Both are
  modelled as `Err`.

## Model

| member | source | states |
|---|---|---|
| TimeLine.FilterByDateRange | resources/js/pages/users/components/TimeLine.tsx:223-234 | With no bound the input comes back unchanged, undated records included. With either bound, every kept record is dated, and a record is kept exactly when it is dated, on or after the start day's first second when a start is given, and on or before the end day's last second when an end is given. A kept record appears as many times as in the input. The result is always a subsequence of the input, with no value more often than there. |
| TimeLine.TagLoans | resources/js/pages/users/components/TimeLine.tsx:236-239 | One item per loan, in order, tagged as a loan and carrying the loan's fields. |
| TimeLine.TagReservations | resources/js/pages/users/components/TimeLine.tsx:241-244 | One item per reservation, in order, tagged as a reservation and carrying its fields. |
| TimeLine.Combined | resources/js/pages/users/components/TimeLine.tsx:246-250 | The merged list is sorted by `expedit` descending, with null counted as 0. It is a permutation of the filtered loans followed by the filtered reservations. |
| TimeLine.UndatedLast | resources/js/pages/users/components/TimeLine.tsx:246-250 | No item dated after the epoch comes after an undated one, since null sorts as 0. |
| TimeLine.TiesKeepOrder | resources/js/pages/users/components/TimeLine.tsx:246-250 | Items with equal dates keep their order from the concatenation, loans before reservations (the sort is stable). |
| TimeLine.UnboundedKeepsAll | resources/js/pages/users/components/TimeLine.tsx:223-224 | With no date bounds, the timeline shows every loan and every reservation. |
| TimeLine.DotColorOf | resources/js/pages/users/components/TimeLine.tsx:76-86 | The dot colour follows the status: a deleted item is grey; a loan with a return is primary, an overdue loan is error and any other loan is success; a reservation is primary. |
| TimeLine.DotVariantOf | resources/js/pages/users/components/TimeLine.tsx:88 | The dot is outlined exactly when the item is deleted. |
| TimeLine.CardBackgroundOf | resources/js/pages/users/components/TimeLine.tsx:104-113 | The card is gray when deleted, red for an overdue loan, blue for any other loan and purple for a reservation. A returned loan is red when it is flagged overdue. |
| TimeLine.ReturnedOverdueDisagree | resources/js/pages/users/components/TimeLine.tsx:76-113 | For a returned loan flagged overdue, the dot is primary and the card is red: the two rules disagree. |
| UserForm.Dependents | resources/js/pages/users/components/UserForm.tsx:124-141 | Only the four root permissions have dependents, and no permission depends on itself. |
| UserForm.CheckboxDisabled | resources/js/pages/users/components/UserForm.tsx:114-120 | A root checkbox is never disabled. Any other checkbox is disabled exactly when its category's parent is not selected. |
| UserForm.Toggled | resources/js/pages/users/components/UserForm.tsx:122-148 | An absent permission is appended at the end and nothing else changes. A present permission is removed, every occurrence of it, together with its dependents. Every other selected permission remains, each as many times as before. |
| UserForm.ToggleOffIsSubseq | resources/js/pages/users/components/UserForm.tsx:123-143 | Removing a permission keeps the order of the permissions that remain. |
| UserForm.NonRootRemovesOnlyItself | resources/js/pages/users/components/UserForm.tsx:122-143 | Removing a non-root permission removes that permission and nothing else. |
| UserForm.ToggleTwice | resources/js/pages/users/components/UserForm.tsx:122-148 | Toggling an absent permission twice restores the list when it is not a root. For a root it leaves the list minus the root's dependents. |
| UserForm.RootOffDisablesDependents | resources/js/pages/users/components/UserForm.tsx:114-141 | After a root is turned off, each of its dependents is unselected and its checkbox is disabled. |
| UserForm.ReplayDistinct | resources/js/pages/users/components/UserForm.tsx:150-157 | Replaying a role whose permissions are distinct selects exactly that list, in the role's order. |
| UserForm.RepeatedPermissionCancels | resources/js/pages/users/components/UserForm.tsx:150-157 | A permission listed twice in a role ends up unselected. |
| UserForm.PermissionSelection.constructor | resources/js/pages/users/components/UserForm.tsx:58 | The selection starts empty. |
| UserForm.PermissionSelection.Reset | resources/js/pages/users/components/UserForm.tsx:65-73 | On mount the selection becomes the user's permissions when both the user and their permissions are given, and empty otherwise. |
| UserForm.PermissionSelection.Toggle | resources/js/pages/users/components/UserForm.tsx:122-148 | The new selection is the toggled old one. |
| UserForm.PermissionSelection.SelectRole | resources/js/pages/users/components/UserForm.tsx:150-157 | The selection is cleared and the role's permissions are toggled in order. A role with no entry leaves the selection empty and fails. |
| UserForm.ValidateName | resources/js/pages/users/components/UserForm.tsx:190-194 | Empty is `required`, one character is `min`, and two or more characters are valid. |
| UserForm.ValidatePassword | resources/js/pages/users/components/UserForm.tsx:274-283 | Empty is `required` when creating and valid when editing. A non-empty password shorter than 8 is `min`, and one of 8 or more is valid. |
| UserForm.SubmitTarget | resources/js/pages/users/components/UserForm.tsx:106-110 | PUT exactly when a user is being edited, to `/users/` followed by that user's id; otherwise POST `/users`. |
| UserForm.ReturnUrlReadBack | resources/js/pages/users/components/UserForm.tsx:90-96 | From the URL the form returns to, the users index reads the page when one was given, and the page size only together with a page. |
| Validation.FirstFailure | resources/js/pages/loans/components/LoanForm.tsx:187-200 | Valid exactly when every check passes. Otherwise the verdict names the rule of the first failing check. |
| Validation.EmailPatternIff | resources/js/pages/users/components/UserForm.tsx:233 | The structural reading of `^[^\s@]+@[^\s@]+\.[^\s@]+$` agrees with the character-level test: one `@`, no white space, a non-empty local part, and a `.` in the domain that is neither first nor last. |
| Validation.ValidateEmail | resources/js/pages/loans/components/LoanForm.tsx:105-111 | Empty is `required`. A value is valid exactly when it matches the pattern. Anything else is `email`. The same validator serves the user form (UserForm.tsx lines 229-235). |
| LoanController.ReturnTransition | src/App/Loans/Controllers/LoanController.php:63-78 | An inactive loan is rejected as already returned. An active loan becomes inactive with its return date set to now. |
| LoanController.Return | src/App/Loans/Controllers/LoanController.php:63-78 | The loan and the saved rows follow the transition. A rejection changes neither. |
| LoanController.InactiveStaysInactive | src/App/Loans/Controllers/LoanController.php:65-69 | Any number of returns on an inactive loan change nothing and none succeeds. |
| LoanController.ReturnedAtMostOnce | src/App/Loans/Controllers/LoanController.php:63-78 | Over any series of returns at most one succeeds, and the return date is the time of the first. |
| LoanController.FieldFailures | src/App/Loans/Controllers/LoanController.php:38-42 | A field passes exactly when it is not blank and every rule holds. A blank field fails `required` alone. |
| LoanController.EmailAcceptedIff | src/App/Loans/Controllers/LoanController.php:39 | `email` passes exactly when present, non-blank, an RFC address and the e-mail of an existing user. |
| LoanController.IsbnAcceptedIff | src/App/Loans/Controllers/LoanController.php:40 | `isbn` passes exactly when present, non-blank and the ISBN of an existing book. |
| LoanController.DueDateAcceptedIff | src/App/Loans/Controllers/LoanController.php:41 | `due_date` passes exactly when present, non-blank, a date, and strictly after today. |
| LoanController.StoreAcceptsIff | src/App/Loans/Controllers/LoanController.php:38-42 | The request is accepted exactly when all three fields pass. |
| LoanController.LoanStoreAction.Invoke | src/App/Loans/Controllers/LoanController.php:48 | Each invocation is recorded with the data it received. |
| LoanController.Store | src/App/Loans/Controllers/LoanController.php:36-52 | On failure the error bag comes back and the action is not invoked. On success the action is invoked once, with the three validated fields only. |
| Loans.Loan.constructor | src/Domain/Loans/Models/Loan.php:15-23 | A loan instance holds the given row. |
| Loans.LoanTable.Save | src/App/Loans/Controllers/LoanController.php:73 | Saving stores the instance's current attributes under its id. |
| Loans.LoanTable.Fresh | src/Domain/Loans/Actions/LoanUpdateAction.php:25 | Reloading gives the stored row, or null when the id is not stored. |
| LoanUpdateAction.Filled | src/Domain/Loans/Actions/LoanUpdateAction.php:13-19 | `user_id`, `book_id` and `due_date` take the supplied values. `is_active` keeps the current value when none is supplied and takes the supplied one otherwise. `is_late` is not fillable (Loan.php lines 15-23), so the instance keeps its own value whatever is supplied. The return date is untouched. |
| LoanUpdateAction.SuppliedIsLateDiscarded | src/Domain/Loans/Models/Loan.php:15-23 | Supplying `is_late` to the update fills the instance exactly as leaving it out does, and the instance keeps its own `is_late`. |
| LoanUpdateAction.FilledIdempotent | src/Domain/Loans/Actions/LoanUpdateAction.php:13-19 | Filling twice with the same data is the same as filling once. |
| LoanUpdateAction.FillCanReactivate | src/Domain/Loans/Actions/LoanUpdateAction.php:17 | Nothing stops an update from making a returned loan active again, and its return date stays. |
| LoanUpdateAction.Update | src/Domain/Loans/Actions/LoanUpdateAction.php:10-26 | The instance is filled (without `is_late`, which is not fillable), the table is unchanged (the save is commented out), and the result is the reloaded stored row, not the filled values. |
| LoanForm.ValidateIsbn | resources/js/pages/loans/components/LoanForm.tsx:140-153 | Empty is `required`. Anything not made only of decimal digits is `numeric`. Otherwise the value is valid. |
| LoanForm.ValidateDueDate | resources/js/pages/loans/components/LoanForm.tsx:185-201 | Empty is `required`, unparsable is `date`, and not strictly after now is `after_today`. Otherwise the value is valid. |
| LoanForm.DefaultValues | resources/js/pages/loans/components/LoanForm.tsx:50-54 | Without initial data every field is empty. With it, e-mail and ISBN are copied and the due date is a prefix of the ISO string. |
| LoanForm.DefaultDueDateIsDate | resources/js/pages/loans/components/LoanForm.tsx:53 | The default due date is the ISO string's part before `T`. |
| LoanForm.SubmitTarget | resources/js/pages/loans/components/LoanForm.tsx:76-81 | PUT exactly when the initial data has a truthy id, to `/loans/` followed by that id; otherwise POST `/loans`. |
| LoanForm.ReturnUrlReadBack | resources/js/pages/loans/components/LoanForm.tsx:63-65 | With a page, the loans index reads back the page and the page size. Without a page, a page size ends up in the path and is lost. |
| ZoneForm.ValidateNumber | resources/js/pages/zones/components/ZoneForm.tsx:159-171 | Empty is `required`, not numeric is `integer`, and there is no positivity check. |
| ZoneForm.ValidateCapacity | resources/js/pages/zones/components/ZoneForm.tsx:202-219 | Empty is `required`, not numeric is `integer`, and a number at most 0 is `min`. Otherwise the value is valid. |
| ZoneForm.ValidateFloorId | resources/js/pages/zones/components/ZoneForm.tsx:128-132 | Empty is `required`. An id no listed floor has is `invalid_selection`. Otherwise the value is valid. |
| ZoneForm.FloorItems | resources/js/pages/zones/components/ZoneForm.tsx:270-281 | While the floors load there is one disabled "loading" entry. Afterwards there is one entry per floor, in order, with the floor's id as value and "label number -- zones/capacity" as text. An entry is disabled exactly when the floor's `zones_count` is at least its `capacity` (`OptionDisabled`). |
| ZoneForm.PickableFloorsHaveRoom | resources/js/pages/zones/components/ZoneForm.tsx:270-281 | Nothing can be picked while loading. Afterwards an entry can be picked exactly when its floor has room for another zone, and a picked non-empty id passes `ValidateFloorId`. |
| ZoneForm.FullFloorPassesValidation | resources/js/pages/zones/components/ZoneForm.tsx:128-132 | The id of a full floor, whose option is disabled at line 277, still passes validation. |
| ZoneForm.ToggleGenre | resources/js/pages/zones/components/ZoneForm.tsx:342 | Picking the current genre clears the field. Picking another genre sets it. |
| ZoneForm.ValidateGenre | resources/js/pages/zones/components/ZoneForm.tsx:295-297 | An empty genre is `required`, and any other genre is valid. |
| ZoneForm.ToggleGenreThenValidate | resources/js/pages/zones/components/ZoneForm.tsx:295-342 | After a pick the field is valid exactly when a different genre was picked. Picking the same genre twice restores or clears the field. |
| ZoneForm.SubmitTarget | resources/js/pages/zones/components/ZoneForm.tsx:115-119 | PUT `/zones/{id}` exactly when editing; otherwise POST `/zones`. |
| ZoneForm.ReturnUrlReadBack | resources/js/pages/zones/components/ZoneForm.tsx:105-107 | The same as for the loan form. The cancel button at line 374 builds the same URL. |
| ZoneResource.FindFloor | src/Domain/Zones/Data/Resources/ZoneResource.php:26 | Finds the floor with the zone's `floor_id` exactly when one exists. |
| ZoneResource.FromModel | src/Domain/Zones/Data/Resources/ZoneResource.php:23-39 | A projection exists exactly when the zone's floor exists. `id`, `number`, `capacity` and `genre_name` are copied. The output `floor_id` reads back as that floor's `floor_number`, not its id. |
| ZoneIndexAction.FirstFloorNumbered | src/Domain/Zones/Actions/ZoneIndexAction.php:18-20 | The floor found has the requested number. None is found exactly when no floor has that number. |
| ZoneIndexAction.CriteriaOf | src/Domain/Zones/Actions/ZoneIndexAction.php:11-36 | Fewer than four slots fail as an undefined offset. Otherwise decoding fails, as an invalid integer, exactly when the number, capacity or floor slot holds text that is neither "null" nor a decimal integer literal within PostgreSQL's `integer` range (see "Integer text in SQL" under Left out). The genre slot never fails. |
| ZoneIndexAction.IntegerTextAcceptedIff | src/Domain/Zones/Actions/ZoneIndexAction.php:18-29 | The decimal text of an integer is accepted in an integer slot exactly when it fits `integer` (-2147483648 to 2147483647); beyond that the query fails. |
| ZoneIndexAction.MatchesIff | src/Domain/Zones/Actions/ZoneIndexAction.php:13-36 | Stated on the raw slots: a zone matches exactly when each slot is "null" or agrees with it. Slot 0 must equal its number, slot 1 its capacity, slot 2 must be contained in its genre ignoring case, and slot 3 must be the number of the floor it stands on. |
| ZoneIndexAction.MatchingZones | src/Domain/Zones/Actions/ZoneIndexAction.php:24-37 | The listed zones are a permutation of the matching zones, sorted newest first. |
| ZoneIndexAction.AllNullListsEverything | src/Domain/Zones/Actions/ZoneIndexAction.php:18-37 | A search of four "null" slots lists every zone, each as many times as it occurs. |
| ZoneIndexAction.Project | src/Domain/Zones/Actions/ZoneIndexAction.php:40 | Every listed zone goes through the resource projection, in order. The search fails when one of them has no floor. |
| ZoneIndexAction.Search | src/Domain/Zones/Actions/ZoneIndexAction.php:11-40 | With no search array the action fails at the first offset. Otherwise it succeeds exactly when the search decodes and every matching zone's floor exists. It then gives the resource of each matching zone, with the zones a permutation of the matching ones, newest first. |
| ZonesIndexPage.OrNull | resources/js/pages/zones/Index.tsx:37-40 | Every slot sent is non-empty. |
| ZonesIndexPage.Sent | resources/js/pages/zones/Index.tsx:44-45 | Every slot reaches the action as the string the page wrote. This holds for slots without surrounding blanks (see "Request middleware" under Left out). |
| ZonesIndexPage.SlotValueOfOrNull | resources/js/pages/zones/Index.tsx:37-40 | A slot decodes to the value the user meant: a truthy value other than the text "null". |
| ZonesIndexPage.SearchFiltersSlots | resources/js/pages/zones/Index.tsx:36-41 | The array has four slots. The action's genre slot carries the floor filter, and its floor slot carries the genre. |
| ZonesIndexPage.FloorSentAsGenre | resources/js/pages/zones/Index.tsx:39-40 | Filtering on floor 2 is decoded as the genre filter "2", with no floor filter. |
| ZonesIndexPage.GenreSentAsFloor | resources/js/pages/zones/Index.tsx:39-40 | Choosing the genre "Fantasy" makes the search fail: "Fantasy" lands in the integer floor slot. |
| ZonesIndexPage.SearchFiltersFixedSlots | resources/js/pages/zones/Index.tsx:36-41 | In the corrected encoding each slot carries the filter the action reads from it. |
| ZonesIndexPage.FixedSearchFiltersAsChosen | resources/js/pages/zones/Index.tsx:36-41 | With the corrected encoding, a zone is listed exactly when it agrees with each filter the user set. |
| ZonesIndexPage.FirstOccurrencesMembers | resources/js/pages/zones/Index.tsx:54-58 | The genres offered are exactly the non-empty genre names of the zones. |
| ZonesIndexPage.FirstOccurrencesDistinct | resources/js/pages/zones/Index.tsx:54-58 | No genre is offered twice. |
| ZonesIndexPage.GenreOptions | resources/js/pages/zones/Index.tsx:52-59 | No options without data. Otherwise one option per distinct non-empty genre, in first-occurrence order, each with its label equal to its value. |
| ZonesIndexPage.IndexState.constructor | resources/js/pages/zones/Index.tsx:25-33 | The page starts at the URL's `page`, default 1; the page size at `per_page`, default 10; no filters and no genre. |
| ZonesIndexPage.IndexState.ChangePage | resources/js/pages/zones/Index.tsx:63-65 | Only the page changes. |
| ZonesIndexPage.IndexState.ChangePerPage | resources/js/pages/zones/Index.tsx:67-70 | The new page size, back to page 1. |
| ZonesIndexPage.IndexState.ChangeFilters | resources/js/pages/zones/Index.tsx:158-161 | The new filters, back to page 1. |
| ZonesIndexPage.IndexState.SelectGenre | resources/js/pages/zones/Index.tsx:203-207 | The picked genre, back to page 1. |
| ZonesIndexPage.IndexState.SelectAllGenres | resources/js/pages/zones/Index.tsx:190-194 | No genre, back to page 1. The genre slot is sent as "null". |
| QueryParams.SearchParamOfQuery | resources/js/pages/zones/Index.tsx:25-27 | From `path?query` written from safe parameters, `get(name)` reads the first value of that name and the path is recovered. |
| QueryParams.NoQueryNoParams | resources/js/pages/zones/Index.tsx:25 | A URL without `?` has an empty query, so every parameter reads as null. |
| QueryParams.InitialPage | resources/js/pages/zones/Index.tsx:30 | Without a truthy `page` parameter the page is 1. |
| QueryParams.InitialPerPage | resources/js/pages/zones/Index.tsx:31 | Without a truthy `per_page` parameter the page size is 10. |
| QueryParams.PageDefaults | resources/js/pages/bookcases/Index.tsx:20-25 | Without a query the page is 1 and the page size 10. |
| QueryParams.PageLinkParams | resources/js/pages/bookcases/Index.tsx:20-22 | `path?page=p&per_page=n` reads back `p` and `n`. |
| QueryParams.PageRoundTrip | resources/js/pages/bookcases/Index.tsx:20-25 | A page link written with decimal numbers sets the initial page and page size to those numbers. |
| QueryParams.ReturnUrlReadBack | resources/js/pages/loans/components/LoanForm.tsx:63-65 | The corrected return URL reads back its path and exactly the truthy parameters. |
| QueryParams.FlatReturnUrlWithPage | resources/js/pages/loans/components/LoanForm.tsx:63-65 | With a page, the flat builder already writes the intended URL. |
| QueryParams.FlatReturnUrlDropsPerPage | resources/js/pages/loans/components/LoanForm.tsx:63-65 | Without a page, the flat builder gives `base&per_page=n`: a path with no query that loses the page size and differs from the intended URL. |
| QueryParams.NestedReturnUrlReadBack | resources/js/pages/users/components/UserForm.tsx:410-416 | The nested builder keeps `per_page` only together with `page`. With a page it writes the intended URL; without one, the bare path. |
| BookcasesIndexPage.CombinedSearch | resources/js/pages/bookcases/Index.tsx:27-30 | Empty when neither search nor zone is set. It is exactly the search text when only that is set, and exactly `zone_id:` and the zone when only that is set. With both it is the search text, one space, then the zone part. |
| BookcasesIndexPage.SearchParts | resources/js/pages/bookcases/Index.tsx:27-30 | Falsy parts are dropped before joining. |
| BookcasesIndexPage.OtherFiltersIgnored | resources/js/pages/bookcases/Index.tsx:27-30 | No filter other than `search` and `zone_id` affects the search string. |
| BookcasesIndexPage.PageFiltersSearchNothing | resources/js/pages/bookcases/Index.tsx:121-135 | The page's own filter inputs are `number` and `capacity`, so whatever is typed there the search string is empty. |
| BookcasesIndexPage.CombinedSearchSplits | resources/js/pages/bookcases/Index.tsx:27-30 | When no value holds a space, splitting the search string on spaces gives back its parts, search text first. |
| BookcasesIndexPage.IndexState.constructor | resources/js/pages/bookcases/Index.tsx:20-26 | The page starts at the URL's `page`, default 1; the page size at `per_page`, default 10; no filters. |
| BookcasesIndexPage.IndexState.ChangePage | resources/js/pages/bookcases/Index.tsx:39-41 | Only the page changes. |
| BookcasesIndexPage.IndexState.ChangePerPage | resources/js/pages/bookcases/Index.tsx:43-46 | The new page size, back to page 1. |
| BookcasesIndexPage.IndexState.ChangeFilters | resources/js/pages/bookcases/Index.tsx:135 | The new filters. Unlike on the zones page, the page is kept. |
| BookStoreAction.GenresColumn | src/Domain/Books/Actions/BookStoreAction.php:12 | No genres give "" and one genre gives itself. |
| BookStoreAction.GenresRoundTrip | src/Domain/Books/Actions/BookStoreAction.php:12 | For a non-empty list in which no genre contains ", ", splitting the stored column on ", " gives the list back in order. |
| BookStoreAction.NoGenresReadBack | src/Domain/Books/Actions/BookStoreAction.php:12 | An empty list is stored as "", which splits back as one empty genre. |
| BookStoreAction.NewRow | src/Domain/Books/Actions/BookStoreAction.php:14-22 | `title`, `author`, `editor`, `length`, `isbn` and `bookcase_id` are copied unchanged, and `genres` is the joined list. |
| BookStoreAction.Books.Store | src/Domain/Books/Actions/BookStoreAction.php:10-25 | The insert succeeds for every fresh id whatever the bookcase and its capacity, adds exactly the new row and returns it. A taken id changes nothing. |
| FloorsTable.Inserted | database/migrations/2025_03_25_080409_create_floors_table.php:15-17 | An insert succeeds exactly when both numbers fit `integer`, the id is new and the floor number is not taken. It then adds exactly that row and keeps the table valid: numbers unique and in range. |
| FloorsTable.InsertsKeepNumbersUnique | database/migrations/2025_03_25_080409_create_floors_table.php:16 | After any series of inserts, accepted or not, no two floors share a number. |
| FloorsTable.Floors.Insert | database/migrations/2025_03_25_080409_create_floors_table.php:15-17 | The table follows the insert rule and stays valid. A rejected insert leaves it unchanged. |
| BookcasesTable.Inserted | database/migrations/2025_03_31_074003_create_bookcases_table.php:15-18 | An insert succeeds exactly when both numbers fit `integer`, the id is new and the zone exists. It then adds exactly that row and keeps every bookcase in an existing zone. |
| BookcasesTable.Cascade | database/migrations/2025_03_31_074003_create_bookcases_table.php:18 | Deleting a zone removes every bookcase of that zone and leaves every other bookcase as it was. |
| BookcasesTable.CascadeKeepsIntegrity | database/migrations/2025_03_31_074003_create_bookcases_table.php:18 | After the cascade, every remaining bookcase stands in a remaining zone. |
| BookcasesTable.CascadeOfEmptyZone | database/migrations/2025_03_31_074003_create_bookcases_table.php:18 | Deleting a zone that holds no bookcase removes no bookcase. |
| BookcasesTable.Bookcases.Insert | database/migrations/2025_03_31_074003_create_bookcases_table.php:15-18 | The table follows the insert rule and stays valid. A rejected insert leaves it unchanged. |
| BookcasesTable.Bookcases.DeleteZone | database/migrations/2025_03_31_074003_create_bookcases_table.php:18 | The zone goes, its bookcases go with it, and the table stays valid. |

## Left out

- **Framework and presentation.** Rendering, React hooks as such, router navigation,
  query invalidation, toasts, translation strings, the asynchronous validator delays and
  SQL pagination are not modelled. A page's state is a class, and each handler is a
  method.
- **Dates and clocks.**
  - Parsing: `new Date`, `parseISO`/`isValid`/`isAfter` and Laravel's `date` rule are
    parameters or integer timestamps.
  - Time zones: the time line's day bounds are in local time and are taken as UTC.
  - Formatting: formatted timestamps (`created_at` of a resource) are not modelled, and
    an `expedit` that does not parse is not modelled.
- **`Number()`.** JavaScript `Number()` parsing for the zone form is a parameter.
- **`parseInt`.**
  - It is modelled in radix 10 only; `0x` prefixes are not modelled.
  - Numbers beyond the safe integer range are not modelled.
- **URLs.** Percent-decoding and `+` as space in `URLSearchParams` are not modelled. The
  read-back lemmas hold for values that need no encoding.
- **Strings.**
  - String length is counted in code points, not UTF-16 code units.
  - Case folding in `ILIKE` is ASCII only.
  - `%` and `_` inside the genre text are taken literally, not as `LIKE` wildcards.
  - The genre picker's search box (`cmdk`) is not modelled.
- **Integer text in SQL.** `ZoneIndexAction.CriteriaOf` and `ZoneIndexAction.Search` accept
  only an optional sign and decimal digits. PostgreSQL's `integer` input also accepts
  these, which the model rejects with `InvalidInteger`:
  - surrounding white space;
  - from PostgreSQL 16 on, `0x`, `0o` and `0b` prefixes and `_` digit separators
    (`"0x10"` is 16, `"1_000"` is 1000).
- **Request middleware.** Laravel's `TrimStrings` and `ConvertEmptyStringsToNull` run before
  the zone action. The slots `CriteriaOf` and `Search` take are the values after that
  middleware, so a slot of blanks arrives as PHP null (`None`); the trimming itself is not
  modelled. `ZonesIndexPage.Sent` passes each slot the page writes on unchanged, so it
  holds only for slots without surrounding blanks: a number filter of blanks reaches the
  action as null and lists nothing, where the model's chain reports `InvalidInteger`. `Search` takes the `search` parameter as an array of slots or as absent; a
  `search` sent as a single string is not modelled.
- **Zone columns.** The zones migration is not part of this model. Its `number` and
  `capacity` are taken as `integer`, like the floor and bookcase columns, so the zone
  search's range check applies to them too.
- **Time line records.** `TagLoans` and `TagReservations` carry only the fields that the
  colour and sort rules read. Display-only fields copied by the spread (`due_date`,
  `end_due`, the `remaining_*` counts) are not modelled.
- **SQL row order.**
  - Ties in `latest()` keep table order; SQL leaves that order unspecified.
  - `first()` without an `orderBy` is the first row in table order.
  - The time line's sort is taken as stable, as `Array.prototype.sort` is.
- **`arrayPermisosState`.** The React mirror of the permission list is left out; the
  model keeps the module-level list it copies.
- **User form defaults.** The user form's default values (name and e-mail copied, an
  empty password) are left out.
- **Mass assignment.** Of `$fillable`, the model captures only what the modelled code
  depends on: `LoanUpdateAction.Filled` drops `is_late`, which is not fillable. With
  `preventSilentlyDiscardingAttributes` switched on, Laravel would throw instead; that
  setting is not modelled.
- **The text "null".** A filter whose value is literally "null" means "no filter" to the
  zone action. The model proves this collision (`SlotValueOfOrNull`) but does not change
  it.
- **Missing keys in an update.** A missing `$data` key in `LoanUpdateAction` (an
  undefined-index error) is not modelled: its data is a complete record.
- **Column names.** `return()` writes `return_date` (LoanController.php line 72) while the
  Loan model declares `returned_at` (Loan.php line 21). The model follows the controller
  and does not reconcile the two.
- **Resources.** `LoanResource`, `BookResource` and the `books` and `zones` tables are not
  part of this model.
  - The book store's result is the inserted row.
  - `books` has no foreign-key check.
  - `zones` is reduced to its set of keys, and `AddZone` stands in for inserting a zone.
- **PostgreSQL checks.** The order in which PostgreSQL checks a range error, the primary
  key and the unique index is fixed as range, then id, then number or zone.
- **Timestamps columns.** The `timestamps()` columns of both tables are not modelled.
- **Bookcase edit link.** The bookcase index's edit link writes `perPage=` rather than
  `per_page=` (bookcases/Index.tsx line 84). The page that reads it is not part of this
  model.
- **Concurrency.** Concurrent requests and transactions are not modelled.

## Findings

| source | as written | input that shows it | evidently intended | confidence | as-written member | corrected member |
|---|---|---|---|---|---|---|
| resources/js/pages/loans/components/LoanForm.tsx:63-65 | `?page=` and `&per_page=` are appended independently. | page absent, perPage "25": the URL is `/loans&per_page=25`. That path has no query, so the page size is lost. | `per_page` goes after `?` when there is no page. | not executed | QueryParams.FlatReturnUrlDropsPerPage | QueryParams.ReturnUrlReadBack |
| resources/js/pages/zones/components/ZoneForm.tsx:105-107 | As in the loan form, `?page=` and `&per_page=` are appended independently; the cancel URL at line 374 is built the same way. | page absent, perPage "25": the URL is `/zones&per_page=25`. | `per_page` goes after `?` when there is no page. | not executed | QueryParams.FlatReturnUrlDropsPerPage | QueryParams.ReturnUrlReadBack |
| resources/js/pages/zones/Index.tsx:36-41 | The search array is sent as `[number, capacity, floor, genre]`, but the action reads `[number, capacity, genre, floor]` (ZoneIndexAction.php lines 13-16). | The floor filter "2" becomes the genre filter "2". The genre "Fantasy" becomes a floor number, and the query fails. | The slots go in the order the action reads. | not executed | ZonesIndexPage.FloorSentAsGenre | ZonesIndexPage.FixedSearchFiltersAsChosen |
