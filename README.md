# Farm-Connect: session store and machinery listing

This project models the two pieces of the Farm-Connect farmer portal that hold sequential logic, and proves properties about them.

- **The mock session store** (`src/contexts/AuthContext.tsx`). It keeps three pieces of state: an in-memory user table, the current session, and one persisted slot (the browser storage key `farmer_connect_user`). It offers restore-on-start, `login`, `register` and `logout`. `login` has two paths. The OTP path takes the sentinel credential `"otp_verified"` and matches the email or the phone. The legacy path matches the email and the password. `register` refuses a duplicate email, or a duplicate phone when one is given. Otherwise it fills the missing fields with defaults, appends the record and logs it in. The model is the class `Auth.SessionStore`. Its table is a `seq<Account>` and its session and persisted slot are `Option<User>` fields. The pure lookups beside it (`Find`, `LoginLookup`, `RegisterConflict`, `NewUser`) specify its methods.
- **The machinery marketplace** (`src/pages/MachineryMarketplace.tsx`). The page filters a constant catalogue of four machines. An item is kept when it matches a case-insensitive search on name or description, an exact type unless `"all"`, and a case-sensitive location substring unless `"all"`. Booking an item checks whether it is available. The model is pure: `Marketplace.Filter` and `Marketplace.HandleBook`. `Text` models `toLowerCase` (ASCII letters only) and `includes`.

Modules: `Wrappers` (Option), `Text`, `Marketplace`, `Auth`.

## Model

| member | source | states |
|---|---|---|
| `Auth.Find` | src/contexts/AuthContext.tsx:84 | `Array.find` over the table: when it returns an index, that account matches and no earlier one does; it returns nothing exactly when no account matches |
| `Auth.LoginLookup` | src/contexts/AuthContext.tsx:82-103 | with `"otp_verified"`, a profile is found iff some account's email or phone equals the identifier; with any other credential, iff some account's email equals the identifier and its password equals the credential (a phone identifier never matches here); the profile found is the first matching account's, without the password |
| `Auth.RegisterConflict` | src/contexts/AuthContext.tsx:117-125 | registration is refused iff some account has the same email, or the supplied phone is non-empty and equals an account's phone; a missing or empty phone skips the phone comparison |
| `Auth.NewUser` | src/contexts/AuthContext.tsx:128-137 | the new profile takes the given id and email; a falsy (missing or empty) name, phone, location or language becomes `"New Farmer"`, `""`, `"India"`, `"hindi"`; farm size defaults to 0 and crops to `[]`; name, location and language are never empty |
| `Auth.DemoAccountsUnique` | src/contexts/AuthContext.tsx:26-60 | the three demo accounts have distinct emails and distinct phones |
| `Auth.RegisterKeepsUnique` | src/contexts/AuthContext.tsx:117-140 | appending the record of a registration that passed the duplicate check keeps emails pairwise distinct and non-empty phones pairwise distinct |
| `Auth.RegisteredCanLogIn` | src/contexts/AuthContext.tsx:139-140 | after a registration is appended, password login with its email and password finds exactly the new profile (the table is kept "for future logins") |
| `Auth.RegisteredCanLogInByOtp` | src/contexts/AuthContext.tsx:82-92 | after a registration is appended, OTP login with its email finds the new profile, provided no earlier account uses that email string as its phone |
| `Auth.EmptyIdentifierFindsPhoneless` | src/contexts/AuthContext.tsx:84 | the OTP lookup compares phones even when empty, so an empty identifier finds an account that has no phone |
| `Auth.SessionStore.constructor` | src/contexts/AuthContext.tsx:63-64 | the provider starts with no session and `loading` true, over the given table and persisted slot |
| `Auth.SessionStore.Restore` | src/contexts/AuthContext.tsx:66-73 | the session becomes the persisted profile (none stays none), nothing else changes, and `loading` ends false |
| `Auth.SessionStore.Login` | src/contexts/AuthContext.tsx:75-108 | succeeds iff `LoginLookup` finds a profile; on success the session and the persisted slot both become that profile; on failure both are unchanged; the table is never changed; `loading` is false on every return path |
| `Auth.SessionStore.Register` | src/contexts/AuthContext.tsx:110-146 | succeeds iff there is no conflict; on success exactly one account (the new profile with the supplied password) is appended, earlier accounts are unchanged, and the session and persisted slot become the new profile; on failure nothing changes; unique emails and unique phones are preserved; `loading` ends false |
| `Auth.SessionStore.Logout` | src/contexts/AuthContext.tsx:148-151 | the session and the persisted slot become none, so `isAuthenticated` is false; the table and `loading` are unchanged |
| `Marketplace.FilterSound` | src/pages/MachineryMarketplace.tsx:85-92 | every listed item is an input item that satisfies all three matches |
| `Marketplace.FilterComplete` | src/pages/MachineryMarketplace.tsx:85-92 | every input item that satisfies all three matches is listed |
| `Marketplace.FilterSubsequence` | src/pages/MachineryMarketplace.tsx:85 | the list is an order-preserving subsequence of the input |
| `Marketplace.FilterMultiplicity` | src/pages/MachineryMarketplace.tsx:85-92 | each selected item appears as often as it does in the input, and unselected items do not appear; together with the subsequence lemma this fixes the list exactly |
| `Marketplace.FilterInitialIsEverything` | src/pages/MachineryMarketplace.tsx:80-92 | with the page's initial inputs (empty search, type `"all"`, location `"all"`) every item is listed, in order |
| `Marketplace.TypeFilterExact` | src/pages/MachineryMarketplace.tsx:88 | when the type filter is not `"all"`, every listed item has exactly that type |
| `Marketplace.LocationFilterContains` | src/pages/MachineryMarketplace.tsx:89 | when the location filter is not `"all"`, every listed item's location contains it as a case-sensitive substring |
| `Marketplace.SearchMatchesIgnoringCase` | src/pages/MachineryMarketplace.tsx:86-87 | every listed item's lowercased name or lowercased description contains the lowercased search term |
| `Marketplace.SearchIsCaseInsensitive` | src/pages/MachineryMarketplace.tsx:86-87 | lowercasing the search term first gives the same list |
| `Marketplace.FilterMonotone` | src/pages/MachineryMarketplace.tsx:85-92 | criteria that select no more items give a subsequence of the list for looser criteria |
| `Marketplace.NarrowingType` | src/pages/MachineryMarketplace.tsx:88 | switching the type from `"all"` to a specific value gives a subsequence of the previous list |
| `Marketplace.NarrowingLocation` | src/pages/MachineryMarketplace.tsx:89 | switching the location from `"all"` to a specific value gives a subsequence of the previous list |
| `Marketplace.HandleBook` | src/pages/MachineryMarketplace.tsx:94-108 | an unavailable machine gets the destructive "Not Available" notice and no request; an available one gets "Booking Request Sent" with a description that names the machine and its owner |
| `Marketplace.CatalogueBooking` | src/pages/MachineryMarketplace.tsx:24-77 | in the catalogue, only the combine harvester (the third item) is refused |
| `Text.LowerIdempotent` | src/pages/MachineryMarketplace.tsx:86-87 | ASCII `toLowerCase` applied twice equals applying it once |
| `Text.ContainsIff` | src/pages/MachineryMarketplace.tsx:86-89 | the recursive `includes` holds exactly when the needle occurs at some position of the string |

## Left out

- React rendering, JSX, the context plumbing (`useAuth`, src/contexts/AuthContext.tsx:165-171) and the toasts' display: these are UI. `HandleBook` returns the toast's content instead of showing it.
- The simulated network delay and `async`/`await` in `login` and `register`: each operation is modelled as one atomic step. So the `loading` flag's true value while an operation is in flight is not observable; only its value afterwards is stated.
- `Auth.SessionStore.Login` and `Auth.SessionStore.Register` require that the restore effect has already run (`!loading`). React runs the mount effect before any event handler can call them.
- JSON serialisation into browser storage and `JSON.parse` on restore: the persisted slot is an abstract `Option<User>`. A stored string that is not valid JSON would make the restore effect throw in the source. The model cannot express such a string, so it has no such case.
- `Date.now()` id generation: `Register` takes the new id as the parameter `freshId`. The model does not promise distinct ids, and neither does the clock-based id in the source.
- The user table is a module-level array in the source, shared by every provider instance. The model makes it a field of one `SessionStore`.
- The OTP validators and challenge table (`isValidEmail`, `isValidPhone`, `formatPhoneNumber`, `sendOTP`, `verifyOTP`) are in `src/lib/otp`, which is not part of this model. So OTP issue, verification and consumption are not modelled; the session store only sees the `"otp_verified"` sentinel.
- The login/registration form that calls the store (src/components/LoginModal.tsx), the navigation shell, routing and home page: UI orchestration.
- `toLowerCase` folds only ASCII letters here; Unicode case folding is not modelled.
- `rating` and `farmSize` are modelled as `real`, and `pricePerDay` as `int`, since no arithmetic is done on them. JavaScript's `NaN` (also falsy) has no counterpart, so `NewUser` defaults only a missing or zero farm size.
- Restore adopts the persisted profile without checking it against the table, as the source does. So "the session references an existing account" is stated for `Login` and `Register` only, not as a store invariant.
- The catalogue is a constant that no member changes, so "booking never mutates the catalogue" holds by construction and has no separate lemma.
