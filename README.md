# ParkingFrontApp client logic in Dafny

This project models the client-side logic of the ParkingFrontApp mobile front-end for a parking-lot business. It covers seven parts of the app:

- **The global store.** It holds the session (user, token, role, staff permissions), the price tables, the staff roster, the dashboard aggregates and the monthly-pass slots. Its actions each make one transition on that record.
- **The access gate.** It wraps protected screens.
- **The receipt serialiser.** It turns a receipt into an ESC/POS byte packet for a Bluetooth thermal printer. Two store fields record whether a printer is connected.
- **The check-in form.** It covers the amount rule, the ordered input checks, the dropdowns and the form reset.
- **The root layout.** It re-checks token expiry after start-up and chooses which screens are reachable.
- **The monthly-pass dialog.** It covers the amount rule and the required-field check.
- **The list of connectable printers.**

Server replies, storage and the clock are not simulated:

- Every action takes the server's answer as an argument, a `Result` that is either the payload or the error text. `""` stands for a failure without a message.
- Persisted key-value storage is a typed record (`Disk`) inside the store.
- A decoded JWT is an argument (`Decoded`). The current time in milliseconds is a number.

Each stateful part follows the same pattern. The store and the two forms are classes. Each method is proved against a pure step function of the record it changes, for example `Snapshot() == LoginStep(old(Snapshot()), ...)`. The properties are then proved about those step functions.

Modules, one per file:

| module | file | models |
|---|---|---|
| `Values` | values.dfy | optional values, replies, JSON payloads, JavaScript truthiness and `a \|\| b` |
| `JsNumber` | js_number.dfy | `Number(s)` and `parseInt(s, 10)` on decimal digit strings |
| `StoreRules` | store_rules.dfy | the store record and one step function per action, with their properties |
| `Store` | store.dfy | the store as a class (`AuthStore`) |
| `AccessControl` | access_control.dfy | the gate |
| `Printing` | printing.dfy | the packet, its QR header and the printing store (`PrintingStore`) |
| `CheckIn` | check_in.dfy | the check-in form (`CheckInForm`) |
| `RootLayout` | layout.dfy | the expiry effect and the screen guards |
| `MonthlyPassModal` | monthly_pass_modal.dfy | the monthly-pass dialog (`PassModal`) |
| `PeripheralList` | peripheral_list.dfy | the printer list |

Three behaviours of the code are easy to misread, and the model keeps them as written:

- **Unset role.** The access gate lets every role other than `"staff"` through, including the empty role a store has before hydration.
- **Token that cannot be decoded.** `restoreSession` only logs the decoding error: it keeps the state and sets the hydration flags. On a cold start the token in memory is still empty, and the layout's expiry check runs only when a token is in memory, so it does not fire either. Nothing logs out, and the undecodable token stays in storage. `RootLayout.RestoreThenCheckKeepsSession` and `RootLayout.RestoreKeepsAbsentToken` state this.
- **Checks that disagree.** The restore accepts a token when its `exp` is truthy and `exp * 1000 > now`. The layout logs out only when `exp` is truthy and `exp * 1000 < now`. A token expiring exactly at `now`, or one without a truthy `exp`, is therefore refused by one check and kept by the other. `RootLayout.ExpiryBoundaryDisagreement` states this.

## Model

| member | source | states |
|---|---|---|
| JsNumber.NumberOf | components/CheckIn.tsx:54-55 | `Number(s)` is defined exactly on digit strings, and `Number("")` is 0 |
| JsNumber.LeadingDigits | components/monthlyPassModal.tsx:98 | the longest digit prefix: a prefix made of digits and followed by a non-digit or the end |
| JsNumber.ParseInt | components/monthlyPassModal.tsx:98 | `parseInt` is NaN exactly when the string does not start with a digit, and is otherwise the value of the leading digits |
| JsNumber.ParseIntAgreesWithNumber | utils/store.ts:917 | on a non-empty digit string, `parseInt` and `Number` agree |
| JsNumber.ParseIntIgnoresSuffix | components/monthlyPassModal.tsx:98 | `parseInt` ignores whatever follows the leading digits |
| StoreRules.Initial | utils/store.ts:223-251 | the initial record is logged out and not hydrated, and has no token, user, role, permissions or `fullData` |
| StoreRules.SessionStepsPreserveConsistency | utils/store.ts:253-267 | `hydrate` and `logOut` keep two facts: a logged-in store holds a token and a user, and `hydrated` implies `isHydrated` |
| StoreRules.RestorePreservesConsistency | utils/store.ts:269-308 | `restoreSession` keeps that invariant |
| StoreRules.LoginPreservesConsistency | utils/store.ts:338-397 | `login` keeps that invariant |
| StoreRules.LogOutClearsSession | utils/store.ts:399-432 | after `logOut`, session, prices, roster, dashboard, pass slots and loading flag are back at their initial values and storage is empty; `fullData` keeps its value |
| StoreRules.LogOutIdempotent | utils/store.ts:399-432 | logging out twice is the same as logging out once |
| StoreRules.FullDataSurvivesLogOut | utils/store.ts:704-723 | after `logOut`, `fullData` still holds what `getTodayVehicles` last wrote |
| StoreRules.RestoreAlwaysHydrates | utils/store.ts:305-307 | `restoreSession` always ends with `hydrated` and `isHydrated` true |
| StoreRules.RestoreWithoutStoredSession | utils/store.ts:277 | without a stored token or user, only the hydration flags change, so a second restore changes nothing |
| StoreRules.RestoreLogsInIff | utils/store.ts:277-290 | from a logged-out store, a session is restored iff token and user are stored and `exp` is truthy with `exp * 1000 > now` |
| StoreRules.RestoreRecoversStoredSession | utils/store.ts:283-290 | the restored token and user are the stored ones, and storage is not written |
| StoreRules.RestoreStaffPermissions | utils/store.ts:286-298 | a restored session takes role and `staffPermission` from storage; a staff user's `permissions` become the fetched list when the fetch succeeds; prices are refreshed |
| StoreRules.RestoreRejectedLogsOut | utils/store.ts:299-301 | a stored session whose token decodes but is refused is logged out, and storage is cleared |
| StoreRules.ExpiredTokenNeverRestored | utils/store.ts:281 | a token with `exp = 1` is refused at every later time |
| StoreRules.LoginFailure | utils/store.ts:392-396 | a failed login only clears `isLoading` and returns the error |
| StoreRules.LoginSuccess | utils/store.ts:338-391 | a successful login sets user, token, role and `isLogged`, clears `isLoading`, and persists user, token, role and the permission list |
| StoreRules.LoginPermissions | utils/store.ts:355-382 | staff: `staffPermission` is whatever `permissions` holds after the fetch, which is the fetched list or, when the fetch fails, the previous value; other roles: `staffPermission` is `[]` |
| StoreRules.PriceUpdatesAreScoped | utils/store.ts:448-492 | a daily update writes only `dailyPrices`, and a monthly update is its mirror; a failure changes nothing and reports a non-empty message; a success installs the reply's table |
| StoreRules.QueryRoundTrip | utils/store.ts:499 | the query `vehicle=V[&staffId=S]` reads back to `(V, S)` when `V` has no `&`, so the staff segment appears iff a staff id is given |
| StoreRules.PatchStaffs | utils/store.ts:859-863 | the roster keeps its length |
| StoreRules.PatchStaffsSpec | utils/store.ts:859-863 | a record whose `_id` matches has the reply's keys merged over its own; every other record is unchanged |
| StoreRules.UpdateStaffFailure | utils/store.ts:864-868 | a failed `updateStaff` leaves the roster untouched |
| StoreRules.PatchStaffsExample | utils/store.ts:859-863 | patching id "2" in a two-record roster changes only the second record |
| StoreRules.ToUpper | utils/store.ts:913 | `toUpperCase` keeps the length, turns each ASCII lower-case letter into its upper-case partner in place, and keeps every other character |
| StoreRules.ToLower | utils/store.ts:915 | `toLowerCase` keeps the length, turns each ASCII upper-case letter into its lower-case partner in place, and keeps every other character |
| StoreRules.ToUpperAppend | utils/store.ts:913 | upper-casing a concatenation upper-cases each part |
| StoreRules.CaseRoundTrip | utils/store.ts:913-915 | lower-casing undoes upper-casing on a string without upper-case letters, and the converse |
| StoreRules.RemoveWhitespace | utils/store.ts:913 | `replace(/\s/g, "")` keeps exactly the characters that are not `\s`, and never lengthens the string |
| StoreRules.RemoveWhitespaceAppend | utils/store.ts:913 | whitespace removal distributes over concatenation, so characters keep their order |
| StoreRules.RemoveWhitespaceSingle | utils/store.ts:913 | a single character is dropped iff it is `\s` |
| StoreRules.NormalizeVehicleNo | utils/store.ts:913 | the vehicle number sent has no whitespace and no lower-case letter |
| StoreRules.NormalizeCommutes | utils/store.ts:913 | the vehicle number sent is the input with whitespace removed, then upper-cased; the order of the two steps does not matter |
| StoreRules.NormalizeCharByChar | utils/store.ts:913 | normalisation goes character by character: a whitespace character is dropped and any other is upper-cased in place |
| StoreRules.NormalizeIdempotent | utils/store.ts:913 | normalising a vehicle number twice is the same as normalising it once |
| StoreRules.RemoveWhitespaceIdentity | utils/store.ts:913 | a string without whitespace passes through unchanged |
| StoreRules.CreatePassRequest | utils/store.ts:886-934 | a form with any of eight fields empty (`endDate` included) is refused with the fixed message before any request; a request is sent iff the form is complete and a token is found; its body is the form's name, mobile, start date, end date and amount as entered, the vehicle number upper-cased without whitespace, the type lower-cased, the duration as a number, and the form's payment method; a complete form leaves the store as it was apart from `isLoading` |
| StoreRules.GetPassSlots | utils/store.ts:936-969 | a status other than "active" or "expired" is refused without a state change; "active" writes only `monthlyPassActive` and "expired" only `monthlyPassExpired` |
| StoreRules.DashboardFallbacks | utils/store.ts:725-759 | with a token and a reply, each of the seven aggregates is the reply's, or empty when the reply lacks it; without a token or on failure all seven are emptied; nothing outside the dashboard and the loading flag changes |
| Store.AuthStore.constructor | utils/store.ts:223-251 | the store starts as the initial record over the persisted pairs |
| Store.AuthStore.Hydrate | utils/store.ts:253-267 | role and `staffPermission` are loaded from storage and `isHydrated` is set |
| Store.AuthStore.RestoreSession | utils/store.ts:269-308 | the store moves as `RestoreSessionStep` says and stays consistent |
| Store.AuthStore.LoadPricesIfNotSet | utils/store.ts:310-318 | stored prices are loaded only into an empty `prices`; the store stays consistent if it was |
| Store.AuthStore.Login | utils/store.ts:338-397 | the store and the returned status are as `LoginStep` says, and the store stays consistent |
| Store.AuthStore.LogOut | utils/store.ts:399-432 | the store becomes `LogOutStep` of what it was |
| Store.AuthStore.FetchPrices | utils/store.ts:434-446 | the reply replaces `priceData`; a failure leaves it; the store stays consistent if it was |
| Store.AuthStore.UpdateDailyPrices | utils/store.ts:448-469 | the store and the result are as `UpdateDailyStep` says; the store stays consistent if it was |
| Store.AuthStore.UpdateMonthlyPrices | utils/store.ts:471-492 | the store and the result are as `UpdateMonthlyStep` says; the store stays consistent if it was |
| Store.AuthStore.FetchCheckins | utils/store.ts:494-511 | sends `Query(vehicle, staffId)` and stores the counts, or `{}` on failure; the store stays consistent if it was |
| Store.AuthStore.FetchCheckouts | utils/store.ts:513-530 | sends `Query(vehicle, staffId)` and stores the counts, or `{}` on failure; the store stays consistent if it was |
| Store.AuthStore.VehicleList | utils/store.ts:532-557 | requests `api/<checkType>?<query>`; on success stores `vehicle` or else `vehicles`, leaving `isLoading` set; on failure reports the message or "Something went wrong!"; the store stays consistent if it was |
| Store.AuthStore.CheckIn | utils/store.ts:559-599 | passes the request's outcome through, and only the loading flag changes; the store stays consistent if it was |
| Store.AuthStore.GetTodayVehicles | utils/store.ts:704-723 | a reply overwrites the five counts and `fullData`; the store stays consistent if it was |
| Store.AuthStore.GetDashboardData | utils/store.ts:725-759 | the dashboard is the reply with per-field defaults, or all empty without a token or on failure; the store stays consistent if it was |
| Store.AuthStore.UpdateStaff | utils/store.ts:842-869 | the roster is patched by id on success and left alone on failure; the store stays consistent if it was |
| Store.AuthStore.CreateMonthlyPass | utils/store.ts:886-934 | the store, the result and the request body sent are as `CreatePassStep` says; the store stays consistent if it was |
| Store.AuthStore.GetMonthlyPass | utils/store.ts:936-969 | the store and the result are as `GetPassStep` says; the store stays consistent if it was |
| Store.AuthStore.ExtendMonthlyPass | utils/store.ts:971-999 | without a token: "No token found"; on failure: the message or "Failed to extend pass"; on success: the active passes are fetched again; the store stays consistent if it was |
| Store.AuthStore.GetStaffPermission | utils/store.ts:1030-1053 | without a token nothing changes; a successful fetch replaces `permissions`, and a failure is swallowed; the store stays consistent if it was |
| AccessControl.Gate | components/AccessControl.tsx:12-28 | renders the children, unchanged, iff the gate allows; otherwise renders the denial view |
| AccessControl.NonStaffAlwaysAllowed | components/AccessControl.tsx:14-17 | every role other than "staff" is allowed, whatever the capability string |
| AccessControl.StaffAllowedIff | components/AccessControl.tsx:15-17 | staff are allowed iff the capability is an element of `staffPermission` |
| AccessControl.GateReadsRoleAndStaffPermission | components/AccessControl.tsx:12 | records that agree on `role` and `staffPermission` get the same view, whatever their `permissions` |
| AccessControl.GateMonotone | components/AccessControl.tsx:15-17 | adding capabilities never turns an allow into a deny |
| AccessControl.DeniedHidesChildren | components/AccessControl.tsx:17-26 | a denied staff user gets only the denial view |
| Printing.ToInt32 | utils/printing.ts:84 | ToInt32 lands in the 32-bit signed range and is the identity on `[0, 2^31)` |
| Printing.ItemsBytes | utils/printing.ts:66-72 | no items give no bytes, and a single item gives exactly its `label - value\n`; each item adds at least four bytes |
| Printing.ItemsBytesAppend | utils/printing.ts:66-72 | items are encoded in input order: the lines of a concatenation are the concatenated lines |
| Printing.QrStore | utils/printing.ts:80-89 | the store command is an 8-byte header followed by the QR data |
| Printing.ParseQrStore | utils/printing.ts:80-89 | a parsed command yields data lying in the packet after the header, with pL + 256·pH = length + 3 |
| Printing.QrHeaderLength | utils/printing.ts:84 | pL = (n+3) mod 256 and pL + 256·pH = n + 3 |
| Printing.QrStoreRoundTrip | utils/printing.ts:80-89 | reading back a stored QR command yields the data, whatever follows it |
| Printing.PacketLength | utils/printing.ts:92-108 | the packet is 104 fixed bytes plus title, items, QR data and timestamp |
| Printing.PacketCarriesQr | utils/printing.ts:92-108 | the QR data can be read back from the packet at the QR command's offset |
| Printing.PacketIsBytes | utils/printing.ts:84 | every packet element is a byte when n + 3 < 65536 |
| Printing.PacketOverflows | utils/printing.ts:84 | beyond that bound, pH exceeds 255 |
| Printing.PrintingStore.constructor | utils/printing.ts:20-22 | the printing store starts disconnected with service `{}` |
| Printing.PrintingStore.SetBleService | utils/printing.ts:23-26 | only the service changes |
| Printing.PrintingStore.TogglePrinterConnection | utils/printing.ts:27-28 | only the connection flag changes |
| Printing.PrintingStore.GenerateReceiptData | utils/printing.ts:29-139 | a packet is written iff connected with a truthy service, and it is exactly `Packet(...)`; the result is `["success"]` iff the write succeeds, otherwise `[]` |
| CheckIn.DailyAmount | components/CheckIn.tsx:53-56 | the amount is a number iff the days and the rate (when one exists) are digit strings, and it is then rate × days; a missing or empty rate gives 0 |
| CheckIn.OneDayAmountIsRate | components/CheckIn.tsx:53-64 | for the reset value of one day, the amount is the daily rate itself |
| CheckIn.SubmitErrorIff | components/CheckIn.tsx:71-122 | submission passes all checks iff the vehicle number is set, the mobile has 10 characters and starts with 6 to 9, and the amount is a positive number |
| CheckIn.FirstFailureWins | components/CheckIn.tsx:74-122 | each message is shown exactly when its check fails and every earlier check passes |
| CheckIn.MobileTailUnchecked | components/CheckIn.tsx:86-98 | only the length and the first character of the mobile number are checked |
| CheckIn.OpenDropdown | components/CheckIn.tsx:160-164 | at most one dropdown is open, and the requested one is open iff `open` |
| CheckIn.ClearedIsInitialButAmount | components/CheckIn.tsx:58-69 | clearing restores the initial form except `amount`, and is idempotent |
| CheckIn.CheckInForm.constructor | components/CheckIn.tsx:27-38 | the form's initial state |
| CheckIn.CheckInForm.RefreshAmount | components/CheckIn.tsx:53-56 | only `amount` changes, to `DailyAmount` of the current type and days |
| CheckIn.CheckInForm.ClearForm | components/CheckIn.tsx:58-69 | the form becomes `Cleared` of what it was; `amount` is not assigned |
| CheckIn.CheckInForm.HandleOpen | components/CheckIn.tsx:160-164 | only the dropdown flags change, to `OpenDropdown` |
| CheckIn.CheckInForm.HandleSubmit | components/CheckIn.tsx:71-158 | a failed check shows its message, sends nothing and leaves the store unchanged; otherwise the request is sent, a failure shows the error or "Check In Failed", and success clears the form; `isLoading` ends false |
| RootLayout.Screens | app/_layout.tsx:44-64 | loading until hydrated; then the tabs are reachable iff logged in, and splash, login and sign-up iff not |
| RootLayout.GuardsComplementary | app/_layout.tsx:53-63 | once hydrated, exactly one group of screens is reachable |
| RootLayout.RestoreAcceptedNotExpired | app/_layout.tsx:31 | a token the restore accepts is not logged out by the layout at the same instant |
| RootLayout.ExpiryBoundaryDisagreement | app/_layout.tsx:31 | a token with `exp * 1000 == now`, or without a truthy `exp`, is refused by the restore yet kept by the layout |
| RootLayout.RestoreThenCheckKeepsSession | app/_layout.tsx:27-41 | on a cold start, the expiry check never logs out the session the restore just produced |
| RootLayout.RestoreKeepsAbsentToken | utils/store.ts:277-307 | a restore that does not accept a stored session leaves an absent token absent |
| RootLayout.LogOutShowsLoading | app/_layout.tsx:21-24 | `logOut` clears `hydrated` and the restore runs only on mount, so after any logout the layout shows only the loading indicator |
| RootLayout.ExpiryEffect | app/_layout.tsx:27-41 | logs out iff hydrated with a token and the token cannot be decoded or has expired; otherwise the store is unchanged |
| MonthlyPassModal.CalculateAmount | components/monthlyPassModal.tsx:97-103 | 0 without monthly prices, a vehicle type or a non-zero duration, or when the rate is not a number; with prices, a type, a numeric rate and a numeric duration, exactly rate × months |
| MonthlyPassModal.OfferedDurationAmount | components/monthlyPassModal.tsx:70-75 | for the durations offered (3, 6, 9 and 12 months), the amount is rate × months |
| MonthlyPassModal.StoreCheckExtendsModalCheck | components/monthlyPassModal.tsx:107-116 | the store's required fields are the dialog's seven plus `endDate` |
| MonthlyPassModal.ModalAcceptsStoreRejects | components/monthlyPassModal.tsx:107-139 | a form the dialog accepts with an empty `endDate` is refused by the store with the store unchanged |
| MonthlyPassModal.PaymentDefaultUnused | components/monthlyPassModal.tsx:113 | a form the dialog accepts has a payment method, so the store's "cash" default never applies |
| MonthlyPassModal.PassModal.constructor | components/monthlyPassModal.tsx:44-53 | the empty form with payment method "cash" |
| MonthlyPassModal.PassModal.HandleCreatePass | components/monthlyPassModal.tsx:105-166 | missing field: "Please fill all required fields"; zero amount: "Could not determine amount", and nothing is sent; otherwise the store moves as `CreatePassStep` says, a failure shows the error or "Error in API", and success resets the form |
| PeripheralList.Shown | components/print/PeripheralList.tsx:32-34 | a peripheral is shown iff it is in the input and is not flagged unconnectable |
| PeripheralList.ShownIsSubsequence | components/print/PeripheralList.tsx:32-34 | the shown list is a subsequence of the input, in its order |
| PeripheralList.ShownIdempotent | components/print/PeripheralList.tsx:32-34 | filtering twice is the same as filtering once |
| PeripheralList.ShownAppend | components/print/PeripheralList.tsx:32-34 | filtering a concatenation filters each part in place |
| PeripheralList.DisplayName | components/print/PeripheralList.tsx:39 | the name when present and non-empty, otherwise "Unknown Device" |
| PeripheralList.LocalNameIgnored | components/print/PeripheralList.tsx:39 | `localName` plays no part in the title |
| PeripheralList.Rows | components/print/PeripheralList.tsx:35-44 | one row per shown peripheral, in order, keyed by its id and titled by its display name |

## Left out

- HTTP requests and their bodies are not modelled, except the monthly-pass and check-in bodies. Each reply is an argument, and request headers and URLs other than the query strings are not modelled.
- Storage read and write failures, and malformed JSON in storage, are not modelled. Storage always holds well-typed values.
- Interleaving of concurrent actions is not modelled. Each action is one atomic transition, which is how the `isLoading` flag left set by `vehicleList` on success appears.
- `jwtDecode` and `Date.now()` are arguments.
- `Number()` and `parseInt` are modelled only on decimal digit strings. Signs, decimals, exponents, surrounding whitespace and hexadecimal forms all read as NaN here. Prices and days are naturals.
- `toUpperCase` and `toLowerCase` are modelled on ASCII letters only.
- The UTF-8 encoding (`TextEncoder`), `toLocaleString` and the BLE write itself are not modelled. Title, items, QR data and timestamp arrive as encoded byte sequences, and the write's outcome is an argument. Its chunk size of 20 is not modelled.
- That the unused LEFT command never appears in the packet is not stated as a lemma. It holds only because `Packet` never mentions LEFT.
- The monthly-pass end-date effect (`Date.setMonth`, components/monthlyPassModal.tsx:84-95) is calendar library behaviour and is not modelled.
- The default arguments of `fetchCheckins` and `fetchCheckouts` (`vehicle = "all"`) are not modelled. Callers pass both values.
- The following actions and screens are not modelled: `signup`, `checkOut`, `setStaffPermission`, the staff-management actions other than `updateStaff`, the report and revenue fetches, and the screens that only present data.
- Toasts, navigation (`router.replace`), timers and styling are not modelled. A toast appears only as the message a method returns.
- Strings are sequences of Unicode code points. `mobile.length` (components/CheckIn.tsx:86) counts UTF-16 code units, so the two lengths differ for characters outside the Basic Multilingual Plane, which the model does not distinguish.
- Null entries in the peripheral array are not modelled. The filter would keep them, and rendering would then fail on `item.id`.
- GenerateReceiptData: models the write's failure as an argument. It does not cover an invalid service object, which makes the write throw and is caught the same way.
