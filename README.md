# Vehicle-loan client: a Dafny model of its verifiable core

This model covers the client-side logic of a Next.js front end for a
vehicle-loan platform. Applicants register vehicles, request valuations,
apply for loans and receive loan offers. Almost all of the client is React
rendering and HTTP calls. What is modelled here is the logic that decides
something by itself:

- **The two zustand stores.**
  - `stores/application-flow-store.ts` carries a loan application through a
    multi-step form.
  - `stores/ui-store.ts` holds sidebar, modal, notification, theme and
    loading state.
  - Each store is a `class` whose fields are the store's state. Each action
    is a method whose postcondition gives the whole new state
    (`State() == old(State()).(field := ...)`).
  - The pure transitions they use (merge by object spread, set-based
    de-duplication, filtering, `partialize`) are functions with lemmas.
- **Error shaping (`lib/utils/error.ts`).**
  - Choosing the user-facing message by priority.
  - Removing the first occurrence of four exception prefixes.
  - The three error classifiers.
  - `extractErrorMessage` reassigns a local variable, so it is also a
    method proved equal to the functional definition.
- **String utilities (`lib/utils/index.ts`).** `truncate`, `slugify`, and the
  email, Nigerian phone-number and VIN validators.
- **zod schemas as predicates over records.**
  - Those of `types/*.ts`.
  - Those of the loan, offer and valuation forms.
  - The forms' default values.
- **The monthly-payment formula of the loan form.** It uses exact real
  arithmetic and a recursive power function. It is proved against an
  independent month-by-month balance recurrence.
- **The list pages' status colours, status labels and empty-data
  defaults.**
- **The React Query key factories of the four hooks files.** This includes
  their `enabled` gates and the cache keys each mutation refreshes,
  writes or removes. A key refreshes every key it is a prefix of.

Shared helper modules model what the code takes from JavaScript:

- `Wrappers`: `Option`.
- `JsValue`:
  - missing against `undefined` object keys;
  - object spread;
  - the `||` default idiom;
  - `Number.isInteger`;
  - truthiness.
- `JsString`:
  - first-occurrence `String.prototype.replace`;
  - `includes` and `indexOf`;
  - ASCII case mapping;
  - the `\s` whitespace class.
- `Zod`: zod's built-in `uuid`, `email` and `datetime` formats, passed as
  predicates.

## Model

| member | source | states |
|---|---|---|
| ApplicationFlowStore.ApplicationFlow.constructor | stores/application-flow-store.ts:56-65 | the store starts at step 1 with no completed steps, empty step records, null selections and empty validation |
| ApplicationFlowStore.ApplicationFlow.SetCurrentStep | stores/application-flow-store.ts:68 | only the current step changes |
| ApplicationFlowStore.ApplicationFlow.MarkStepCompleted | stores/application-flow-store.ts:69-72 | afterwards the step is in the list, the list has no duplicates, and its members are the old ones plus the step; nothing else changes |
| ApplicationFlowStore.Distinct | stores/application-flow-store.ts:71 | `[...new Set(s)]` has no duplicates, has exactly the elements of `s`, and is no longer than `s` |
| ApplicationFlowStore.DistinctNoop | stores/application-flow-store.ts:71 | a list without duplicates passes through the set unchanged |
| ApplicationFlowStore.MarkCompletedAppendsNew | stores/application-flow-store.ts:69-72 | on a duplicate-free list, marking appends a new step at the end and leaves the list unchanged for a step already there |
| ApplicationFlowStore.MarkCompletedIdempotent | stores/application-flow-store.ts:69-72 | marking the same step twice is marking it once |
| ApplicationFlowStore.ApplicationFlow.SetPersonalInfo | stores/application-flow-store.ts:75-79 | the personal record becomes the shallow merge of old record and patch; nothing else changes |
| ApplicationFlowStore.ApplicationFlow.SetEmploymentInfo | stores/application-flow-store.ts:81-85 | the employment record becomes the shallow merge; nothing else changes |
| ApplicationFlowStore.ApplicationFlow.SetLoanDetails | stores/application-flow-store.ts:87-91 | the loan-details record becomes the shallow merge; nothing else changes |
| ApplicationFlowStore.MergesCompose | stores/application-flow-store.ts:75-91 | two successive patches act as one merged patch, and an empty patch changes nothing |
| ApplicationFlowStore.MergeReadsPatch | stores/application-flow-store.ts:75-79 | a key the patch sets wins, a key the patch lacks keeps its old value, and a key the patch sets to undefined reads as undefined |
| ApplicationFlowStore.ApplicationFlow.SetSelectedVehicle | stores/application-flow-store.ts:94-101 | the selection is stored as given; the application's vehicle id becomes it, or undefined for null or "", and the rest of the application is kept |
| ApplicationFlowStore.ApplicationFlow.SetSelectedValuation | stores/application-flow-store.ts:103-110 | the same for the valuation |
| ApplicationFlowStore.SelectionDecidesIds | stores/application-flow-store.ts:94-110 | after both selections, the application passes the create schema iff both selections are non-empty uuids and the rest of the application is valid |
| ApplicationFlowStore.ApplicationFlow.SaveApplication | stores/application-flow-store.ts:113-117 | saving returns the current application for logging and changes no state |
| ApplicationFlowStore.ApplicationFlow.ClearApplication | stores/application-flow-store.ts:119-130 | clearing restores exactly the initial state, so clearing twice is clearing once |
| ApplicationFlowStore.ApplicationFlow.LoadApplication | stores/application-flow-store.ts:132-154 | the new state is the loaded state built from the data, with the step validation kept |
| ApplicationFlowStore.LoadValidApplication | stores/application-flow-store.ts:132-154 | loading an application that passes the create schema fills step records that pass the three step schemas and agree with the data |
| ApplicationFlowStore.LoadEmptyDraft | stores/application-flow-store.ts:132-154 | loading an empty draft gives term 12 and status "EMPLOYED", and step records that fail every step schema |
| ApplicationFlowStore.LoadRestartsFlow | stores/application-flow-store.ts:132-154 | loading restarts at step 0 (not 1) with no completed steps, keeps the validation, turns a zero term into 12, and selects a vehicle iff the data has a non-empty id |
| ApplicationFlowStore.LoadForgetsPreviousState | stores/application-flow-store.ts:132-175 | what is persisted after a load depends only on the loaded data |
| ApplicationFlowStore.ApplicationFlow.SetStepValid | stores/application-flow-store.ts:157-160 | only entry `step` of the validation map changes, and the persisted snapshot is unaffected |
| ApplicationFlowStore.PartializeDropsOnlyValidation | stores/application-flow-store.ts:166-175 | two states persist alike iff they differ at most in step validation |
| UiStore.Ui.constructor | stores/ui-store.ts:60-121 | sidebar open and expanded, all modals closed, no notifications, system theme, nothing loading |
| UiStore.Ui.SetSidebarOpen | stores/ui-store.ts:62 | only the open flag changes |
| UiStore.Ui.SetSidebarCollapsed | stores/ui-store.ts:63 | only the collapsed flag changes |
| UiStore.Ui.ToggleSidebar | stores/ui-store.ts:64-65 | only the open flag changes, to its negation, so toggling twice restores it |
| UiStore.Ui.OpenModal | stores/ui-store.ts:73-76 | only the named modal's flag changes, to true |
| UiStore.Ui.CloseModal | stores/ui-store.ts:77-80 | only the named modal's flag changes, to false |
| UiStore.Ui.CloseAllModals | stores/ui-store.ts:81-87 | every modal flag becomes false; nothing else changes |
| UiStore.CloseAll | stores/ui-store.ts:83-86 | the modal object keeps its keys and every flag is false |
| UiStore.CloseAllIdempotent | stores/ui-store.ts:81-87 | closing all modals twice is closing them once |
| UiStore.ModalKeysStay | stores/ui-store.ts:68-87 | opening, closing and closing all keep exactly the three modal keys |
| UiStore.Ui.AddNotification | stores/ui-store.ts:91-99 | exactly one notification, with the given fields, id and timestamp, is appended after the existing ones |
| UiStore.Ui.RemoveNotification | stores/ui-store.ts:106-109 | the list becomes the filtered list; nothing else changes |
| UiStore.WithoutNotification | stores/ui-store.ts:108 | the filtered list holds exactly the notifications with another id |
| UiStore.WithoutNotificationAppend | stores/ui-store.ts:108 | filtering distributes over concatenation, so relative order is kept |
| UiStore.WithoutAbsentId | stores/ui-store.ts:106-109 | removing an id no notification carries changes nothing |
| UiStore.AddThenRemove | stores/ui-store.ts:91-109 | removing a just-added notification under a fresh id restores the list |
| UiStore.Ui.ClearNotifications | stores/ui-store.ts:110 | the list becomes empty; nothing else changes |
| UiStore.Ui.SetTheme | stores/ui-store.ts:114 | only the theme changes |
| UiStore.Ui.SetLoading | stores/ui-store.ts:122-125 | only flag `key` of the loading object changes |
| UiStore.PartializeKeepsCollapsedAndTheme | stores/ui-store.ts:131-134 | two states persist alike iff they agree on the collapsed flag and the theme |
| ErrorMessages.Bullets | lib/utils/error.ts:35-36 | one entry per validation error, each prefixed with "• " |
| ErrorMessages.BulletList | lib/utils/error.ts:35-37 | the joined list is empty iff there are no errors, and otherwise starts with the first bullet |
| ErrorMessages.BulletListLines | lib/utils/error.ts:35-37 | splitting the joined list at newlines gives back the bullets, when no error holds a newline |
| ErrorMessages.FallbackOnlyWithoutSource | lib/utils/error.ts:22-46 | the fallback is chosen iff the error offers none of the four sources; otherwise the fallback is irrelevant |
| ErrorMessages.SelectedMessageEmpty | lib/utils/error.ts:30-46 | the chosen message is empty iff the errors array is empty, or there is no source and the fallback is empty |
| ErrorMessages.EmptyErrorsArrayGivesEmptyMessage | lib/utils/error.ts:30-38 | an empty errors array gives "" and does not fall through to the other sources |
| ErrorMessages.StripPrefixes | lib/utils/error.ts:49-53 | the clean-up never lengthens the message, and leaves a message without any prefix unchanged |
| ErrorMessages.StripVinPrefix | lib/utils/error.ts:49-53 | a message that is the VIN prefix followed by a prefix-free detail becomes the detail |
| ErrorMessages.ExtractErrorMessage | lib/utils/error.ts:20-56 | the method's result equals the priority choice followed by the prefix clean-up |
| ErrorMessages.VinPrefixedErrorMissed | lib/utils/error.ts:49-67 | as written, "VIN Validation Error: " plus a detail that mentions neither "vin" nor "check digit" is not classified as a VIN error |
| ErrorMessages.VinPrefixedErrorMissedExample | lib/utils/error.ts:61-67 | as written, "VIN Validation Error: Wrong length" is not a VIN error |
| ErrorMessages.CorrectedRecognisesVinPrefix | lib/utils/error.ts:61-67 | the corrected classifier recognises every message carrying the VIN prefix |
| ErrorMessages.CorrectedAgreesWithoutPrefixes | lib/utils/error.ts:61-67 | without prefixes the corrected classifier agrees with the written one |
| ErrorMessages.StatusClassifiers | lib/utils/error.ts:72-81 | no error is both a validation error and a conflict, and changing the message or the response body never changes either classification |
| Utils.SliceTo | lib/utils/index.ts:38 | `slice(0, n)` is a prefix of the text, of length `n` when `0 <= n <= length` and counted from the end for negative `n` |
| Utils.Truncate | lib/utils/index.ts:36-39 | for any number `n`, text of at most `n` characters is returned unchanged; for `0 <= n` below the length, it becomes its first `floor(n)` characters followed by "...", of length `floor(n) + 3`; any truncated result ends in "..." after a prefix of the text |
| Utils.TruncateDropsFraction | lib/utils/index.ts:36-39 | a non-negative fractional length acts as its whole part, because `slice` drops the fraction and lengths are whole |
| Utils.KeepSlugChars | lib/utils/index.ts:44 | only `[a-z0-9 -]` survives the first replace |
| Utils.DropRun | lib/utils/index.ts:47 | dropping a leading run leaves a suffix not starting with a run character, and only run characters are dropped |
| Utils.DropRunEnd | lib/utils/index.ts:47 | the same at the end of the string |
| Utils.CollapseRunsNoDoubleHyphen | lib/utils/index.ts:45-46 | collapsing runs of a class that includes '-' into "-" leaves no two adjacent hyphens |
| Utils.CollapseRunsKeeps | lib/utils/index.ts:45-46 | collapsing keeps any character property that '-' and the kept characters share |
| Utils.SlugifyShape | lib/utils/index.ts:41-48 | a slug holds only `[a-z0-9-]` and never two consecutive hyphens |
| Utils.SlugFixedPoint | lib/utils/index.ts:41-48 | a string already of that shape is its own slug |
| Utils.SlugifyIdempotent | lib/utils/index.ts:41-48 | slugifying a slug changes nothing |
| Utils.SlugifyKeepsLeadingHyphen | lib/utils/index.ts:41-48 | a text starting with a space gives a slug starting with '-', because trim runs last |
| Utils.SlugifyKeepsTrailingHyphen | lib/utils/index.ts:41-48 | the same at the end |
| Utils.ValidEmailShape | lib/utils/index.ts:51-54 | the email pattern holds iff the string has no whitespace, exactly one '@', and a '.' after it with text on both sides |
| Utils.MatchesPhoneByPrefix | lib/utils/index.ts:56-59 | the phone pattern holds iff the string is "", "0", "234" or "+234" followed by a ten-digit national number starting [789][01] |
| Utils.PhoneIgnoresWhitespace | lib/utils/index.ts:56-59 | inserting whitespace anywhere does not change whether a phone number is valid |
| Utils.VinCharAlphabet | lib/utils/index.ts:61-64 | a VIN character is a digit or a letter other than I, O, Q, in either case |
| JsString.UpperFirstForms | app/dashboard/loans/page.tsx:178 | upper-casing via `/^./` and via `charAt(0)`/`slice(1)` agree: the first character is upper-cased and the rest kept |
| LoanTypes.CreateIsStepsPlusIds | types/loan.ts:50-93 | an application passes the create schema iff its projections pass the three step schemas and both ids are uuids |
| LoanTypes.ResponseIsCreatePlusServerFields | types/loan.ts:18-67 | a response passes iff its create part passes and id, status and timestamps are valid |
| LoanTypes.StatusEnumIsConstantValues | types/loan.ts:9-42 | the status enum is exactly the values of `LoanApplicationStatus` |
| VehicleTypes.SearchIsValidVin | types/vehicle.ts:61-66 | the search schema accepts a VIN iff `isValidVIN` does, and refuses a missing VIN |
| VehicleTypes.CreateImpliesResponse | types/vehicle.ts:33-88 | a created vehicle, returned with valid id and timestamps, passes the response schema, and its VIN passes the search schema |
| VehicleTypes.ResponseAcceptsLongerMake | types/vehicle.ts:39-73 | the converse fails: a 101-character make passes the response schema but not the create schema |
| VehicleTypes.EnumsAreConstantValues | types/vehicle.ts:9-86 | each enum is exactly the values of its constant object |
| OfferTypes.MinimalCreateRequest | types/offer.ts:35-41 | a create request with only an id and a rate passes iff the id is a uuid and the rate is in [5, 30] |
| OfferTypes.StatusUpdateKeepsOfferValid | types/offer.ts:17-49 | putting the status of an update into a valid offer gives a valid offer iff the update passes its schema, whatever its reason |
| OfferTypes.ResponseAllowsTotalBelowAmount | types/offer.ts:17-30 | the response schema accepts a total payable below the amount offered |
| OfferTypes.StatusEnumIsConstantValues | types/offer.ts:9-47 | the status enum is exactly the values of `OfferStatus` |
| ValuationTypes.CreateDoesNotOrderValues | types/valuation.ts:36-43 | an estimate outside [min, max], or min above max, is accepted |
| ValuationTypes.CreateYieldsGenerate | types/valuation.ts:36-51 | every valid create request gives a valid generate request, and a generate request needs only a uuid vehicle id |
| ValuationTypes.EmbeddedVehicleChecked | types/valuation.ts:19-31 | an embedded vehicle may be absent, and when present the valuation passes iff the vehicle does |
| ValuationTypes.SourceEnumIsConstantValues | types/valuation.ts:10-25 | the source enum is exactly the values of `ValuationSource` |
| LoanApplicationForm.DefaultsFailSchema | app/dashboard/loans/new/page.tsx:31-69 | the defaults fail the form schema through the term 0 and the empty vehicle, while credit score and employment pass |
| LoanApplicationForm.FormEmploymentNotInApiEnum | app/dashboard/loans/new/page.tsx:42 | no form employment value is an API value; "student" stays outside even upper-cased |
| LoanApplicationForm.MonthlyPayment | app/dashboard/loans/new/page.tsx:98-104 | for positive amount, rate and term the payment is positive |
| LoanApplicationForm.BalanceClosedForm | app/dashboard/loans/new/page.tsx:100-103 | after k payments the balance obeys the closed form that the formula is solved from |
| LoanApplicationForm.PaymentAmortizes | app/dashboard/loans/new/page.tsx:98-104 | for positive inputs, paying the computed amount monthly leaves exactly zero after the term |
| LoanApplicationForm.PaymentsExceedPrincipal | app/dashboard/loans/new/page.tsx:98-104 | for positive inputs, payment times months exceeds the amount |
| LoanApplicationForm.PowGrowthBound | app/dashboard/loans/new/page.tsx:101-102 | `(1+i)^n - 1 < n·i·(1+i)^n`, the bound behind the previous row |
| LoanApplicationForm.BalanceWithoutInterest | app/dashboard/loans/new/page.tsx:98-104 | at zero interest the balance falls linearly |
| LoanApplicationForm.ZeroRatePaymentIsZero | app/dashboard/loans/new/page.tsx:99 | as written, a zero rate gives payment 0, so 1200 over 12 months never shrinks |
| LoanApplicationForm.AmortizedPayment | app/dashboard/loans/new/page.tsx:98-104 | the corrected payment is positive for positive amount and term and non-negative rate |
| LoanApplicationForm.AmortizedPaymentAmortizes | app/dashboard/loans/new/page.tsx:98-104 | the corrected payment clears the loan for every non-negative rate and agrees with the written one for positive rates |
| LoanApplicationForm.SubmitPayload | app/dashboard/loans/new/page.tsx:106-120 | the payload carries the form data and status "pending"; for positive amount, rate and term its payment clears the loan and the payments exceed the amount; otherwise, a zero rate included, it sends payment 0 |
| LoanApplicationForm.CorrectedSubmitPayload | app/dashboard/loans/new/page.tsx:106-120 | the evidently intended payload: its payment clears the loan for every non-negative rate, and it equals the sent payload at every non-zero rate |
| OfferForm.DefaultsFailOnIdAndAmount | app/dashboard/offers/new/page.tsx:30-55 | the defaults fail only through the empty id and the 0 amount; filling them is valid iff the id is non-empty and the amount at least 1000 |
| OfferForm.ExpirationOptionsInBounds | app/dashboard/offers/new/page.tsx:35-201 | each selectable expiration is in the schema's bounds, so choosing one never changes validity |
| OfferForm.FormAgainstCreateSchema | app/dashboard/offers/new/page.tsx:30-64 | a valid form passes the API create schema iff its id is a uuid and its amount is at least 100000 |
| OfferForm.MinimumAmountRefused | app/dashboard/offers/new/page.tsx:34 | the form's minimum amount of 1000 is refused by the API create schema |
| ValuationForm.NotesNeverMatter | app/dashboard/valuations/new/page.tsx:37 | notes never affect validity |
| ValuationForm.DefaultsFailOnlyOnVehicle | app/dashboard/valuations/new/page.tsx:32-56 | the defaults fail, and filling in the vehicle is valid iff it is non-empty |
| ValuationForm.DepreciationUpperBound | app/dashboard/valuations/new/page.tsx:36 | depreciation 1 is accepted, above 1 refused, and anything in [0, 1] accepted |
| ListResponse.Rows | app/dashboard/loans/page.tsx:23 | a missing level yields no rows, and any rows come from the page |
| ListResponse.Total | app/dashboard/loans/page.tsx:87 | a missing level yields 0, and any other total comes from the page |
| ListResponse.RowsAndTotalOfPage | app/dashboard/offers/page.tsx:23-85 | a full response yields its rows and total, each defaulting when missing |
| LoansPage.StatusColorsOfSchemaStatuses | app/dashboard/loans/page.tsx:25-39 | among schema statuses only "cancelled" is gray; "in_review" and "under_review" share blue, and "in_review" is not a schema status |
| LoansPage.StatusColorDefault | app/dashboard/loans/page.tsx:25-39 | gray exactly for the strings the switch does not name |
| LoansPage.StatusLabelShape | app/dashboard/loans/page.tsx:176-178 | the label keeps the length, puts a space at the first "_" only, upper-cases only the first character, and keeps the rest |
| LoansPage.StatusLabelOfSnakeCase | app/dashboard/loans/page.tsx:176-178 | `a_b` is labelled as `a` capitalised, a space, then `b` unchanged, later underscores included |
| LoansPage.EmploymentLabel | app/dashboard/loans/page.tsx:164-166 | the label keeps the length and has no upper-case ASCII letter |
| LoansPage.EmploymentLabelOfSnakeCase | app/dashboard/loans/page.tsx:164-166 | `a_b` is labelled as lower-case `a`, a space, then lower-case `b` |
| LoansPage.MissingResponseShowsNothing | app/dashboard/loans/page.tsx:23-87 | a missing response shows no loans and a total of 0 |
| OffersPage.SchemaStatusColors | app/dashboard/offers/page.tsx:25-38 | of the four offer statuses only "accepted" is not gray; "pending", "rejected" and "withdrawn" are no schema status |
| OffersPage.StatusLabel | app/dashboard/offers/page.tsx:148-149 | the label keeps the length, upper-cases the first character only, and maps "" to "" |
| OffersPage.ActiveLabel | app/dashboard/offers/page.tsx:148-149 | "active" becomes "Active", and the label agrees with the loans page's capitalisation |
| OffersPage.MissingResponseShowsNothing | app/dashboard/offers/page.tsx:23-85 | a missing response shows no offers and a total of 0 |
| QueryKeys.Tagged | hooks/use-loan.ts:13-19 | every tagged key extends `all` by the tag and its arguments |
| QueryKeys.TaggedMatches | hooks/use-loan.ts:13-19 | one tagged key refreshes another iff resource and tag agree; `all` refreshes every key of its resource |
| QueryKeys.FactoryPrefixes | hooks/use-loan.ts:13-19 | list keys sit under `lists()`, detail keys under `details()`, both under `all`; lists and details never cross; a detail key refreshes another iff the ids agree |
| QueryKeys.ResourcesApart | hooks/use-vehicle.ts:13-20 | keys of different resources never refresh each other |
| QueryKeys.ListFilters | hooks/use-offer.ts:33 | missing params serialise as `{}` |
| QueryKeys.ListKeyBySerialization | hooks/use-offer.ts:33 | the list key depends only on the serialised params, with missing params the same as `{}` |
| OfferHooks.GroupedKeysOutsideLists | hooks/use-offer.ts:13-19 | by-status and by-loan keys sit under `all` but not under `lists()` |
| OfferHooks.CreateRefreshes | hooks/use-offer.ts:72-76 | creating refreshes every list and the loan's by-loan key, but no other loan's, no by-status key and no detail |
| OfferHooks.StatusChangeLeavesStatusGroups | hooks/use-offer.ts:156-182 | accept and decline refresh the offer's detail but no by-status key |
| LoanHooks.ChangeRefreshesListsAndDetail | hooks/use-loan.ts:72-178 | update, status, approve and reject refresh every list, and a detail iff it is the changed loan's |
| LoanHooks.CreateAndDeleteRefreshOnlyLists | hooks/use-loan.ts:43-99 | create and delete refresh the lists but no detail |
| ValuationHooks.RequestRefreshesVehicleAndLists | hooks/use-valuation.ts:19-59 | by-vehicle keys are not under `lists()`, so a request refreshes the vehicle's key and the lists, and no other vehicle's key |
| ValuationHooks.WriteLandsOnReturnedDetail | hooks/use-valuation.ts:82-142 | generate and update write the returned valuation's detail and refresh the lists; generate leaves by-vehicle keys stale |
| VehicleHooks.SearchGate | hooks/use-vehicle.ts:38-42 | the search runs iff the VIN has 17 characters; every valid VIN runs it, but so do 17 'I's, which no VIN allows |
| VehicleHooks.SearchNeverRefreshed | hooks/use-vehicle.ts:19-140 | search keys sit under `all` but not `lists()`, and no vehicle mutation refreshes or removes them |
| VehicleHooks.UpdateMissesDetail | hooks/use-vehicle.ts:79-83 | as written, an update writes the response under the `undefined` detail key (the envelope has no `id`) and refreshes the lists, but never writes, refreshes or removes any vehicle's detail, the updated one included |
| VehicleHooks.CorrectedUpdateOnSuccess | hooks/use-vehicle.ts:79-83 | the intended update actions write `detail(data.data.data.id)` and keep the same list refresh |
| VehicleHooks.CorrectedUpdateWritesDetail | hooks/use-vehicle.ts:79-83 | the corrected update writes the detail of the returned vehicle and of no other, and refreshes every list |
| VehicleHooks.DeleteDropsDetail | hooks/use-vehicle.ts:105-109 | deleting removes exactly that vehicle's detail and refreshes the lists |
| QueryGates.GatedKeysCarryArgument | hooks/use-offer.ts:23-56 | in all four hooks files, each gated query runs iff the key it is cached under ends in a non-empty argument (for the VIN search, also 17 characters), so no request is made for an empty id, status or VIN |

## Left out

- HTTP and the backend: the axios client and interceptors, and the endpoint tables of `lib/api/*.ts`. Generated ids and server timestamps are parameters.
- React rendering, routing, toasts, `useForm` with its zod resolver, and the `fetch` calls of the pages.
- The vehicle search form component: it is React state wiring, and its 17-character gate repeats the length rule of `isValidVIN`.
- The valuation form's POST body (app/dashboard/valuations/new/page.tsx:84-97). It only adds `new Date().toISOString()` to the form data, and clocks are not modelled.
- React Query's execution and cache. Keys are modelled as sequences. Refreshing is taken to follow React Query's prefix matching (`Matches`), and is not derived from the library.
- `JSON.stringify`: a parameter of `QueryKeys.ListFilters`. Only its determinism is used.
- `Math.random().toString(36)` and `Date.now()` in `addNotification`: the id and timestamp are parameters. The five-second `setTimeout` auto-removal is not modelled as a timer; `UiStore.AddThenRemove` states what the removal achieves.
- zustand and `localStorage` mechanics: `set`, `get`, the JSON storage, and rehydration. The JSON round trip drops keys set to `undefined`. Only the `partialize` projections are modelled.
- `console.log` in `saveApplication`: `SaveApplication` returns the logged application instead.
- `formatCurrency`, `formatDate`, `formatRelativeTime`, `sleep` and `withRetry` in `lib/utils/index.ts`: `Intl` locale tables and timers.
- IEEE-754 numbers: JavaScript numbers are exact `real`s, so NaN, Infinity, rounding and the overflow of `Math.pow` for huge terms are not represented.
- A few JavaScript numbers are integers in the model. The loan form's term and credit score are filled through `parseInt` (app/dashboard/loans/new/page.tsx:275 and 355). List totals and notification timestamps are counts and milliseconds.
- Non-ASCII case mapping in `toLowerCase` and `toUpperCase`: only ASCII letters change case.
- String lengths count Dafny characters (code points), not UTF-16 code units.
- zod's `uuid`, `email` and `datetime` format regexes: they are predicates in `Zod.Formats`, a parameter of every schema.
- An `errors` field that is not an array: the model types it as a list of strings or missing. The `Array.isArray` guard therefore always holds when the field is there.
- Offer accept/decline/expiry transitions: accept and decline are plain server calls (hooks/use-offer.ts:155 and 179). The offer detail and edit pages compute a total payable, a total interest, their own zero-guarded monthly payment, whether an offer has expired, and whether a new expiry date lies in the future (app/dashboard/offers/[id]/edit/page.tsx:87-146 and 366-367, and app/dashboard/offers/[id]/page.tsx:88-89). Those pages lie outside the modelled core, so these computations are left out.
- Step numbers are integers: `currentStep`, the entries of `completedSteps` and the keys of `stepValidation` in `ApplicationFlowStore` are JavaScript numbers in the source, and only whole steps are modelled, because the flow only ever passes step indices.
- LoansPage.StatusLabel: the concrete labels of the five schema statuses ("Under review", …) are stated through `StatusLabelOfSnakeCase`, not as separate literal facts.
- LoansPage.EmploymentLabel: likewise, "self employed" follows from `EmploymentLabelOfSnakeCase`.

## Findings

| source | as written | input that shows it | evidently intended | confidence | as-written member | corrected member |
|---|---|---|---|---|---|---|
| app/dashboard/loans/new/page.tsx:98-104 | `calculateMonthlyPayment` returns 0 whenever the rate is not positive, including a 0 % loan | amount 1200, rate 0, 12 months: payment 0, the balance stays 1200 | an interest-free loan pays principal / months (100 a month) | not executed; the guard is read off the code | LoanApplicationForm.ZeroRatePaymentIsZero | LoanApplicationForm.AmortizedPaymentAmortizes |
| lib/utils/error.ts:49-67 | `isVinError` searches the message after "VIN Validation Error: " has been stripped | a response message "VIN Validation Error: Wrong length" is not classified as a VIN error | a message carrying the VIN prefix is a VIN error | not executed; follows from the replace chain | ErrorMessages.VinPrefixedErrorMissedExample | ErrorMessages.CorrectedRecognisesVinPrefix |
| hooks/use-vehicle.ts:79-83 | `useUpdateVehicle` writes to `vehicleKeys.detail(data.data.id)`, but `data` is the raw axios response and `data.data` is the `{ success, data, message, timestamp }` envelope (lib/api/vehicle.ts:46, lib/api/client.ts:71, types/index.ts:2-7) | updating vehicle `v` writes under `["vehicles", "detail", undefined]`; the detail query of `v` is neither written nor refreshed | write `detail(data.data.data.id)`, as the valuation hooks do | not executed; follows from the response types | VehicleHooks.UpdateMissesDetail | VehicleHooks.CorrectedUpdateWritesDetail |
