# Candidates front end — a Dafny model of its client logic

This project models the client-side logic of a single-page application for
tracking job candidates. The application lists candidates, filters them by a
name search and a status, changes a candidate's status, and creates
candidates from a form. The model covers:

- the **candidate store** (`useCandidates`). It holds the authoritative list,
  the fetch state (loading flag and error message) and the pending optimistic
  overlays. Readers see the list with every pending overlay applied. Status
  updates and creates run in two steps: a begin step that pushes an overlay,
  and a settle step that commits the server's record or leaves the list as it
  was.
- the **error classifier** that turns a failure into the text shown on the
  page, and the **response interceptor** that turns every transport failure
  into an `ApiError` record.
- the **list filter**: a case-insensitive name search and a status filter,
  stable and defensive.
- the **page** (`App`): which of four content states is shown, the
  details-dialog selection, the add dialog, and the toasts shown around status
  changes and creation.
- the **create form**: its field rules, the email check, the trimmed
  payload, the message shown when submission fails, and the form state.
- the **toast queue**, the **skill picker's toggle** and the **avatar's
  initials and colour**.

Clocks and randomness are parameters: `nowMillis` for `Date.now()`;
`createdIso`/`updatedIso` for the two `new Date().toISOString()` readings of an
optimistic record and `now` for the reading of a status change; `randomPart` for the random base-36 fragment
of a toast id. Network calls are not modelled. Each call's outcome is a
`Result` given to the settle step.

Files: `wrappers.dfy` (Option, Result), `strings.dfy` (the JavaScript string
built-ins the code relies on), `sequences.dfy` (`Array.prototype.filter`),
`candidate_types.dfy`, `api_error.dfy`, `use_candidates.dfy`,
`filter_candidates.dfy`, `app.dfy`, `add_candidate_modal.dfy`,
`toast_context.dfy`, `multi_select.dfy`, `avatar.dfy`.

## Model

| member | source | states |
|---|---|---|
| Strings.Trim | src/features/add-candidate/ui/AddCandidateModal.tsx:140-143 | `trim` returns the input with a leading and a trailing run of ECMAScript whitespace removed: the result is a slice whose prefix and suffix are all whitespace; it is empty exactly when the input is all whitespace, and otherwise neither starts nor ends with whitespace |
| Strings.Lower | src/shared/lib/filterCandidates.ts:14-16 | `toLowerCase`: ASCII capitals become the small letter 32 code points higher, every other character stays, and no ASCII capital remains |
| Strings.Upper | src/shared/ui/Avatar.tsx:17 | `toUpperCase`: ASCII small letters become the capital 32 code points lower, every other character stays, and no ASCII small letter remains |
| Strings.Contains | src/shared/lib/filterCandidates.ts:14-16 | `includes`: the empty string is always found, and nothing longer than the string is |
| Strings.ContainsIffOccurs | src/shared/lib/filterCandidates.ts:14-16 | `includes` holds exactly when the part occurs at some index of the string |
| Strings.JsLength | src/features/add-candidate/ui/AddCandidateModal.tsx:93 | `.length` counts UTF-16 code units: between the number of characters and twice it, and exactly that number when no character lies above U+FFFF |
| Strings.JsLengthOfChar | src/features/add-candidate/ui/AddCandidateModal.tsx:93 | a character counts one code unit, or two (a surrogate pair) above U+FFFF |
| Strings.JsLengthAppend | src/features/add-candidate/ui/AddCandidateModal.tsx:93 | the length of a concatenation is the sum of the lengths; with the single-character case this fixes `.length` for every string |
| Strings.JsLengthMixedExample | src/features/add-candidate/ui/AddCandidateModal.tsx:93 | "a" followed by an emoji is three code units long |
| Strings.IntToString | src/shared/ui/MultiSelect.tsx:79 | `String(k)`: non-empty, a leading minus sign exactly for negative numbers, decimal digits otherwise |
| Strings.JsNumber | src/shared/ui/MultiSelect.tsx:73 | `Number` on integer text: blank text gives 0, and text holding any character that is not whitespace, a digit or a minus sign gives NaN |
| Strings.NumberOfIntToString | src/shared/ui/MultiSelect.tsx:72-79 | `Number(String(k)) == k` for every integer, so an option's value reads back as its id |
| Sequences.Filter | src/shared/lib/filterCandidates.ts:12-23 | the result is an order-preserving subsequence of the input; every kept element passes the predicate, comes from the input, and every passing element is kept |
| ApiErrors.IsApiError | src/shared/api/types.ts:13-20 | an ApiError record (message and status code) passes; a plain Error, which has no status code, does not |
| ApiErrors.OrElse | src/shared/api/api.ts:35-41 | `a \|\| fallback` on strings: a present, non-empty `a` wins, otherwise the fallback |
| ApiErrors.ToApiError | src/shared/api/api.ts:19-45 | no response: status 0, code `NETWORK_ERROR`, the connectivity text for "Network Error", otherwise the message or a fallback. A response: its status and `errors`, the body message, the error message or the default text, and the body code or `HTTP_<status>`. The message is never empty |
| ApiErrors.Intercept | src/shared/api/api.ts:16-45 | a response passes through unchanged; every failure is rejected with a value that satisfies `isApiError` |
| UseCandidates.GetErrorMessage | src/entities/candidate/model/useCandidates.ts:9-29 | status 0 gives the connectivity text, 429 the rate-limit text, 500 and above the server text; any other ApiError gives its own message; a value that is not an ApiError gives the generic text |
| UseCandidates.NoResponseIsConnectivity | src/shared/api/api.ts:20-31 | a request that got no response is always shown as a connectivity problem |
| UseCandidates.InterceptedMessageNonEmpty | src/entities/candidate/model/useCandidates.ts:9-29 | a failure that passed the interceptor never classifies to the empty string |
| UseCandidates.ApplyStatus | src/entities/candidate/model/useCandidates.ts:50-59 | same length; every record with the id gets the new status and timestamp, every other record is unchanged |
| UseCandidates.Reduce | src/entities/candidate/model/useCandidates.ts:49-65 | `update_status` maps the list; `add` puts the record in front of the unchanged list |
| UseCandidates.ApplyOverlays | src/entities/candidate/model/useCandidates.ts:47-66 | applying pending overlays in order never loses an id present in the authoritative list |
| UseCandidates.RemoveLast | src/entities/candidate/model/useCandidates.ts:91-102 | discarding an overlay removes its last occurrence, keeping every other overlay in order (and so the multiset minus one copy); nothing changes when it is absent |
| UseCandidates.LastIndexOf | src/entities/candidate/model/useCandidates.ts:91-102 | absent exactly when the overlay is not pending; otherwise an index holding it with no later occurrence |
| UseCandidates.Find | src/entities/candidate/model/useCandidates.ts:85 | finds a record exactly when one has the id, and returns the first such record |
| UseCandidates.ReplaceById | src/entities/candidate/model/useCandidates.ts:96 | same length; each record with the id becomes the server record, every other record is unchanged |
| UseCandidates.OptimisticRecord | src/entities/candidate/model/useCandidates.ts:109-120 | the optimistic record carries the clock id, the payload's fields, status defaulting to active, description defaulting to "", no skills, and the creation and update times from two separate clock readings |
| UseCandidates.ApplyPushed | src/entities/candidate/model/useCandidates.ts:47-66 | one more overlay is one reducer step over the current view |
| UseCandidates.OptimisticStatusVisible | src/entities/candidate/model/useCandidates.ts:91 | right after an update begins, readers see the record with the new status and timestamp |
| UseCandidates.OptimisticAddVisible | src/entities/candidate/model/useCandidates.ts:122-125 | right after a create begins, readers see the optimistic record first, followed by the previous view |
| UseCandidates.PendingCreateNotUpdatable | src/entities/candidate/model/useCandidates.ts:85-89 | a record that is visible only through a pending create is not found by the update lookup |
| UseCandidates.DiscardRestoresView | src/entities/candidate/model/useCandidates.ts:99-102 | discarding the overlay an operation pushed restores the view from before it began |
| UseCandidates.ConfirmedUpdateMatchesOverlay | src/entities/candidate/model/useCandidates.ts:94-96 | with unique ids, a server record that matches the optimistic guess commits exactly the list the overlay showed |
| UseCandidates.OptimisticUpdateScenario | src/entities/candidate/model/useCandidates.ts:83-102 | against a store that has loaded one interview record, an update to active shows the record active while pending and the original record after the call fails |
| UseCandidates.Store.constructor | src/entities/candidate/model/useCandidates.ts:43-45 | empty list, no overlays, loading, no error |
| UseCandidates.Store.View | src/entities/candidate/model/useCandidates.ts:146 | the list readers see keeps every authoritative id |
| UseCandidates.Store.BeginFetch | src/entities/candidate/model/useCandidates.ts:68-72 | loading starts, the error clears, and page 1 with limit 100 is requested |
| UseCandidates.Store.SettleFetch | src/entities/candidate/model/useCandidates.ts:72-80 | success replaces the list; failure keeps the list and stores the classified message; loading ends either way |
| UseCandidates.Store.BeginUpdateStatus | src/entities/candidate/model/useCandidates.ts:83-91 | an id missing from the authoritative list fails with "Candidate not found" and pushes nothing; otherwise one `update_status` overlay is pushed |
| UseCandidates.Store.SettleUpdateStatus | src/entities/candidate/model/useCandidates.ts:93-102 | the overlay is discarded; success replaces the record by id and returns it; failure leaves the list and re-throws |
| UseCandidates.Store.BeginCreate | src/entities/candidate/model/useCandidates.ts:107-125 | the optimistic record is built and one `add` overlay is pushed |
| UseCandidates.Store.SettleCreate | src/entities/candidate/model/useCandidates.ts:127-136 | the overlay is discarded; success prepends the server record; failure leaves the list and re-throws |
| CandidateFilter.FilterCandidates | src/shared/lib/filterCandidates.ts:3-24 | a missing input gives []; otherwise an order-preserving subsequence that is sound and complete for "name contains query, case-insensitive" and "filter is all or equals the status" |
| CandidateFilter.FilterCandidatesCounts | src/shared/lib/filterCandidates.ts:12-23 | each matching record appears as often as in the input; no other record appears |
| CandidateFilter.EmptyQueryKeepsAll | src/shared/lib/filterCandidates.ts:14-20 | an empty query with the "all" filter returns the input unchanged |
| CandidateFilter.SearchJohnExample | src/app/App.test.tsx:209-220 | the query "john" keeps John Doe and Mike Johnson and drops Jane Smith |
| CandidateFilter.ActiveFilterExample | src/app/App.test.tsx:237-246 | the "active" filter keeps only Jane Smith |
| CandidateFilter.InterviewFilterExample | src/app/App.test.tsx:258-267 | the "interview" filter keeps only John Doe |
| CandidateFilter.CombinedFilterExample | src/app/App.test.tsx:269-276 | "interview" together with "john" keeps only John Doe |
| App.RenderContent | src/app/App.tsx:135-164 | exactly one of four states: loading whenever loading; otherwise the error screen exactly when the error is a non-empty string; otherwise the empty state exactly when the filtered list is empty; otherwise the grid with exactly the filtered list |
| App.FailedFetchShowsErrorScreen | src/app/App.tsx:137-144 | once a failed fetch has settled, the error screen shows its classified message |
| App.EmptyErrorIsNotShown | src/app/App.tsx:137 | an error recorded as "" renders as if there were no error |
| App.PageToast | src/app/App.tsx:110-112 | the page's toasts carry the given text and type, the default duration and a `toast-` id |
| App.AppState.constructor | src/app/App.tsx:66-69 | no selection, add dialog closed, fresh store and toast queue |
| App.AppState.Content | src/app/App.tsx:71-75 | loading exactly when the store is loading; the error screen, with the store's text, exactly when not loading and the error is non-empty; the empty state exactly when neither holds and no record of the view matches; a grid is never empty and holds exactly the matching records of the view, in view order, each as many times as the view holds it |
| App.AppState.ViewDetails | src/app/App.tsx:90-95 | the clicked record becomes the selection |
| App.AppState.CloseDetails | src/app/App.tsx:97-99 | the selection is cleared |
| App.AppState.OpenAddModal | src/app/App.tsx:118-121 | the add dialog opens; the selection is unchanged |
| App.AppState.CloseAddModal | src/app/App.tsx:123-125 | the add dialog closes; the selection is unchanged |
| App.AppState.Retry | src/app/App.tsx:141 | retry starts a new fetch |
| App.AppState.BeginStatusChange | src/app/App.tsx:101-104 | the selection is captured; an unknown id fails at once with the error toast; a known one pushes the overlay and shows no toast yet |
| App.AppState.SettleStatusChange | src/app/App.tsx:104-113 | success replaces the selection only when the captured selection has the id, and shows the success toast; failure shows the error toast and keeps the selection |
| App.AppState.BeginCreateCandidate | src/app/App.tsx:127-129 | the optimistic record is pushed |
| App.AppState.SettleCreateCandidate | src/app/App.tsx:129-131 | the success toast only on success; a failure is returned to the caller with no toast |
| AddCandidateModal.RequiredLengthError | src/features/add-candidate/ui/AddCandidateModal.tsx:91-104 | blank gives "required"; otherwise an untrimmed length, in UTF-16 code units, outside [2, 100] gives the range message; no error exactly when not blank and within range |
| AddCandidateModal.EmojiNameLength | src/features/add-candidate/ui/AddCandidateModal.tsx:91-95 | a name of one emoji counts two code units and so passes the length rule |
| AddCandidateModal.IsEmailIffPattern | src/features/add-candidate/ui/AddCandidateModal.tsx:108 | the email check accepts exactly the strings `^[^\s@]+@[^\s@]+\.[^\s@]+$` matches |
| AddCandidateModal.PatternSurvivesTrim | src/features/add-candidate/ui/AddCandidateModal.tsx:106-110 | an address that matches the pattern is not blank and trimming leaves it unchanged |
| AddCandidateModal.EmailError | src/features/add-candidate/ui/AddCandidateModal.tsx:106-110 | blank gives "Email is required", a mismatch gives "Invalid email format", no error exactly when the pattern matches |
| AddCandidateModal.PhoneError | src/features/add-candidate/ui/AddCandidateModal.tsx:112-114 | "Phone is required" exactly when blank |
| AddCandidateModal.DescriptionError | src/features/add-candidate/ui/AddCandidateModal.tsx:116-122 | an error exactly when not blank and the untrimmed length, in UTF-16 code units, is outside [10, 2000] |
| AddCandidateModal.ValidationErrors | src/features/add-candidate/ui/AddCandidateModal.tsx:88-124 | each text field's error is recorded exactly when its rule fails; status, skills and the general error are never set |
| AddCandidateModal.ValidateForm | src/features/add-candidate/ui/AddCandidateModal.tsx:88-126 | validation passes exactly for forms whose name and position are non-blank with length in [2, 100], whose email matches the pattern, whose phone is non-blank, and whose description is blank or has length in [10, 2000] |
| AddCandidateModal.BuildPayload | src/features/add-candidate/ui/AddCandidateModal.tsx:139-150 | trimmed text fields, status and skills as chosen, and the trimmed description only when it is not blank |
| AddCandidateModal.ValidFormPayload | src/features/add-candidate/ui/AddCandidateModal.tsx:128-150 | a valid form yields a payload with non-empty name, position and phone, and the email exactly as checked |
| AddCandidateModal.SubmitErrorMessage | src/features/add-candidate/ui/AddCandidateModal.tsx:157-173 | 409 gives the message or the duplicate text, 429 the rate-limit text, 500 and above the server text, another ApiError its message or the default, anything else the default; never empty |
| AddCandidateModal.SubmitAgreesWithFetchClassifier | src/features/add-candidate/ui/AddCandidateModal.tsx:159-171 | for an ApiError whose status is neither 0 nor 409, the form shows the same text as the list classifier, unless the classifier would fall through to an empty message |
| AddCandidateModal.SetField | src/features/add-candidate/ui/AddCandidateModal.tsx:183 | the field takes the value and every other field keeps its value |
| AddCandidateModal.ClearError | src/features/add-candidate/ui/AddCandidateModal.tsx:184-186 | that field's error goes; every other error, and the general error, stays |
| AddCandidateModal.AddCandidateForm.constructor | src/features/add-candidate/ui/AddCandidateModal.tsx:41-61 | empty text fields, status active, no skills, no errors, not submitting |
| AddCandidateModal.AddCandidateForm.HandleFieldChange | src/features/add-candidate/ui/AddCandidateModal.tsx:179-187 | sets the field and clears its error only when one is shown |
| AddCandidateModal.AddCandidateForm.BeginSubmit | src/features/add-candidate/ui/AddCandidateModal.tsx:128-152 | an invalid form records its field errors and submits nothing; a valid one clears the errors, starts submitting and hands over the payload |
| AddCandidateModal.AddCandidateForm.SettleSubmit | src/features/add-candidate/ui/AddCandidateModal.tsx:152-176 | success asks to close; failure records only the general error; submitting ends either way |
| AddCandidateModal.AddCandidateForm.ResetOnClose | src/features/add-candidate/ui/AddCandidateModal.tsx:65-71 | closing restores the initial data, no errors, not submitting |
| ToastContext.ToastId | src/shared/contexts/ToastContext.tsx:19 | ids start with `toast-` |
| ToastContext.NewToast | src/shared/contexts/ToastContext.tsx:18-26 | the toast carries the id and message; the type defaults to info and the duration to 5000 |
| ToastContext.WithoutId | src/shared/contexts/ToastContext.tsx:34 | no toast with the id remains; every other toast is kept, in order and as many times as before |
| ToastContext.DismissAbsentIsNoop | src/shared/contexts/ToastContext.tsx:34 | dismissing an id no toast carries changes nothing |
| ToastContext.ShowThenDismissRestores | src/shared/contexts/ToastContext.tsx:28-34 | showing a toast with a fresh id and then dismissing that id restores the list |
| ToastContext.ToastQueue.constructor | src/shared/contexts/ToastContext.tsx:15 | the list starts empty |
| ToastContext.ToastQueue.ShowToast | src/shared/contexts/ToastContext.tsx:17-31 | exactly one toast is appended; earlier toasts keep their values and order |
| ToastContext.ToastQueue.DismissToast | src/shared/contexts/ToastContext.tsx:33-35 | every toast with the id goes; the rest stay in order |
| MultiSelect.Toggle | src/shared/ui/MultiSelect.tsx:29-35 | a selected id is removed everywhere with the others kept in order and in number; an unselected id is appended at the end |
| MultiSelect.ToggleFlipsMembership | src/shared/ui/MultiSelect.tsx:29-35 | toggling flips whether the id is selected |
| MultiSelect.ToggleTwiceRestores | src/shared/ui/MultiSelect.tsx:29-35 | toggling an unselected id twice restores the selection |
| MultiSelect.SelectedOptions | src/shared/ui/MultiSelect.tsx:37-39 | the chips keep the options' order and hold exactly the options whose id is selected |
| MultiSelect.UnselectedOptions | src/shared/ui/MultiSelect.tsx:40-42 | the drop-down keeps the options' order and holds exactly the options whose id is not selected |
| MultiSelect.OptionsPartition | src/shared/ui/MultiSelect.tsx:37-42 | every occurrence of an option lands in exactly one of the two lists |
| MultiSelect.OnSelectChange | src/shared/ui/MultiSelect.tsx:72-75 | the selection changes exactly when the value reads as a number other than 0, and then it is toggled by that number |
| MultiSelect.PlaceholderTogglesNothing | src/shared/ui/MultiSelect.tsx:72-75 | the "" placeholder (Number gives 0) and any non-numeric value toggle nothing |
| MultiSelect.PickingOptionToggles | src/shared/ui/MultiSelect.tsx:72-79 | picking the option rendered for a non-zero id toggles that id |
| Avatar.Split | src/shared/ui/Avatar.tsx:14 | `split(" ")` gives at least one piece and no piece contains a space |
| Avatar.SplitJoinRoundTrip | src/shared/ui/Avatar.tsx:14 | joining the pieces with " " gives back the name |
| Avatar.EmptyPiecesContributeNothing | src/shared/ui/Avatar.tsx:14-16 | empty pieces from leading, trailing or repeated spaces add nothing to the letters |
| Avatar.FirstLetters | src/shared/ui/Avatar.tsx:15-16 | at most one letter per piece |
| Avatar.FirstLettersAreWordStarts | src/shared/ui/Avatar.tsx:13-16 | the pieces' first letters are exactly the characters that start the name or follow a space |
| Avatar.Take2 | src/shared/ui/Avatar.tsx:18 | `slice(0, 2)` gives the prefix of length 2, or the whole string when it is shorter |
| Avatar.Initials | src/shared/ui/Avatar.tsx:13-18 | the initials have length at most 2 |
| Avatar.InitialsAreWordStarts | src/shared/ui/Avatar.tsx:13-18 | the initials are the first two word-start characters, upper-cased |
| Avatar.InitialsExample | src/shared/ui/Avatar.tsx:13-18 | "John Doe" gives "JD" |
| Avatar.ColorIndex | src/shared/ui/Avatar.tsx:37-38 | the name's length in UTF-16 code units mod 7: always a valid index into the seven colour classes, and the character count mod 7 for a name with no character above U+FFFF |
| Avatar.AvatarFace | src/shared/ui/Avatar.tsx:37-53 | a non-empty image URL shows the image with the name as alt text; otherwise the badge shows `Initials(name)` on `COLORS[ColorIndex(name)]`, at most two letters on one of the seven colours |

## Left out

- HTTP transport: the axios instance and its headers, the candidate and skill
  endpoints, and their URLs are not modelled. Each call's outcome is a parameter
  of the settle step. The skills fetch in the create dialog is not modelled.
- React scheduling: `useOptimistic` transitions and out-of-order arrival of
  overlapping responses are not modelled. Each operation is a begin step and
  a settle step. A settle step discards the last occurrence of the overlay its
  begin step pushed.
- UseCandidates.Store.View: the overlay's `updatedAt` is the render-time
  clock reading passed as `now`, not a value frozen when the overlay was pushed.
- Debounce: the debounced search query is an input to the filter. `useDebounce`
  is not part of this model.
- Strings.Trim and the email pattern: whitespace is the fixed ECMAScript
  WhiteSpace and LineTerminator set.
- Lower, Upper: case mapping (`toLowerCase`, `toUpperCase`) is ASCII only;
  letters outside ASCII keep their case.
- Strings are sequences of Unicode code points. Lengths that the form and the
  avatar compare or reduce are counted in UTF-16 code units (`JsLength`), as
  `.length` counts them. Lone surrogates cannot occur in the model.
- FirstLetters: a piece that starts with a character above U+FFFF contributes
  that whole character, where `n[0]` takes only its high surrogate.
- Take2: `slice(0, 2)` is taken over characters, not UTF-16 code units, so
  initials made of characters above U+FFFF are not cut in half as in the
  source.
- Initials: inherits the two lines above; for names whose word starts lie at
  or below U+FFFF it agrees with the source.
- Strings.JsNumber: `Number` is modelled on integer text only (optional minus
  sign and digits, or blank). Decimals, exponents, hex, `+` and `Infinity` are
  not modelled, and they read as NaN. Option values are always integer ids.
- Unique ids: the model does not enforce them. `UniqueIds` is a hypothesis
  only where a lemma needs it.
- Logging (`console.error`), focus handling, lazy loading and preloading, error
  boundaries, skeletons and all styling are not modelled.
- App.AppState.Retry: the retry button is modelled only as the start of a new
  fetch.
- The status-update toast texts and the form's field messages are modelled.
  The ARIA labels and placeholders of the inputs are not.
