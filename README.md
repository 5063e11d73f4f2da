# duffel-components: a Dafny model of the ancillaries and checkout logic

This project models the decision logic of four parts of the Duffel
components library and proves properties of it.

- **The seat-selection modal** (`SeatSelectionStandalone`). A seat toggle
  rebuilds the list of selected seat services with an exclusion scan and may
  append the clicked seat. The list is also indexed by service id. A cursor
  walks the (segment, passenger) permutations with next and previous buttons.
- **The seat-selection widget** (`DuffelSeatSelection`). It receives the
  fetched offer and decides about expiry and the expiry timer. It checks the
  passenger count and fills in passenger ids for fixture offers. It builds the
  inline style and decides whether to show the error panel or the modal. When
  the modal closes, it reports the payload and its metadata.
- **3-D Secure session creation** (`createThreeDSecureSession`). It merges the
  environment configuration, then settles the promise from:
  - the create call's answer;
  - the session status and external id;
  - the first challenge event and the refresh call's answer.
- **The checkout aggregator** (`DuffelCheckout`). It derives the loading flag
  and guards the offer fetch. It emits the payload when either selection
  changes and the payload is complete. It computes the error-panel height and
  the partial style map.

The code is plain Dafny:

- state that React keeps with `useState` is a field of a class;
- each setter and event handler is a method that names the fields it changes;
- expressions are functions.

The scan in `onSeatToggle` is a loop proved against the list function
`Toggled`, and the properties of a toggle are lemmas about that function.

The library helpers the components call are fields of a `...Library` value
and are left uninterpreted. These are `offerIsExpired`,
`formatAvailableServices`, `formatSeatMaps`, `compileCreateOrderPayload`,
`isPayloadComplete` and `hasHighLuminance`.

Network and SDK calls are inputs:

- the fetched offer and seat maps are method arguments;
- the answers of the script loader, the create call, the challenge SDK and the
  refresh call are a `Collaborators` value;
- the clock reading `now` is a parameter, in milliseconds.

Files:

- `types.dfy` (module `Types`): the API records, `Option`, JavaScript
  truthiness of strings, the `...(value && {key: value})` idiom, and the card
  height formula.
- `seat_selection_standalone.dfy` (module `SeatSelectionStandalone`).
- `three_d_secure_session.dfy` (module `ThreeDSecureSession`).
- `duffel_seat_selection.dfy` (module `DuffelSeatSelection`).
- `duffel_checkout.dfy` (module `DuffelCheckout`).

Behaviour of the code worth noting, as the model states it:

- A `"failure"` challenge event rejects the promise. It rejects with the
  refreshed session, or with the refresh error. It never resolves.
- An `"error"` event always rejects with the generic message, whatever the
  refresh answers.
- Toggling a seat on and then off restores the earlier list only when no
  earlier entry has the seat's id or sits in the current slot. In general the
  result is the earlier list with those entries removed.

## Model

| member | source | states |
|---|---|---|
| Types.StylePropertyNamesDistinct | src/components/DuffelAncillaries/DuffelSeatSelection.tsx:205-229 | no two style properties are written under the same key of the style object |
| Types.OptionalEntry | src/components/DuffelCheckout.tsx:88-94 | `...(value && {[key]: value})` adds the key exactly when the value is a non-empty string, with that value, and no other key |
| SeatSelectionStandalone.ToggleSeat | src/components/DuffelAncillaries/seats/SeatSelectionStandalone.tsx:81-104 | the loop builds exactly `Toggled` of the current list: the kept entries in order, then the candidate when its quantity is positive |
| SeatSelectionStandalone.KeptEntriesAppend | src/components/DuffelAncillaries/seats/SeatSelectionStandalone.tsx:83-100 | scanning one more entry appends it exactly when the keep rule holds for it |
| SeatSelectionStandalone.KeptEntriesCount | src/components/DuffelAncillaries/seats/SeatSelectionStandalone.tsx:83-100 | every entry passing the keep rule survives with all its occurrences, and every other entry is gone |
| SeatSelectionStandalone.KeptEntriesMembers | src/components/DuffelAncillaries/seats/SeatSelectionStandalone.tsx:84-99 | an entry is in the scan's result if and only if it was in the list and is neither a toggle-off of the candidate's id nor tagged with the current segment and passenger |
| SeatSelectionStandalone.KeptEntriesOrder | src/components/DuffelAncillaries/seats/SeatSelectionStandalone.tsx:83-100 | the kept entries keep their original relative order (a subsequence), so the result is never longer than the list |
| SeatSelectionStandalone.ToggledShape | src/components/DuffelAncillaries/seats/SeatSelectionStandalone.tsx:102-104 | the candidate is appended as the last element exactly when its quantity is positive; the length is at most one more than the input's |
| SeatSelectionStandalone.ToggleClearsSlot | src/components/DuffelAncillaries/seats/SeatSelectionStandalone.tsx:88-103 | after a toggle no earlier entry is tagged with the current slot; only the appended candidate can be |
| SeatSelectionStandalone.ToggleOffRemovesId | src/components/DuffelAncillaries/seats/SeatSelectionStandalone.tsx:84-102 | toggling off (quantity 0) leaves no entry with the candidate's id |
| SeatSelectionStandalone.UntaggedEntriesSurvive | src/components/DuffelAncillaries/seats/SeatSelectionStandalone.tsx:89-92 | an entry without seat information is never dropped by the same-slot rule |
| SeatSelectionStandalone.KeptEntriesKeepSlotsUnique | src/components/DuffelAncillaries/seats/SeatSelectionStandalone.tsx:83-100 | the scan keeps the invariant "at most one entry per tagged slot" |
| SeatSelectionStandalone.ToggleKeepsSlotsUnique | src/components/DuffelAncillaries/seats/SeatSelectionStandalone.tsx:83-104 | a toggle with an untagged candidate, or one tagged with the current slot, keeps at most one entry per slot |
| SeatSelectionStandalone.KeptEntriesCompose | src/components/DuffelAncillaries/seats/SeatSelectionStandalone.tsx:83-100 | two scans, the second with a stricter keep rule, equal the second scan alone |
| SeatSelectionStandalone.ToggleOnThenOff | src/components/DuffelAncillaries/seats/SeatSelectionStandalone.tsx:83-104 | toggling a seat on then off gives the earlier list without the entries of that id and that slot |
| SeatSelectionStandalone.KeptEntriesAll | src/components/DuffelAncillaries/seats/SeatSelectionStandalone.tsx:83-100 | when every entry passes the keep rule the scan returns the list unchanged |
| SeatSelectionStandalone.ToggleOnThenOffRestores | src/components/DuffelAncillaries/seats/SeatSelectionStandalone.tsx:83-104 | toggling on then off restores the list exactly when no earlier entry has the id or the slot |
| SeatSelectionStandalone.ServicesById | src/components/DuffelAncillaries/seats/SeatSelectionStandalone.tsx:49-52 | the id map's keys are exactly the ids in the list, and each key maps to a list entry with that id |
| SeatSelectionStandalone.ServicesByIdPicksLast | src/components/DuffelAncillaries/seats/SeatSelectionStandalone.tsx:49-52 | each key maps to the last entry carrying that id |
| SeatSelectionStandalone.ToggledServicesById | src/components/DuffelAncillaries/seats/SeatSelectionStandalone.tsx:49-104 | after a toggle on, the candidate's id maps to the candidate; after a toggle off, the id is absent |
| SeatSelectionStandalone.StageFor | src/components/DuffelAncillaries/seats/SeatSelectionStandalone.tsx:40-54 | a loading modal renders the empty placeholder; otherwise the selection is rendered exactly when both the offer and the seat maps are present |
| SeatSelectionStandalone.GatedWalkStaysInRange | src/components/DuffelAncillaries/seats/SeatSelectionStandalone.tsx:138-147 | when next is only taken on a non-last and previous only on a non-first permutation, the index stays in [0, count) |
| SeatSelectionStandalone.SeatSelectionState.constructor | src/components/DuffelAncillaries/seats/SeatSelectionStandalone.tsx:44-48 | the cursor starts at 0 (the first permutation) with the given selection |
| SeatSelectionStandalone.SeatSelectionState.CurrentPermutation | src/components/DuffelAncillaries/seats/SeatSelectionStandalone.tsx:59-64 | the destructured permutation exists exactly when the index is in range, and is the permutation at the current index |
| SeatSelectionStandalone.SeatSelectionState.IsFirstSegment | src/components/DuffelAncillaries/seats/SeatSelectionStandalone.tsx:138 | on the first index the permutation destructured is the list's first |
| SeatSelectionStandalone.SeatSelectionState.IsLastSegment | src/components/DuffelAncillaries/seats/SeatSelectionStandalone.tsx:139-141 | on the last index the permutation destructured is the list's last |
| SeatSelectionStandalone.SeatSelectionState.SelectedServicesMap | src/components/DuffelAncillaries/seats/SeatSelectionStandalone.tsx:49-52 | the map passed to the seat-map body has one key per selected id, each holding a selected service with that id |
| SeatSelectionStandalone.SeatSelectionState.OnNextSegmentButtonClicked | src/components/DuffelAncillaries/seats/SeatSelectionStandalone.tsx:142-144 | the index goes up by one; from a permutation where `isLastSegment` is false, it lands on a permutation |
| SeatSelectionStandalone.SeatSelectionState.OnPreviousSegmentButtonClicked | src/components/DuffelAncillaries/seats/SeatSelectionStandalone.tsx:145-147 | the index goes down by one; from a permutation where `isFirstSegment` is false, it lands on a permutation |
| SeatSelectionStandalone.SeatSelectionState.OnSeatToggle | src/components/DuffelAncillaries/seats/SeatSelectionStandalone.tsx:78-107 | the selection becomes `Toggled` of the old selection for the current permutation's segment and passenger; the cursor is unchanged |
| SeatSelectionStandalone.SeatSelectionState.OnClose | src/components/DuffelAncillaries/seats/SeatSelectionStandalone.tsx:148 | the completion callback receives the current selection |
| ThreeDSecureSession.MergeEnvironment | src/functions/createThreeDSecureSession/createThreeDSecureSession.ts:5-41 | a given key wins and an absent key keeps its default; given credentials replace the default ones as a whole |
| ThreeDSecureSession.MergeEnvironmentLaws | src/functions/createThreeDSecureSession/createThreeDSecureSession.ts:36-41 | no override (the default `{}`) gives the defaults, and a configuration giving every key is used as given |
| ThreeDSecureSession.ChallengeOutcome | src/functions/createThreeDSecureSession/createThreeDSecureSession.ts:79-104 | success resolves with the refreshed session or rejects with the refresh error; failure rejects with the refreshed session or the refresh error; error always rejects generically |
| ThreeDSecureSession.CreateSession | src/functions/createThreeDSecureSession/createThreeDSecureSession.ts:38-106 | the full outcome table: a failed script load or create call rejects with that error; no session, or no external id off ready-for-payment, rejects generically; ready-for-payment resolves; otherwise the SDK is initialised with the merged credentials and the first event decides |
| ThreeDSecureSession.ReadyForPaymentSkipsChallenge | src/functions/createThreeDSecureSession/createThreeDSecureSession.ts:63-66 | a ready-for-payment session resolves as created and neither initialises the SDK nor refreshes |
| ThreeDSecureSession.ChallengeFailureNeverResolves | src/functions/createThreeDSecureSession/createThreeDSecureSession.ts:79-84 | a failure event always ends in a rejection |
| ThreeDSecureSession.ChallengeErrorIsGeneric | src/functions/createThreeDSecureSession/createThreeDSecureSession.ts:86-95 | an error event rejects with the generic error whether the refresh succeeds or fails |
| DuffelSeatSelection.IsPropsWithOfferIdForFixture | src/components/DuffelAncillaries/DuffelSeatSelection.tsx:261-264 | `offer_id` is present as a key and its first characters are `fixture_` |
| DuffelSeatSelection.IsPropsWithClientKeyAndOfferId | src/components/DuffelAncillaries/DuffelSeatSelection.tsx:266-269 | both `offer_id` and `client_key` are present as keys, whatever their values |
| DuffelSeatSelection.ExpiryDecisionFor | src/components/DuffelAncillaries/DuffelSeatSelection.tsx:69-81 | expired offers are rejected; otherwise a timer is due exactly when the time to expiry is under one day, and its delay is that time |
| DuffelSeatSelection.ExpiryDecisionExamples | src/components/DuffelAncillaries/DuffelSeatSelection.tsx:73-81 | an offer expiring in 30 minutes gets a 30-minute timer; one expiring in 400 days gets none |
| DuffelSeatSelection.WithFixturePassengerIds | src/components/DuffelAncillaries/DuffelSeatSelection.tsx:127-130 | the list has the same length; entry i takes the id of offer passenger i and keeps every other field |
| DuffelSeatSelection.BaseStyleIsNotVariable | src/components/DuffelAncillaries/DuffelSeatSelection.tsx:205-229 | no CSS variable overwrites a base style key |
| DuffelSeatSelection.DuffelComponentsStyle | src/components/DuffelAncillaries/DuffelSeatSelection.tsx:202-232 | the style has exactly the base keys and the keys of the accent and layout parts, each with its part's value; the base keys are always present |
| DuffelSeatSelection.AccentVariables | src/components/DuffelAncillaries/DuffelSeatSelection.tsx:210-217 | `--ACCENT` only for a truthy accent colour; `--SECONDARY` and `--TERTIARY` (grey 900 and 400) only when that colour also has high luminance |
| DuffelSeatSelection.LayoutVariables | src/components/DuffelAncillaries/DuffelSeatSelection.tsx:218-229 | each of font family, button radius, sides padding and info-card margin appears exactly when its field is truthy, with that value |
| DuffelSeatSelection.ErrorPanelHeight | src/components/DuffelAncillaries/DuffelSeatSelection.tsx:195-200 | with one service card the error panel is 72 px high |
| DuffelSeatSelection.SeatSelectionWidget.constructor | src/components/DuffelAncillaries/DuffelSeatSelection.tsx:55-60 | the initial state: the props' passengers and offer, both fetches loading, no seat maps, no error |
| DuffelSeatSelection.SeatSelectionWidget.SetError | src/components/DuffelAncillaries/DuffelSeatSelection.tsx:60 | the error state setter |
| DuffelSeatSelection.SeatSelectionWidget.SetIsOfferLoading | src/components/DuffelAncillaries/DuffelSeatSelection.tsx:57 | the offer-loading state setter |
| DuffelSeatSelection.SeatSelectionWidget.SetIsSeatMapLoading | src/components/DuffelAncillaries/DuffelSeatSelection.tsx:59 | the seat-map-loading state setter |
| DuffelSeatSelection.SeatSelectionWidget.UpdateOffer | src/components/DuffelAncillaries/DuffelSeatSelection.tsx:67-89 | an expired offer sets the expiry error, schedules nothing and stores nothing; otherwise at most one timer with the time to expiry is scheduled and the formatted offer is stored |
| DuffelSeatSelection.SeatSelectionWidget.OnOfferRetrieved | src/components/DuffelAncillaries/DuffelSeatSelection.tsx:113-132 | the error, timers and offer are set as `updateOffer` sets them, also when the count check then throws; a passenger-count mismatch throws with both counts and stops; otherwise fixture props get the offer's passenger ids |
| DuffelSeatSelection.PassengerCountMismatch.Message | src/components/DuffelAncillaries/DuffelSeatSelection.tsx:117-120 | the message starts with the fixed text, and both counts can be read back from it as decimal numbers |
| Types.NatToStringRoundTrip | src/components/DuffelAncillaries/DuffelSeatSelection.tsx:117-120 | the decimal rendering a template literal gives a count reads back as that count |
| Types.NonIdealStateHeight | src/components/DuffelAncillaries/DuffelSeatSelection.tsx:197-200 | for n > 0 cards the panel is at least as tall as the n cards together, and so at least one card high |
| DuffelSeatSelection.SeatSelectionWidget.FetchEffect | src/components/DuffelAncillaries/DuffelSeatSelection.tsx:107-145 | the offer is requested exactly for props with a client key and an offer id or with a fixture offer id, with the props' id and key; the seat maps are requested on every run with the props' id and key |
| DuffelSeatSelection.SeatSelectionWidget.UpdateSeatMaps | src/components/DuffelAncillaries/DuffelSeatSelection.tsx:91-94 | the formatted seat maps are stored |
| DuffelSeatSelection.SeatSelectionWidget.OnSeatMapsFetchResolved | src/components/DuffelAncillaries/DuffelSeatSelection.tsx:143-145 | when the seat-map fetch's promise resolves, `onLoaded` is called once more |
| DuffelSeatSelection.SeatSelectionWidget.ExpiryTimerFires | src/components/DuffelAncillaries/DuffelSeatSelection.tsx:80 | a scheduled timer sets the expiry error |
| DuffelSeatSelection.SeatSelectionWidget.TriggerOnPayloadReady | src/components/DuffelAncillaries/DuffelSeatSelection.tsx:158-193 | nothing without an offer; the payload is emitted exactly when it is complete, with metadata holding the offer's amounts and currencies, the seat services given and empty baggage and cancel-for-any-reason lists |
| DuffelSeatSelection.SeatSelectionWidget.Style | src/components/DuffelAncillaries/DuffelSeatSelection.tsx:202-232 | the container style always holds the base keys, has `--ACCENT` exactly for a truthy accent colour in the styles prop, and is only the base keys without a styles prop |
| DuffelSeatSelection.SeatSelectionWidget.RenderedStage | src/components/DuffelAncillaries/DuffelSeatSelection.tsx:238-253 | the modal is replaced by the error panel exactly for a truthy error; otherwise it shows the placeholder while either fetch loads, and the selection exactly once both fetches are done with an offer and seat maps |
| DuffelSeatSelection.SeatSelectionWidget.View | src/components/DuffelAncillaries/DuffelSeatSelection.tsx:238-253 | a truthy error shows the 72 px error panel with its message instead of the modal; the modal loads while either fetch loads |
| DuffelCheckout.ErrorPanelHeight | src/components/DuffelCheckout.tsx:14-85 | two features yield an error panel of 72 * 2 + 32 * 1 = 176 px |
| DuffelCheckout.CheckoutStyle | src/components/DuffelCheckout.tsx:87-97 | `--ACCENT`, `--FONT-FAMILY` and `--BUTTON-RADIUS` each appear exactly when the matching field is a non-empty string, and no other key does |
| DuffelCheckout.Checkout.constructor | src/components/DuffelCheckout.tsx:51-60 | the initial state: no offer, no error, empty selections |
| DuffelCheckout.Checkout.IsLoading | src/components/DuffelCheckout.tsx:53 | loading exactly while there is no offer and no non-empty error |
| DuffelCheckout.Checkout.FetchEffect | src/components/DuffelCheckout.tsx:62-65 | the offer is requested exactly when both the offer id and the client key are non-empty, with those two values |
| DuffelCheckout.Checkout.SetOffer | src/components/DuffelCheckout.tsx:51-64 | the fetched offer is stored and no payload is emitted |
| DuffelCheckout.Checkout.SetError | src/components/DuffelCheckout.tsx:52-64 | the fetch error is stored |
| DuffelCheckout.Checkout.PayloadEffect | src/components/DuffelCheckout.tsx:67-79 | nothing without an offer, and so nothing while loading; otherwise the compiled payload is emitted exactly when it is complete |
| DuffelCheckout.Checkout.SetBaggageSelection | src/components/DuffelCheckout.tsx:55-80 | the baggage selection is replaced and the payload step re-runs with it |
| DuffelCheckout.Checkout.SetSeatSelection | src/components/DuffelCheckout.tsx:58-80 | the seat selection is replaced and the payload step re-runs with it |
| DuffelCheckout.Checkout.Style | src/components/DuffelCheckout.tsx:87-97 | the container style has only the three variables, `--ACCENT` exactly for a non-empty accent colour, and is empty without a styles prop |
| DuffelCheckout.Checkout.View | src/components/DuffelCheckout.tsx:118-138 | a non-empty error adds the 176 px error panel; both cards are always shown, with the shared loading flag and their own selection |

## Left out

- Network and SDK calls (`retrieveOffer`, `retrieveSeatMaps`, the create and refresh calls of the 3-D Secure client, `loadEvervaultScript`, `initEvervault`) are not modelled. Their answers are inputs.
- `retrieveOffer`'s parameter order is not part of the model. The checkout passes `setOffer, setError` after the ids, while the seat-selection widget passes `setError, setIsOfferLoading, onSuccess`. The model takes the callbacks by name: `SetOffer` on success, `SetError` on failure.
- The library helpers are uninterpreted. These are `offerIsExpired`, `formatAvailableServices`, `formatSeatMaps`, `compileCreateOrderPayload`, `isPayloadComplete`, `hasHighLuminance`, `createPriceFormatters`, `getSegmentList` and `getPassengerBySegmentList`. Nothing is assumed about the permutation list's length.
- React semantics are replaced by explicit events:
  - React re-rendering, effect dependency tracking and the order of state updates are not modelled. Each setter or handler is one method call.
  - The checkout's payload step re-runs on every selection change. React's skipping of an identical list is not modelled.
  - Props are fixed for the life of a component, so re-fetching on a prop change is not modelled.
- The elapsed time of `setTimeout` is not modelled. A scheduled timer is a record with its delay, and `ExpiryTimerFires` delivers one.
- The 3-D Secure promise settles once. The model takes the first challenge event only, and the refresh call's answer is the same for every event.
- `createThreeDSecureSession`: three cases are not modelled:
  - an exception thrown by `initEvervault`, caught by the final `.catch(reject)`;
  - an `external_id` that is `undefined` rather than `null`;
  - an override key given with the value `undefined`.
- Date parsing is not modelled: `expires_at` is already a millisecond count, and an unparsable date (`NaN`) is not modelled.
- Sentry, logging, the `Inspect` panel, the stylesheet link, the CDN URL chosen from `location.href`, money formatting, currency selection and the custom elements are not modelled.
- The seat-selection header can set any permutation index directly. Only the next and previous buttons of the footer are modelled.
- The seat-map body, the seat card and the baggage card are not modelled. The components only pass them their data.
- Sizes are modelled as integers. The `px` suffix is not modelled.
- `SeatSelectionStandalone.ToggleKeepsSlotsUnique`: this lemma assumes the seat-map body tags the clicked seat with the current slot or not at all. That component is not part of this model.
- `SeatSelectionStandalone.SeatSelectionState.OnSeatToggle`: requires the cursor to be on a permutation. The source would read `undefined` fields from an out-of-range permutation and crash in the destructuring.
- `DuffelSeatSelection.WithFixturePassengerIds`: requires the offer to list at least as many passengers as the host page. The only caller runs it after the passenger counts were checked equal.
