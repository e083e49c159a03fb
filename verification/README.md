# A verified model of the retail payment protocol, the canonicalization rules and the request governance

The project models three parts of the repository in Dafny and proves what they are for.

**Paid retail resources** (`retail_context/`). A request passes an admission gate (health, kill switch, subject rate
limit, retry guard), pays through x402, claims its settlement in the control store and is delivered. `RetailPayment` is
the payment loop. `RetailLedger` and `AdmissionTables` hold the tables as values, one function per transaction;
`ControlStore` is the store itself, a class whose methods write row by row and undo everything when a fault strikes, each
proved equal to its transaction. `DeliveryProtocol` and `AdmissionProtocol` let any number of workers interleave, one
store call at a time, with faults before and after every commit, crashes and mode changes; their invariants hold in every
reachable state. `DeliveryRuns`, `DeliveryIncidents` and `AdmissionRuns` draw the conclusions for whole runs,
`RetryWindows` is the law of the retry guard and `RetryRuns` its runs. `SoloWorker`, `SoloOutcomes` and `SoloAdmission`
say, column by column, what becomes of a worker and of the tables when nothing disturbs it, and what a failed call does
to it. `RuntimeDelivery` and `RuntimeAdmission` write the source's procedures statement by statement against the store
and prove that each takes exactly the steps of the worker's program. `PaidService` runs both protocols side by side in the order of the request
handler.

**Canonical forms** (`scripts/gate3_reference_semantics.py`, `retail_context/context_delta.py`,
`retail_context/state_ping.py`). `ExactDecimal` (over `DigitStrings` and `DecimalSyntax`) normalizes decimals on digit
strings. `Jcs` (over `UnicodeText`) is the RFC 8785 profile serializer with a reader for its output, and `JcsText` says what its
text looks like: order, words, numbers, escapes. `ArrayNormalization` normalizes sets and multisets, `ArrayRules` spells
out their order and acceptance. `Projection` selects the declared paths of a response. `ContextDelta` compares two
contexts and `DeltaReport` says entry by entry what its report holds; `StatePing` accumulates evidence and `PingReport`
says the same of its result.

**Governance in `app.py`**. `TemporalGovernance` is the sliding-window log with spacing, cooldown and quarantine;
`QueueGovernance` is the priority queue with pruning. Both are classes changed in place, with theorems over whole runs.

`Orders` holds orders and the stable sort, `Keyed` the index by id, `Clock` instants, `Wrappers` the result carriers.

## What the code does that its own descriptions do not say

- Decimal patterns use `\d`, which also matches non-ASCII digits, while the zero strips only know `0` and the exponent
  bound is a text comparison. A decimal is brought to canonical form exactly when its significand is ASCII
  (`CanonicalIffAscii`). Its acceptance is decided by its number, under every profile, exactly when its exponent is
  ASCII and the significand stripped of ASCII zeros neither begins with a non-ASCII zero nor ends with one behind the
  decimal point (`AcceptanceIsRepresentability`); "1.\u0660" and "1e\u0663" show the two ways to be rejected where "1"
  and "1e3" are accepted, "1\u0660" that a zero before the point does no harm.
- An evidence change names the source of the current item, so swapping the two contexts swaps everything except that
  source, which agrees exactly when the item's source did not change (`SourceIsCurrent`).
- A changed window resets the retry count, so a window is granted the retry limit once per contiguous block of attempts
  in it (`RetriesAreBlocks`), in the order in which the guard's transactions commit. The declared limit holds, whatever
  it is, exactly when the window is asked for contiguously (`BoundHoldsIffContiguous`), as when attempts commit in the
  order of the windows they observed (`OrderedRetriesWithinLimit`). A clock that never goes back is not enough: handlers
  read the time before they reach the guard, and racing ones get twice the limit (`RacingHandlersRetryMore`).
- The sliding window of `app.py` bounds admissions under a clock that never goes back. Under an arbitrary clock it does
  so exactly when there is no window, or the log has room for one arrival only and the retry spacing does not exceed the
  window (`SafeUnderAnyClockIff`); every other configuration has a run that overflows.
- A body whose digest differs from the stored one adds a `delivery_failure` incident to a delivered claim
  (`MismatchedRedelivery`), so such an incident does not imply a failed claim. It is the failure of the claim it names
  unless some worker read that claim delivered with a body of other content, which any reason but
  `response_digest_mismatch` excludes (`FailureIncidentIffFailed`); a failed claim has exactly one, its own
  (`FailuresAreExplained`).
- With the default threshold the request-pressure HALT never fires, because the log never exceeds the request maximum
  (`PressureHaltReachable`).
- `True` and `1` are one dictionary key, so they are one identity in `normalize_reference_array`; the model keeps that.

## Model

| member | source | states |
|---|---|---|
| RetailPayment.StripIsCore | retail_context/x402_payment.py:197-199 | Stripping leaves exactly the text between the outer white space; the result is empty exactly for blank input |
| RetailPayment.BuiltTermsAreCatalogTerms | retail_context/x402_payment.py:202-245 | A requirement exists exactly for a priced resource, a usable URI and a configured wallet, else it is refused with the reason for the first that is missing; it carries the protocol's fixed values and the catalog price, value by value |
| RetailPayment.AccessIffPaid | retail_context/x402_payment.py:382-560 | An outcome opens a resource exactly when the payload matched, verification succeeded and the settlement succeeded with a reference, on the asked network, for the catalog amount; a receipt without the process-local capability opens none |
| RetailPayment.SettledButRefused | retail_context/x402_payment.py:438-466 | A settlement that went through is refused exactly for its network or amount, and the receipt keeps its reference for reconciliation |
| RetailPayment.ReceiptSays | retail_context/x402_payment.py:382-560 | Every receipt carries the terms asked for, how far verification and settlement came, the payer the settlement names or else the verified one, and the first thing that went wrong |
| RetailPayment.ReceiptRefers | retail_context/x402_payment.py:382-560 | Which transaction reference every receipt keeps, what its id is derived from, and that the capability goes with success alone |
| ControlStore.RetailControlStore.ClaimPayment | retail_context/control_store.py:353-440 | One transaction: row, both unique indexes and event together, or no change; conflicts split into consumed and conflicting; any fault point is covered |
| ControlStore.RetailControlStore.MarkDelivery | retail_context/control_store.py:499-575 | One transaction: only a pending row becomes delivered or failed, together with its event and, on failure, its incident; otherwise no change |
| ControlStore.RetailControlStore.RecordTelemetry | retail_context/control_store.py:577-584 | A second insertion of an event changes nothing; faults are swallowed exactly for life-cycle events |
| ControlStore.RetailControlStore.RecordIncident | retail_context/control_store.py:586-593 | A second insertion of an incident changes nothing; faults are swallowed exactly for delivery failures |
| ControlStore.RetailControlStore.SetServiceMode | retail_context/control_store.py:229-242 | The mode changes or, when the call fails before its commit, stays |
| ControlStore.RetailControlStore.ConsumeRateLimit | retail_context/control_store.py:244-294 | The count of the key goes up by one exactly when it is below the limit; a failed call before the commit changes nothing |
| ControlStore.RetailControlStore.RecordRuntimeRequest | retail_context/control_store.py:469-497 | First writer wins on all three unique columns; a repeat succeeds exactly when every column is the same |
| ControlStore.RetailControlStore.InitializeRequest | retail_context/runtime_guard.py:62-106 | A request is bound to its source once; payment present uses up the continuation; another source is refused |
| ControlStore.RetailControlStore.ConsumeExistingAttempt | retail_context/runtime_guard.py:108-179 | An attempt takes the exemption, a retry slot of its window, or nothing, and the guard row changes accordingly |
| RetailLedger.ClaimKeeps | retail_context/control_store.py:353-440 | Under any fault a claim keeps both indexes exact and the audit complete, and never changes an existing row |
| RetailLedger.MarkKeeps | retail_context/control_store.py:499-575 | Under any fault a mark keeps the indexes exact and the audit complete; a terminal status is final |
| RetailLedger.NoteKeeps | retail_context/production_controls.py:550-561 | Writing a life-cycle event the store already wrote is a no-op under any fault |
| RetailLedger.ReportKeeps | retail_context/control_store.py:586-593 | Recording an incident keeps the ledger valid under any fault |
| RetailLedger.SettlementUnique | retail_context/control_store.py:146-170 | Two rows with one settlement or one receipt are one row |
| RetailLedger.OneEventPerStage | retail_context/control_store.py:416-435 | In a valid ledger the audit holds exactly one event for each stage a claim has reached and none for the others |
| RetailLedger.RequestIdIsClean | retail_context/request_binding.py:82-84 | A request id is the prefix and the first 24 digits of the digest; it has no outer white space, so stripping it changes nothing |
| RetailLedger.UriNamesRequest | retail_context/request_binding.py:74-80 | The form of a resource URI; it determines the whole request digest, its kind and, for a state ping, the source binding |
| DeliveryProtocol.AdvanceOk | retail_context/runtime_delivery.py:91-294 | Every step of every worker, under any fault, keeps the ledger sound, lets it only grow, and keeps what the worker relies on |
| DeliveryProtocol.WorkerStays | retail_context/runtime_delivery.py:164-294 | No step of another worker can take away what a worker relies on |
| DeliveryProtocol.StepKeeps | retail_context/runtime_delivery.py:91-294 | The inductive invariant over spawns, steps, crashes, mode changes and unrelated telemetry |
| DeliveryRuns.RunGrows | retail_context/control_store.py:353-575 | Between any two moments of a run no row is removed, no binding changes, terminal statuses stay and the audit only grows |
| DeliveryRuns.ReturnedMatchesRow | retail_context/runtime_delivery.py:218-294 | In every run every resource ever returned carries the digest and length stored in its claim row and is within the response size limit |
| DeliveryRuns.OneBodyOneFirst | retail_context/runtime_delivery.py:232-294 | All resources ever returned on a claim have the same body, and at most one is an initial delivery |
| DeliveryRuns.FailedClaimYieldsNothing | retail_context/runtime_delivery.py:175-231 | A claim that is failed at any moment of a run yields no resource at any moment, before or after |
| DeliveryRuns.BindingNeverChanges | retail_context/control_store.py:353-440 | Over any run a claim's binding never changes and its terminal status is final |
| DeliveryRuns.OneSettlementOneResource | retail_context/runtime_delivery.py:79-149 | All resources returned for one network and transaction have the same request id, request digest, resource URI and body |
| DeliveryRuns.ReturnedWasPaidFor | retail_context/runtime_delivery.py:91-149 | Every returned resource rests on a verified, settled payment whose network matches its row and whose amount is the catalog price |
| DeliveryRuns.AuditIsComplete | retail_context/control_store.py:416-435 | In every reachable state there is exactly one event per stage of every claim, with the columns of its row, and the incident of every failed one |
| DeliveryIncidents.FailuresAreExplained | retail_context/control_store.py:545-575 | In every reachable state a failed claim has exactly one delivery_failure incident, its own, a pending claim none, and a delivered claim only reports of workers that read it with a body of other content |
| DeliveryIncidents.FailureIncidentIffFailed | retail_context/runtime_delivery.py:232-254 | Every delivery_failure incident names one claim, and is its failure exactly when no worker read the claim delivered with a body of other content; any other reason than the mismatch excludes that |
| DeliveryIncidents.IncidentOriginates | retail_context/runtime_delivery.py:232-254 | In every run each delivery_failure incident was written by the failure of a claim, or by a worker that earlier read a delivered row with a body of other content |
| DeliveryIncidents.MismatchedRedelivery | retail_context/runtime_delivery.py:232-254 | For every priced request and any two different bodies some run leaves a delivered claim with a delivery_failure incident |
| SoloWorker.SoloDelivery | retail_context/runtime_delivery.py:91-149 | Alone and without faults a paid worker on an unclaimed settlement makes the first delivery; its claim row takes every column from its request and payment and becomes delivered with what it rendered |
| SoloWorker.RetryDelivery | retail_context/runtime_delivery.py:124-149 | A retry finishes a pending delivery, repeats a delivered one exactly when it renders the stored content, and is refused with the right reason otherwise; the replay is in the audit, a differing body is reported, and no other row changes |
| SoloWorker.ConflictingRetry | retail_context/runtime_delivery.py:79-137 | A settlement already claimed for another purchase or request is refused as a conflict and changes no row; the same purchase is noted as consumed, a different one is noted and reported as a conflict |
| SoloOutcomes.SoloFailure | retail_context/runtime_delivery.py:175-220 | A first delivery whose render raises or is too long is refused with that reason, and its new claim is failed with it, with event and incident |
| SoloOutcomes.RetryFailure | retail_context/runtime_delivery.py:175-220 | On a retry a failing render fails the claim if it is still pending, leaves a delivered one as it is, and is not tried on a failed one |
| SoloOutcomes.NotCleared | retail_context/runtime_delivery.py:98-103 | An outcome that opens nothing, or something else than the request, is refused before the store is touched |
| SoloOutcomes.DisabledClaimsNothing | retail_context/production_controls.py:466-486 | With the service switched off a paid worker is refused and the ledger stays |
| SoloOutcomes.SoloMark | retail_context/production_controls.py:621-709 | The owner of a fresh claim makes its mark, or is refused for an improper status or reason and leaves the claim pending |
| SoloOutcomes.LostRace | retail_context/runtime_delivery.py:258-294 | A worker that finds its row already terminal when it marks repeats the delivery exactly when it rendered the stored content, and writes nothing |
| SoloOutcomes.RacingDeliveries | retail_context/runtime_delivery.py:258-294 | Of two workers of one claim with one body both deliver it, the first to commit as the initial delivery |
| SoloOutcomes.FaultOutcome | retail_context/runtime_delivery.py:91-294 | What a failed call makes of a worker in each of its steps: life-cycle notes are swallowed, everything else is refused with its reason |
| SoloOutcomes.FaultReturnsNothing | retail_context/runtime_delivery.py:91-294 | A worker returns no resource once one of its calls has failed, except for the note of its own claim |
| RuntimeDelivery.ClaimSettledPayment | retail_context/production_controls.py:443-589 | The procedure takes exactly the program's steps for every pattern of faults |
| RuntimeDelivery.ClaimOrResume | retail_context/runtime_delivery.py:91-149 | The procedure takes exactly the program's steps and ends with a capability or a refusal |
| RuntimeDelivery.DeliverOrRedeliver | retail_context/runtime_delivery.py:164-294 | The procedure takes exactly the program's steps and ends with a resource or a refusal |
| RuntimeDelivery.HandlePayment | retail_context/service.py:277-293 | Claim and delivery in a row are one whole worker run |
| RuntimeDelivery.AloneIsSafe | retail_context/runtime_delivery.py:91-294 | An uninterrupted run keeps the ledger sound and its result backed by its row |
| AdmissionRuns.RateNeverExceeded | retail_context/control_store.py:244-294 | In every run the slots charged to a subject, resource and window are as many as the stored count and at most the limit configured for that resource |
| AdmissionRuns.SpanAdmitsTwiceLimit | retail_context/production_controls.py:295-304 | Any closed span of one window length charges at most twice the limit |
| AdmissionRuns.PassIsChargedOnce | retail_context/service.py:76-163 | Every pass is charged exactly once, to a slot, exemption or retry that fits its own request; a failed one at most once |
| AdmissionRuns.SlotsAreOwn | retail_context/production_controls.py:339-362 | Two outcomes with the admission capability for one key hold different numbered slots |
| AdmissionRuns.ContinuationUsedOnce | retail_context/runtime_guard.py:138-150 | The continuation of a request is used at most once ever, counting a payment sent with its first pass |
| AdmissionRuns.NoExemptionAfterUse | retail_context/runtime_guard.py:98-150 | Once the continuation is used no run ever charges it again |
| RetryWindows.LimitHoldsIffContiguous | retail_context/runtime_guard.py:152-177 | For a sequence of attempts the bound of a window holds whatever the limit exactly when the window is asked for contiguously |
| AdmissionRuns.RetriesAreBlocks | retail_context/runtime_guard.py:152-177 | In every run a window's retries are, for every contiguous block of attempts that ask for it, as many as the block is long, up to retry_limit |
| AdmissionRuns.RetriesWithinLimit | retail_context/runtime_guard.py:152-177 | In every run a window that is asked for contiguously, in commit order, grants at most retry_limit retries |
| AdmissionRuns.OrderedRetriesWithinLimit | retail_context/runtime_guard.py:152-177 | When attempts commit in the order of the windows they observed, every window grants at most retry_limit retries |
| RetryRuns.BoundHoldsIffContiguous | retail_context/runtime_guard.py:152-177 | For any sequence of asked windows: no run that asks for them exceeds the limit in a window, whatever the limit, exactly when the window is asked for contiguously; the same holds of the runs whose clock never goes back |
| RetryRuns.RunAsking | retail_context/service.py:230-243 | Under a clock that never goes back racing handlers can ask for any windows in any order |
| RetryRuns.RacingHandlersRetryMore | retail_context/runtime_guard.py:152-156 | Whatever the limit, some run of the gate whose clock never goes back grants a window twice the limit |
| AdmissionRuns.AdmissionsAreNoted | retail_context/production_controls.py:339-362 | In every run each pass on a rate slot has its admission event in the audit, and each admission event has a charged slot of its subject, resource and window |
| AdmissionRuns.DenialsAreReported | retail_context/production_controls.py:225-337 | In every run each completed denial has its event in the audit, with its kind and reason, and every denial of a supported resource has its incident |
| AdmissionRuns.PassesAgree | retail_context/service.py:92-127 | All passes of one request are for the same digest, subject, resource and source binding; a paid pass leaves the continuation used |
| AdmissionRuns.RunBinds | retail_context/control_store.py:469-497 | Between two moments of a run no request record and no source binding changes |
| AdmissionRuns.SourceNeverChanges | retail_context/runtime_guard.py:92-136 | A request's source binding never changes once made |
| AdmissionProtocol.StepKeeps | retail_context/service.py:76-163 | The inductive invariant tying counts, guard rows, charges and workers together |
| SoloAdmission.NewRequest | retail_context/service.py:130-163 | Below the limit of its window a new request is admitted: its count goes up by one, and its record, guard row and event are written with their columns |
| SoloAdmission.OverLimit | retail_context/production_controls.py:306-337 | At the limit a new request is denied and charged nothing; event and incident say so, with count and limit |
| SoloAdmission.DeniedOutright | retail_context/production_controls.py:225-294 | A switched off service or an unsupported resource denies a new request, each with its own notice, and no table but the audit changes |
| SoloAdmission.BlankSubject | retail_context/service.py:85 | Without a subject the request is refused before anything is read |
| SoloAdmission.KnownRefused | retail_context/service.py:87-104 | A known request is refused for the mode or for another record, with the right reason, and nothing changes |
| SoloAdmission.KnownAttempt | retail_context/runtime_guard.py:108-179 | A known request uses its continuation if it pays for the first time, else takes a retry of its window below the limit, else is refused; another source is refused |
| SoloAdmission.KnownWithoutGuard | retail_context/service.py:105-120 | A known request without a guard row gets one and is charged its first retry there |
| SoloAdmission.FailsClosed | retail_context/service.py:76-163 | One failed call anywhere before the end and the request is neither passed nor denied but refused, whether or not the store took the call |
| RuntimeAdmission.RecordDenial | retail_context/production_controls.py:236-267 | Event first, then incident where there is one, each with its own faults; the denial completes only when both calls do |
| RuntimeAdmission.EvaluatePrePaymentAdmission | retail_context/production_controls.py:203-374 | The procedure takes exactly the program's steps, with event and incident writes of their own, and ends refused, denied or holding its own slot |
| RuntimeAdmission.ConsumeAttempt | retail_context/service.py:105-127 | The retry path takes exactly the program's steps, initializing a missing guard row first |
| RuntimeAdmission.EnsureRuntimeAdmission | retail_context/service.py:76-163 | The whole admission takes exactly the program's steps, refusing a blank subject before it looks the request up, and ends refused, denied or passed |
| PaidService.HalvesRun | retail_context/service.py:201-313 | Every run of the service is a run of the admission protocol beside a run of the delivery protocol, so every theorem about either holds of the service |
| PaidService.ReturnedResource | retail_context/service.py:230-293 | Every returned resource was admitted with exactly one own charge, paid for by its own payment at the terms of its own request, and is what its row stores |
| PaidService.ReturnedSlotsAreOwn | retail_context/service.py:230-293 | The rate slots behind returned resources are different and within the limit |
| DecimalSyntax.ParseIsGrammar | scripts/gate3_reference_semantics.py:24-27 | A text parses to given groups exactly when it spells them: the pattern is unambiguous |
| DigitStrings.LengthThenTextIsNumeric | scripts/gate3_reference_semantics.py:144-147 | Comparing length and then text never lets a larger number pass, and is comparing numbers, for every bound, exactly when the digits are ASCII |
| ExactDecimal.NormalizeExactDecimal | scripts/gate3_reference_semantics.py:114-189 | The loop computes the specified form or error; no digit string it builds is longer than the input, the permitted precision and the text of the exponent bound, and input and precision bound them all exactly when they bound that text |
| ExactDecimal.LimitTextMayBeLongest | scripts/gate3_reference_semantics.py:143 | A profile and input for which the text of the exponent bound is longer than both |
| ExactDecimal.SettleExact | scripts/gate3_reference_semantics.py:152-189 | Coefficient and scale denote exactly the input's number |
| ExactDecimal.ValueIs | scripts/gate3_reference_semantics.py:142-153 | The number of a text from its groups: all digits with the sign, times ten to the signed exponent less the length of the fraction |
| ExactDecimal.CanonicalUnique | scripts/gate3_reference_semantics.py:152-189 | Two canonical forms of one number under a profile are equal |
| ExactDecimal.CanonicalIffAscii | scripts/gate3_reference_semantics.py:152-189 | An accepted input gets a canonical form exactly when its significand is written in ASCII digits |
| ExactDecimal.SettleByCore | scripts/gate3_reference_semantics.py:152-189 | Acceptance and form in closed form: the significand stripped of ASCII zeros must not reach beyond the target scale, and must fit the precision once padded up to it; else the reason is rounding, scale or precision, in this order |
| ExactDecimal.OutcomeIs | scripts/gate3_reference_semantics.py:114-189 | Every outcome in the order of the checks: each refusal with its reason, and the coefficient text and scale of an accepted input |
| ExactDecimal.EqualFormsIffSameCore | scripts/gate3_reference_semantics.py:152-189 | Two accepted inputs, in any digits, get one form exactly when their stripped significands, signs and scales agree |
| ExactDecimal.EqualFormsIffEqualNumbers | scripts/gate3_reference_semantics.py:152-189 | Equal forms denote equal numbers; an ASCII input shares its form with exactly the ASCII spellings of its number |
| ExactDecimal.ExponentTestIsNumeric | scripts/gate3_reference_semantics.py:142-147 | The exponent test never lets an exponent above the bound pass, and rejects exactly those, for every bound, exactly when the exponent is ASCII |
| ExactDecimal.AcceptedIsRepresentable | scripts/gate3_reference_semantics.py:130-189 | Every accepted input, in any digits, passes the lexical bounds numerically and its form represents its number within precision and scale |
| ExactDecimal.AcceptanceIsRepresentability | scripts/gate3_reference_semantics.py:130-183 | Under every profile acceptance is representability of the number, exactly for inputs with an ASCII exponent and a stripped significand whose ends count |
| ExactDecimal.AsciiIsPlain | scripts/gate3_reference_semantics.py:130-189 | Every input written in ASCII digits meets that condition |
| ExactDecimal.SpellingDoesNotMatter | scripts/gate3_reference_semantics.py:130-183 | Two such spellings of one number within the lexical bounds are both accepted or both rejected, with one form exactly when their stripped digits agree |
| ExactDecimal.NonAsciiZeroBreaksCanonicity | scripts/gate3_reference_semantics.py:24-27 | A concrete pair of accepted texts for the number one with different forms |
| ExactDecimal.NonAsciiZeroIsRejected | scripts/gate3_reference_semantics.py:158-177 | With max_scale 0 the spelling "1.\u0660" of one is rejected while "1" is accepted |
| ExactDecimal.NonAsciiExponentIsRejected | scripts/gate3_reference_semantics.py:142-147 | Under the exponent bound 4 the spelling "1e\u0663" is rejected while "1e3" is accepted |
| ExactDecimal.NonAsciiZeroBeforePoint | scripts/gate3_reference_semantics.py:152-183 | The spelling "1\u0660" of ten is judged by its number under every profile |
| UnicodeText.ByteOrderIsUnitOrder | scripts/gate3_reference_semantics.py:51-55 | Comparing big-endian bytes is comparing UTF-16 code units |
| UnicodeText.Utf16Injective | scripts/gate3_reference_semantics.py:51-55 | Different names have different sort keys |
| UnicodeText.Utf8Injective | scripts/gate3_reference_semantics.py:98 | Different texts have different bytes |
| UnicodeText.UnitsAre | scripts/gate3_reference_semantics.py:51-55 | A character beyond the basic plane is its surrogate pair, any other one unit |
| UnicodeText.Utf8CharIs | scripts/gate3_reference_semantics.py:98 | The bytes of a character are the shortest form of RFC 3629: lead byte, continuation bytes and the bits they carry |
| Jcs.ReaderInvertsSerializer | scripts/gate3_reference_semantics.py:66-98 | A reader recovers every serializable value from its text |
| Jcs.SameValueSameBytes | scripts/gate3_reference_semantics.py:91-95 | The bytes, or the rejection, do not depend on member insertion order |
| Jcs.EqualBytesIffEqualValues | scripts/gate3_reference_semantics.py:66-98 | Equal bytes exactly when equal JSON values |
| JcsText.MembersAreOrdered | scripts/gate3_reference_semantics.py:91-95 | Whatever is serialized reads back with the members of every object, at every depth, in the order of the UTF-16 code units of their names, and as the same value |
| JcsText.SerializesIff | scripts/gate3_reference_semantics.py:66-98 | A value is serialized exactly when its integers are within 2^53 - 1, its texts hold no surrogate and nothing else is in it than lists, dicts, booleans and null |
| JcsText.SerializedIsCanonical | scripts/gate3_reference_semantics.py:58-98 | The text is the canonical form of RFC 8785, stated without the serializer: ordered unique members, literal words, plain decimal numbers, the prescribed escapes, no white space |
| ArrayNormalization.NormalizeReferenceArray | scripts/gate3_reference_semantics.py:300-331 | The two passes accept exactly the acceptable sets and return a set form; a refusal names something that is wrong |
| ArrayNormalization.NormalizeSemanticArray | scripts/gate3_reference_semantics.py:334-359 | Each declared class is normalized as declared; anything else is refused with its reason |
| ArrayNormalization.AcceptanceDependsOnEncodings | scripts/gate3_reference_semantics.py:312-331 | Reordering or duplicating values never changes whether a set is accepted, values that cannot be encoded included |
| ArrayNormalization.SetFormUnique | scripts/gate3_reference_semantics.py:312-331 | The set form depends only on which canonical encodings occur |
| ArrayNormalization.SetFormIdempotent | scripts/gate3_reference_semantics.py:300-331 | A set form is accepted and is its own form |
| ArrayNormalization.MultisetFormUnique | scripts/gate3_reference_semantics.py:349-358 | The multiset form is the same for every permutation and keeps every multiplicity |
| ArrayRules.SetFormOrder | scripts/gate3_reference_semantics.py:279-297 | A set form stands in the declared order: the first declared field that differs decides, absent before present, then by canonical bytes |
| ArrayRules.MultisetFormOrder | scripts/gate3_reference_semantics.py:349-358 | A multiset form does too, but for values that agree in every declared field |
| ArrayRules.AcceptsSetIff | scripts/gate3_reference_semantics.py:312-329 | A set is accepted exactly when its values encode, some declared field tells different values apart, and no dict lacks or shares an identity, with True as 1 and False as 0 |
| ArrayRules.AcceptsMultisetIff | scripts/gate3_reference_semantics.py:349-357 | A multiset is accepted exactly when its values encode and some declared field tells different values apart |
| Projection.ProjectSemanticMaterial | scripts/gate3_reference_semantics.py:490-511 | The loop sets every included path in rule order, or fails where the source raises |
| Projection.Get | scripts/gate3_reference_semantics.py:448-454 | The walk finds exactly the value under the path |
| Projection.SetPathDenotes | scripts/gate3_reference_semantics.py:457-461 | Setting a path in nested dicts sets it in the value they denote, and keeps keys unique |
| Projection.OthersStay | scripts/gate3_reference_semantics.py:457-461 | Setting a path disturbs no path that is neither above nor below it |
| Projection.BytesIffFields | scripts/gate3_reference_semantics.py:490-517 | For prefix-free included paths two responses have equal semantic bytes exactly when their normalized values agree at every included path |
| Projection.ElsewhereNeverMatters | scripts/gate3_reference_semantics.py:495-506 | Nothing outside the included paths affects the material |
| Projection.SetOrderNeverMatters | scripts/gate3_reference_semantics.py:464-517 | Reordering or repeating the elements of a declared set at an included path never changes the semantic bytes, nor whether there are any |
| Projection.SetNormalizerExists | scripts/gate3_reference_semantics.py:464-487 | For any declared sets there is a normalizer that normalizes each as declared and keeps Python values, as the theorems about projections ask |
| Projection.ProjectionExistsIff | scripts/gate3_reference_semantics.py:495-506 | Material exists exactly when every included rule has the right root, a path, a value and a normal form |
| Projection.ProjectionIs | scripts/gate3_reference_semantics.py:490-506 | A projection exists exactly when every included rule is rooted in the response and finds and normalizes its value; it holds these values at their paths and nothing apart from them |
| Projection.MaterialSays | scripts/gate3_reference_semantics.py:507-511 | The material is both versions under their names and the projection under the name of the response |
| Keyed.IndexById | retail_context/context_delta.py:51-60 | The loop builds the index, or fails on the first repeated id |
| Keyed.IndexIs | retail_context/context_delta.py:51-60 | An index exists exactly when no id repeats and holds exactly the items |
| ContextDelta.BuildContextDelta | retail_context/context_delta.py:80-594 | The procedure computes the specified report |
| ContextDelta.DeltaExistsIff | retail_context/context_delta.py:93-98 | A report exists exactly for comparable contexts whose lists repeat no id |
| ContextDelta.DeltaIsComplete | retail_context/context_delta.py:139-555 | No material change exactly when the contexts agree item by item; the status follows, unchanged only on a sufficient basis |
| ContextDelta.ItemsForgetOrder | retail_context/context_delta.py:67-77 | Normalized contents agree exactly when the items agree up to the order of their inner lists |
| ContextDelta.DeltaIgnoresOrder | retail_context/context_delta.py:151-528 | The report does not depend on the order of any input list |
| ContextDelta.DeltaPatches | retail_context/context_delta.py:149-366 | Applying the change lists to the previous states gives the current states in all four categories |
| ContextDelta.SwapReverses | retail_context/context_delta.py:149-516 | Swapping the contexts turns every change around: added and removed, previous and current |
| ContextDelta.SourceIsCurrent | retail_context/context_delta.py:157-216 | The source an evidence change names agrees after a swap exactly when the item's source did not change |
| DeltaReport.ReportSays | retail_context/context_delta.py:149-543 | Each of the seven change lists holds exactly the changes between what the two contexts hold, each once and in order, the previous value on the previous side and the current on the current, and the basis is insufficient exactly when a status says so |
| DeltaReport.MaterialSays | retail_context/context_delta.py:107-518 | The material changes are exactly those of the change lists and of the status, kind by kind, with previous and current on their sides |
| DeltaReport.ItemsAre | retail_context/context_delta.py:67-77 | Every compared item keeps the id, state and content of its entry, inner lists in text order |
| StatePing.BuildStatePing | retail_context/state_ping.py:45-451 | The accumulation computes the specified resource, marking evidence in place, with the id material in its canonical order |
| StatePing.PingIgnoresOrder | retail_context/state_ping.py:61-87 | The resource, its id included, does not depend on the order of observations or source entries |
| StatePing.IdBindsInputs | retail_context/state_ping.py:424-432 | Two resources have one id exactly when subject, time, observations and named source entries are the same up to order, and then they are equal |
| StatePing.StatusIs | retail_context/state_ping.py:364-422 | Resolved, unresolved and insufficient in closed form over the observations; anything else is partially resolved |
| StatePing.EvidenceOfPing | retail_context/state_ping.py:210-330 | The evidence is one entry per claim of an eligible observation, contradicted exactly when its claim id has two statements and two sources |
| StatePing.ReconciledIs | retail_context/state_ping.py:332-361 | A source is contradicted, unresolved or not assessed exactly as its own claims fare |
| StatePing.FreshnessAndLevel | retail_context/state_ping.py:382-422 | The age is the greatest of all eligible observations, staleness is that of any, and medium confidence holds exactly in the stated cases |
| PingReport.PingExistsIff | retail_context/state_ping.py:54-86 | There is a result exactly when there are observations, all of the subject, with claims exactly when observed or stale, no repeated id, and no source named twice |
| PingReport.EligibleIs | retail_context/state_ping.py:89-102 | An observation is eligible exactly when it is observed or stale and an entry names its source as usable |
| PingReport.TermsAre | retail_context/state_ping.py:89-160 | Which observations are eligible and which impacts weigh, and the words of statuses and verifications in the texts |
| PingReport.LimitationsAre | retail_context/state_ping.py:114-292 | The limitations are the declared ones under their keys and a material note for every observation excluded, ineligible, stale or unverified, with their texts, and nothing else |
| PingReport.GapsAre | retail_context/state_ping.py:126-370 | The gaps are exactly what weighty limitations, excluded, ineligible, stale or unverified observations, unobserved claims, contested claims and the lack of any eligible observation leave, with status, scope, text and sources |
| PingReport.ContradictionsAre | retail_context/state_ping.py:290-326 | The contradictions are one for each contested claim id, in the order of the ids, with all evidence and statements of the eligible claims under it |
| PingReport.ProvenanceIs | retail_context/state_ping.py:332-362 | The provenance is one entry for each eligible observation, by source and then id, with its fields, reconciliation and claim ids |
| PingReport.EvidenceInOrder | retail_context/state_ping.py:210-330 | There are as many pieces of evidence as the eligible observations have claims, in the order of their ids |
| PingReport.FreshnessIs | retail_context/state_ping.py:364-398 | Freshness is that of the eligible observation with the greatest age, source and id; confidence is indeterminate exactly without evidence |
| PingReport.ResourceIs | retail_context/state_ping.py:424-451 | The resource carries its subject, time and context, and its id material is all the inputs |
| TemporalGovernance.TemporalGovernor.Prune | app.py:1932-1950 | Exactly the entries inside the closed window stay |
| TemporalGovernance.TemporalGovernor.Evaluate | app.py:2480-2618 | The evaluation in place is the specified step |
| TemporalGovernance.LogIsAdmittedWindow | app.py:2498-2618 | The log holds exactly the admitted arrivals still inside the window: refused requests consume nothing |
| TemporalGovernance.LogBounded | app.py:2582-2612 | The log never outgrows a positive request maximum or halt threshold |
| TemporalGovernance.SlidingWindowSafety | app.py:2498-2618 | With a nondecreasing clock every closed interval of window length holds at most the maximum of admitted requests |
| TemporalGovernance.SafeUnderAnyClockIff | app.py:2498-2618 | The window bound holds in every run under any clock exactly when there is no window, or the log has room for one arrival and the retry spacing does not exceed the window |
| TemporalGovernance.BackwardClockBreaksWindow | app.py:1937-1943 | Every other configuration has a run whose window holds any number more than the maximum |
| TemporalGovernance.FamilySpacing | app.py:2592-2615 | Two admitted requests of one family are at least the retry spacing apart |
| TemporalGovernance.CooldownAdmitsNothing | app.py:2510-2610 | After a fresh DENY or HALT nothing is admitted until its cooldown ends |
| TemporalGovernance.PressureHaltReachable | app.py:2496-2590 | The pressure HALT fires in some run exactly when the effective threshold is positive and not above the maximum |
| TemporalGovernance.RateDenyReachable | app.py:2602-2610 | The rate DENY fires in some run exactly when the threshold exceeds the maximum |
| TemporalGovernance.VerdictIs | app.py:2498-2618 | Under a clock that never goes back every verdict in closed form over the earlier verdicts and times: quarantined, delayed for its family, cooling down, halted, denied or admitted |
| TemporalGovernance.AdmittedIff | app.py:2498-2618 | Under such a clock a request is admitted exactly when no cooldown runs, no admitted request of its family is younger than the spacing, and the window has room |
| QueueGovernance.QueueGovernor.Prune | app.py:1813-1830 | Exactly the live entries stay, the last twenty-five of them |
| QueueGovernance.QueueGovernor.Evaluate | app.py:1833-1896 | The queue and the report after a request are the specified ones |
| QueueGovernance.SharesConflictKey | app.py:1887-1894 | Batch review is required exactly when another live entry shares the conflict key |
| QueueGovernance.PositionCountsAhead | app.py:1879-1892 | The position is one plus the number of live entries of higher priority, or equal priority and earlier sequence |
| QueueGovernance.EnqueueKeepsForm | app.py:1850-1877 | One request keeps sequences distinct, increasing and below the next one, and the queue bounded |
| QueueGovernance.RunKeepsForm | app.py:1850-1877 | In every run under any clock sequences are distinct, increasing and below the next one, and the queue holds at most twenty-six entries |
| QueueGovernance.QueueIsLiveHistory | app.py:1813-1877 | With a nondecreasing clock a request is still queued exactly when at most twenty-five followed it, it has not expired and its epoch still counts |
| QueueGovernance.PositionInRun | app.py:1850-1896 | With a nondecreasing clock a queued request ranks behind exactly the still queued requests of the run with higher priority, or its own priority and an earlier arrival |
| QueueGovernance.ReportInRun | app.py:1833-1896 | With a nondecreasing clock the last request is told how many live requests of the run outrank it, and whether one of them has its conflict key |

## Left out

- JSON Schema validation: constructed records are taken as valid; `StatePing.WellFormed` keeps the one schema fact the accumulation relies on.
- SHA-256, other truncated ids and subject hashes: injective constructors; a request digest is any 64 hexadecimal digits, and its request id is cut from it as the code does; nothing cryptographic is claimed.
- SQLite: transactions that commit whole or not at all, unique indexes and INSERT OR IGNORE; locking, journals and connections are not modelled.
- Timestamps: natural numbers; parsing and RFC 3339 normalization rest on the host library.
- Timestamp and null rules of `_normalize_field_value`: the field normalizer of `Projection` is an arbitrary function of path and value, which at declared sets does what `ArrayNormalization` proves.
- In-place nesting in `_set_path`: nested dictionaries are values, so aliasing between a stored field and the response is not expressed (the source copies the field before setting it).
- Concurrent evaluations in `app.py`: the endpoint runs in a thread pool and its governance takes no lock; the whole-run theorems of `TemporalGovernance` and `QueueGovernance` take each evaluation as one step.
- The range of datetimes: instants are unbounded integers, so for very large configurations the overflowing runs of `BackwardClockBreaksWindow` lie beyond it.
- Display fields, header encoding and the challenge of the payment requirement: derived data that decides nothing.
- Malformed facilitator answers that make the failure receipt itself invalid: a raised call stands for them.
- The audit as one table of gate and delivery: the two write events and incidents of different kinds, so each protocol holds its own part; in `DeliveryProtocol` all others arrive at any time.
- The kill switch is read before the claim in a separate call, so nothing is claimed about commits after it is thrown.
- An initial delivery is returned at most once, not exactly once: a worker may crash after its commit.
- The resource id of a context delta: a digest of its other members.
- The reported count fields and timestamps of the temporal result, and the texts of error messages.
- Floating-point scores, billing, `core/` metering, proof payloads, operator scripts and the remaining endpoints of `app.py`: rounding, reports or input and output.
