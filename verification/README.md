# Coreg questionnaire engine — a Dafny model

This project models the browser core of a Dutch lead-generation funnel. The
funnel asks a visitor a series of co-registration ("coreg") questions, one
sponsor campaign per section. It then turns the answers into lead payloads for
each sponsor and sends each lead at most once per page load. Three scripts make
up the core:

- `public/coregRenderer.js` prepares the campaign catalog:
  - normalises the long-form flag, sorts by `order`, and groups multi-step
    campaigns by `cid`;
  - renders the sections, shows one at a time, and computes the progress
    percentage;
  - handles buttons, dropdowns and skip links;
  - raises the final "long form" or "finish" signal.
- `public/formSubmit.js` holds the session-wide helpers:
  - `buildPayload`, `getIpOnce` and `fetchLead` (deduplicated by `cid_sid`);
  - the date-of-birth input mask;
  - the short-form and long-form submits;
  - the two flushes of stored coreg answers.
- `public/initFlow-lite.js` decides which page section is shown on load, and
  which one follows the coreg section. It skips IVR sections for online
  visitors and starts Sovendus at most once.

How the browser is modelled:

- `sessionStorage` and the `window` globals are one immutable
  `Session.SessionState` record, over a single page load.
- Every handler is a pure function from a state to a new state. It also
  returns the leads it attempted, as a log of `Leads.Dispatch` values.
- The network and the clock are inputs, in `Payloads.Env`:
  - the IP lookup's answer;
  - a fresh UUID;
  - the page URL and the opt-in date;
  - whether the lead POST for a dedup key completes.
- Each event of a series, and each lead of a flush or long-form loop, gets an
  `Env` of its own. A key whose POST failed may therefore complete later, and
  every payload draws its own UUID and date.

Modules, in dependency order:

- `Base`: option type and map lookup.
- `Text`: the string built-ins the scripts use — `split`, `trim`, `\s`/`\D`
  removal, `padStart`.
- `Dob`: the dob input mask and dob parsing.
- `Session`: the session record.
- `Catalog`: decoding, sorting, grouping and sections.
- `Walk`: visibility, progress and the final signal.
- `Payloads`: `buildPayload` and `getIpOnce`.
- `Leads`: `fetchLead` and the at-most-once guarantee.
- `Answers`: the accumulator of `buildCoregPayload`.
- `Handlers`: the click, select and skip handlers.
- `Flow`: whole event series.
- `Forms`: the short form, the long form, the flushes and the tracking
  parameters.
- `PageFlow`: `initFlow-lite.js`.

Behaviour of the code worth noting:

- A negative answer advances exactly one section. It does not skip the rest
  of a multi-step group.
- A button or dropdown answer in a section that has a later section with the
  same cid is not accumulated: the session is left as it was (`Handlers.OnClick`;
  `Handlers.OnSelect` stores only the dropdown choice). `buildCoregPayload` runs
  only at the cid's last section, so only the last answer reaches the lead
  (`Flow.SharedCidKeepsLastAnswer`).
- Markup attributes are template text. An option without `answer_value` becomes
  the dropdown value "undefined", which is stored and sent. An own-campaign
  option without `cid` routes to the cid "undefined", not to the campaign's.
- An empty catalog renders no sections and raises no final signal.
- The renderer reads the `sessionStorage` key `shortFormCompleted`, but the
  short-form submit sets only the `window` flag of that name. The two are
  separate fields here (`shortFormCompletedKey` and `shortFormCompleted`),
  and nothing in the core sets the key.
- The flush listener ignores `pendingShortCoreg`. It always sends sid "34"
  and skips every cid that has a long-form entry.

## Model

| member | source | states |
|---|---|---|
| Text.JoinFirst | public/coregRenderer.js:138 | `join(sep)` puts the separator between the first part and the join of the rest |
| Text.JoinThenSplit | public/coregRenderer.js:138 | joining parts free of a one-character separator and splitting on it gives the parts back, so the join keeps every part, in order |
| Text.Split | public/formSubmit.js:106 | `split("/")`: at least one part, no part contains the separator, and a string without it is its only part |
| Text.SplitAtFirst | public/formSubmit.js:106 | splitting `a + "/" + b` yields `a` followed by the parts of `b` |
| Text.RemoveSpaces | public/formSubmit.js:208 | `replace(/\s/g, "")` over ECMAScript's whitespace and line terminators (every Zs space, TAB, VT, FF, U+FEFF, LF, CR, U+2028, U+2029): the result has none, a string without any is unchanged, and an all-whitespace string becomes ""; with `RemoveSpacesAppend` this fixes the result character by character |
| Text.RemoveSpacesAppend | public/formSubmit.js:208 | whitespace removal distributes over concatenation |
| Text.TrimStartDropsSpaces | public/formSubmit.js:237 | `trimStart()` drops a whitespace-only prefix and returns the rest of the value unchanged |
| Text.TrimEndDropsSpaces | public/formSubmit.js:237 | `trimEnd()` drops a whitespace-only suffix and returns the rest of the value unchanged |
| Text.TrimIsSlice | public/formSubmit.js:237 | `trim()` returns a slice of the value that neither starts nor ends with whitespace, and everything before and after that slice is whitespace |
| Text.TrimEmptyIffBlank | public/formSubmit.js:278 | `trim()` is empty exactly when the value is all ECMAScript whitespace, Unicode spaces included (the long form's emptiness test) |
| Text.KeepDigits | public/formSubmit.js:205 | `replace(/\D/g, "")`: only digits remain, a digit string is unchanged, and a string without digits becomes ""; with `KeepDigitsAppend` this fixes the result character by character |
| Text.KeepDigitsAppend | public/formSubmit.js:205 | digit filtering distributes over concatenation |
| Text.PadStart2 | public/formSubmit.js:107 | `padStart(2, "0")`: at least two long, a one-character value gets one leading "0", longer values are unchanged |
| Dob.FormatDob | public/formSubmit.js:189-202 | the mask puts " / " after the 2nd and the 4th digit and keeps at most eight digits, stated per length range as slices of the input |
| Dob.OnDobInput | public/formSubmit.js:204-209 | for any input, the stored dob and the display hold exactly the first eight typed digits (all of them when fewer) and the stored dob has no whitespace; with eight or more digits it is `dd/mm/yyyy` |
| Dob.KeepDigitsOfRemoveSpaces | public/formSubmit.js:205-208 | the stored value, the display without whitespace, holds the same digits as the display |
| Dob.StoredOfEightDigits | public/formSubmit.js:206-208 | the stored value of eight masked digits is `d[..2] + "/" + d[2..4] + "/" + d[4..8]` |
| Dob.MaskKeepsDigits | public/formSubmit.js:189-205 | filtering the digits back out of a masked value gives the digits (up to eight) |
| Dob.MaskIdempotent | public/formSubmit.js:204-209 | feeding the displayed value back into the input handler changes nothing |
| Dob.ParseDob | public/formSubmit.js:103-108 | the result is non-empty exactly when the value has a "/" and its first three "/"-parts are non-empty; no "/" gives "" |
| Dob.ParseDobEmptyField | public/formSubmit.js:105-107 | an empty day, month or year part, as in "/05/1990", "12//1990" or "12/05/", gives "" |
| Dob.ParseDobFields | public/formSubmit.js:103-108 | `dd/mm/yyyy` with non-empty parts parses to `yyyy-mm-dd`, each of mm and dd padded to two |
| Dob.ParseDobMissingYear | public/formSubmit.js:105-107 | a value with only two parts, `dd/mm`, parses to "" |
| Dob.StrippedDisplayOfTyped | public/formSubmit.js:204-209 | the display value of eight typed digits, without whitespace, parses to `yyyy-mm-dd` |
| Dob.TrimmedDisplayOfTyped | public/formSubmit.js:204-209 | the same display value, only trimmed, parses to `" yyyy- mm -dd "` |
| Dob.MaskThenParse | public/formSubmit.js:103-108 | the round trip: eight typed digits `ddmmyyyy`, stored by the mask and parsed by `buildPayload`, give `yyyy-mm-dd` |
| Session.Put | public/formSubmit.js:86 | `setItem` changes only the given key |
| Session.AddPending | public/coregRenderer.js:368-372 | the long-form list gets the cid if it was missing; an existing cid is not added again; uniqueness by cid is kept; the old list is a prefix |
| Session.StartFlow | public/coregRenderer.js:159-160 | the flow starts with the long-form flag false and an empty long-form list, nothing else changed |
| Session.GrowsTransitive | public/coregRenderer.js:129-139 | the "only grows" relation composes |
| Catalog.NormaliseLongForm | public/coregRenderer.js:168-174 | the flag becomes true exactly when either spelling is `true` or `"true"`; all other fields are unchanged |
| Catalog.NormaliseIdempotent | public/coregRenderer.js:168-174 | normalising twice equals normalising once |
| Catalog.Decode | public/coregRenderer.js:168-174 | the decoded long-form flag follows both spellings, and `has_coreg_flow`/`is_shortform_coreg` follow JavaScript truthiness |
| Catalog.InsertSorted | public/coregRenderer.js:177 | inserting into a sorted list keeps it sorted and is a permutation plus the new element |
| Catalog.InsertKeepsTies | public/coregRenderer.js:177 | insertion puts the new element after every element with the same order key |
| Catalog.SortByOrderCorrect | public/coregRenderer.js:177 | the sort by `order \|\| 0` is sorted, a permutation, and stable: for every key, the campaigns with that key keep their relative order |
| Catalog.Groups | public/coregRenderer.js:178-184 | each group is a non-empty, strictly increasing list of positions in the ordered list |
| Catalog.GroupsMembers | public/coregRenderer.js:178-184 | a position is in the group of `cid` exactly when that campaign has `has_coreg_flow` and that cid; every flow campaign's cid has a group |
| Catalog.NoFinalBeforeLastIteration | public/coregRenderer.js:206-215 | no section rendered before the last loop iteration is marked final |
| Catalog.FinalOnlyAtEnd | public/coregRenderer.js:206-215 | a final section can only be the last section, and it renders the last ordered campaign |
| Catalog.GroupsAreFlowSteps | public/coregRenderer.js:178-184 | a cid's group, read as campaigns, is the list of its multi-step campaigns in order, and exists exactly when that list is non-empty |
| Catalog.BlockShows | public/coregRenderer.js:206-215 | iteration i renders every multi-step campaign sharing the cid of campaign i, in order, or campaign i alone when there is none |
| Catalog.SectionsUpToShow | public/coregRenderer.js:206-215 | when every iteration renders its reference block, the first n iterations render the reference expansion of the first n ordered campaigns |
| Catalog.SectionsInOrdered | public/coregRenderer.js:206-215 | every section rendered by the first n iterations shows one of the ordered campaigns |
| Catalog.BuildSectionsShow | public/coregRenderer.js:206-215 | the sections show the reference expansion of the ordered list, so a step is shown once per ordered campaign with its cid; every section shows an ordered campaign |
| Catalog.Prepare | public/coregRenderer.js:168-215 | decode, sort, group and render: the sections show the reference expansion of the sorted records, each a fetched campaign |
| Catalog.LastSectionFinal | public/coregRenderer.js:206-215 | when the last ordered campaign renders itself last, the last section is final |
| Walk.CountOfSingle | public/coregRenderer.js:243-247 | a display where only index k may be shown has one visible section if k is in range, else none |
| Walk.Init | public/coregRenderer.js:217-218 | only section 0 is shown; the visible count is 1, or 0 when there are no sections |
| Walk.Progress | public/coregRenderer.js:223-226 | `Math.round((k + 1) / n * 100)` is between 0 and 100 and is 100 at the last section; with fewer than 200 sections it is at least 1, and 100 only at the last section |
| Walk.ProgressBounds | public/coregRenderer.js:224 | the rounded integer formula has the bounds above |
| Walk.ProgressFullTooEarly | public/coregRenderer.js:224 | with 200 sections the second-to-last section already shows 100% |
| Walk.FinalSignal | public/coregRenderer.js:258-267 | the long-form signal fires exactly when the long-form flag is set or the long-form list is non-empty; otherwise the finish signal fires |
| Walk.Advance | public/coregRenderer.js:239-253 | before the end, exactly the next section is shown and progress is updated; at the end, every section is hidden and the final signal is raised |
| Payloads.OrNull | public/formSubmit.js:110-111 | `x \|\| null` is absent exactly for "" |
| Payloads.GetIpOnce | public/formSubmit.js:76-88 | a stored ip is returned unchanged with no lookup; otherwise the lookup's ip (or "0.0.0.0") is returned and stored |
| Payloads.IpLookedUpOnce | public/formSubmit.js:76-88 | a second lookup returns the first ip, whatever the network answers |
| Payloads.BuildPayload | public/formSubmit.js:93-144 | the nine profile fields come from the session ("" when missing); the four tracking ids are "unknown" when missing; t_id falls back to the fresh UUID; the dob is parsed; cid, sid and the answers are absent when empty |
| Payloads.BuildPayloadDefaults | public/formSubmit.js:95-136 | from an empty session every field takes its default |
| Payloads.BuildPayloadKeepsIp | public/formSubmit.js:94 | building stores only "user_ip"; the next payload carries the same ip |
| Leads.FetchLead | public/formSubmit.js:150-175 | missing cid or sid gives an error with no request; a submitted key is skipped; the key is recorded exactly when the request completes |
| Leads.NoResendAfterCompletion | public/formSubmit.js:156-157 | after a completed lead, the same payload is skipped |
| Leads.AtMostOnceCompose | public/formSubmit.js:156-169 | "each key completes at most once, and only if it was not submitted before" holds across consecutive stretches |
| Answers.Accumulate | public/coregRenderer.js:130-136 | the answer list only grows, gains a non-empty answer it lacked, and never holds a duplicate |
| Answers.FirstOccurrencesMembers | public/coregRenderer.js:133-134 | the reference list holds exactly the non-empty answers given, with no duplicates |
| Answers.AccumulateAllIsFirstOccurrences | public/coregRenderer.js:129-138 | accumulating a series of answers equals its non-empty first occurrences, in order |
| Answers.RecordAnswer | public/coregRenderer.js:129-139 | the cid's list is accumulated, other cids are untouched, and the cid's answer string is the " - "-join |
| Answers.BuildCoregPayload | public/coregRenderer.js:122-152 | cid and sid fall back to the campaign's; the payload carries the joined answers and the stored dropdown answer; it is not short-form |
| Answers.FirstAnswerPayload | public/coregRenderer.js:129-148 | the first answer given under a cid is the lead's whole coreg answer, sent under the routed cid and sid |
| Handlers.Rendered | public/coregRenderer.js:55-57 | a field interpolated into the markup reads "undefined" when the record lacks it |
| Handlers.AnswerButton | public/coregRenderer.js:81-89 | the button's answer is `answer_value \|\| "yes"`; it routes to the option's own cid/sid, as rendered, only when `has_own_campaign` is truthy |
| Handlers.OptionChoice | public/coregRenderer.js:54-59 | the dropdown value is `answer_value` as rendered ("undefined" when absent), routed like a button |
| Handlers.OwnOptionWithoutCid | public/coregRenderer.js:85 | an own-campaign option without cid routes its lead to the cid "undefined", for buttons and dropdowns |
| Handlers.OptionWithoutValueIsStored | public/coregRenderer.js:282-288 | selecting an option without `answer_value` stores "undefined" as the dropdown answer |
| Handlers.SelectStored | public/coregRenderer.js:286-288 | a selection stores the choice as the cid's dropdown answer and answer string and changes nothing else |
| Handlers.NegativeButtons | public/coregRenderer.js:91-97 | the skip button is negative; an answer button is negative exactly when its value is "no" |
| Handlers.Send | public/coregRenderer.js:410-412 | builds the coreg payload, calls `fetchLead` once, accumulates the answer under the routed cid, and advances |
| Handlers.OnClick | public/coregRenderer.js:339-414 | negative: advance only; long-form: flag set, answer stored, cid queued once, no lead; short-form before the short form is done: buffered, no lead; otherwise exactly one lead, with the answer accumulated, when no later section shares the cid, else the session is unchanged; always advance |
| Handlers.OnSelect | public/coregRenderer.js:280-322 | an empty choice changes nothing; otherwise the dropdown answer is stored, then the long-form path, or only that store when a later section shares the cid, or one lead with the answer accumulated |
| Handlers.OnSkipLink | public/coregRenderer.js:328-334 | the skip link only advances |
| Flow.Handle | public/coregRenderer.js:273-416 | any event keeps at most one section visible and keeps the at-most-once guarantee; a long-form campaign never sends a lead |
| Flow.Run | public/coregRenderer.js:273-416 | a series of events, each meeting its own network and clock, yields one signal per event and keeps the display length |
| Flow.RunKeepsInvariants | public/coregRenderer.js:239-416 | over any event series and any network outcome per event: one visible section at most, state only grows, at most one completed lead per key, long-form list unique by cid |
| Flow.OneCampaignSections | public/coregRenderer.js:178-215 | a catalog of one campaign, multi-step or not, renders as one section, marked final |
| Flow.SingleCampaignYes | public/coregRenderer.js:177-267 | one button campaign answered "yes" gives exactly one lead with that answer, then the finish signal |
| Flow.SharedCidKeepsLastAnswer | public/coregRenderer.js:403-413 | two sections sharing a cid answered "a" then "b" give a single lead with answer "b" |
| Forms.FlushTargets | public/formSubmit.js:333-336 | the flushed cids are exactly the answer keys without a long-form entry, without repeats; their order is the key order by `Forms.FlushTargetsAppend` |
| Forms.FlushTargetsAppend | public/formSubmit.js:333-336 | the targets of a key list are the targets of each part, concatenated, so they come in key order |
| Forms.FlushKeys | public/formSubmit.js:333-349 | one attempted lead per target, each meeting its own network and clock, and the at-most-once guarantee holds over the whole flush |
| Forms.FlushKeysAnswers | public/formSubmit.js:333-349 | a flush never adds or changes an answer key and removes none without removal; the long-form queue, answer lists, dropdown answers and short-form flags are untouched |
| Forms.FlushKeysPayloads | public/formSubmit.js:334-344 | entry k of a flush is the lead for target k: its cid, sid "34", the stored answer, not short-form |
| Forms.FlushKeysRemoval | public/formSubmit.js:56-57 | with removal, a target's key survives exactly when it was stored and its lead was skipped; other keys are untouched |
| Forms.SentAsTargetsCovers | public/formSubmit.js:333-347 | every target with a non-empty cid has its own lead |
| Forms.OnShortFormSubmitted | public/formSubmit.js:323-355 | lead k is the lead of target k (the stored answer keys without a long-form entry, in key order, each once), with sid "34" and that key's stored answer; every such key with a non-empty cid has a lead; the answers stay stored |
| Forms.FlushQueuedCoregLeads | public/formSubmit.js:33-60 | like the listener, but a sent key is removed unless its lead was skipped; long-form keys are kept |
| Forms.StoreNonEmpty | public/formSubmit.js:67-70 | only keys with a non-empty value are stored; every other key keeps its value |
| Forms.TrackingParamsReachPayload | public/formSubmit.js:65-71 | URL tracking ids reach every later payload, and a URL t_id replaces the fresh UUID |
| Forms.SendPending | public/formSubmit.js:294-308 | one lead per long-form entry, each meeting its own network and clock, in queue order, with its cid, sid, stored answer and dropdown answer; the store changes only in "user_ip" and the answers are untouched |
| Forms.SubmitLongForm | public/formSubmit.js:270-317 | rejected exactly when a required field is missing or blank; otherwise the trimmed fields are stored, one lead goes out per queued campaign with its stored answer and dropdown choice (none when the queue is empty), and the queue is cleared |
| Forms.UnicodeBlankFormRejected | public/formSubmit.js:277-281 | a long form whose postcode holds only Unicode spaces (U+3000, U+2003) is rejected, whatever the other fields hold |
| Forms.StoreEachTrimmed | public/formSubmit.js:235-238 | each present field is stored trimmed, even when empty |
| Forms.SubmitShortFormStoring | public/formSubmit.js:222-262 | an invalid form or a submit in flight changes nothing; otherwise one short-form lead 925/34 is attempted with the dob parsed from the stored field, the short form is marked done and its signal raised, and the renderer's key is left alone |
| Forms.ShortFormStores | public/formSubmit.js:233-238 | after a submit the checked gender and each present text field, trimmed, are in the store |
| Forms.ShortFormDobAsWritten | public/formSubmit.js:235-238 | after eight typed digits the short-form lead's dob is `" yyyy- mm -dd "`, not `yyyy-mm-dd` |
| Forms.ShortFormDobCorrected | public/formSubmit.js:204-209 | storing the dob without whitespace, as the mask does, makes the short-form lead's dob `yyyy-mm-dd` |
| PageFlow.Status | public/initFlow-lite.js:15 | the status is the URL parameter when non-empty, and "online" when it is absent or empty |
| PageFlow.InitialVisibility | public/initFlow-lite.js:20-22 | a section is shown exactly when it is the first non-IVR section; other elements keep their display |
| PageFlow.InitialShowsOneSection | public/initFlow-lite.js:20-22 | after loading, exactly one section is shown when a non-IVR section exists, none otherwise |
| PageFlow.SkipIvr | public/initFlow-lite.js:34-36 | skips exactly the run of IVR siblings, and only when the status is "online" |
| PageFlow.NextSection | public/initFlow-lite.js:31-38 | the next section is the first following sibling that is not a skipped IVR section; none exactly when all later siblings are skipped; offline it is the next sibling |
| PageFlow.StartSovendusIfNeeded | public/initFlow-lite.js:63-71 | setup is called exactly for "sovendus-section" with the setup function present and Sovendus not yet started; the started flag is then set |
| PageFlow.OnCoregFlowCompleted | public/initFlow-lite.js:25-48 | with a host section and a next section, exactly the host is hidden and the next shown; otherwise nothing changes |
| PageFlow.CompletionKeepsOneShown | public/initFlow-lite.js:38-40 | a completion keeps at most one section shown |
| PageFlow.RunCompletions | public/initFlow-lite.js:63-71 | over any number of completion events Sovendus is set up at most once, and never once started |

## Left out

- Presentation is not modelled: HTML markup, images, titles, `ui_style`, scrolling, `reloadImages` and the motivation texts. Only the visibility of sections is modelled.
- `fetchCampaigns` (the network fetch of the catalog) is left out. The model starts from the fetched records, and a fetch error is the empty catalog.
- The network is not modelled. The IP lookup, the lead POST, `crypto.randomUUID` and `new Date()` are inputs in `Payloads.Env`, one per event or lead. The lead API's response body is not modelled, because only "completed" versus "failed in transport" matters to the code.
- Asynchrony and interleaving are not modelled: `await`, `Promise.allSettled`, and handlers firing while an earlier one is still waiting. Each handler runs to completion before the next event. The long-form list is cleared after all of its leads are attempted.
- The 1-second fallback timer that re-raises `shortFormSubmitted` (public/formSubmit.js:361-367) is left out, because it is a clock.
- Debug logging, `window.DEBUG_COREG_FLOW` and the session debug id are left out.
- Page reloads are not modelled. The `window` globals (`submittedCampaigns`, `shortFormCompleted`, `pendingShortCoreg`) last one page load, while `sessionStorage` lasts the tab session; here both live in one record with one lifetime. After a reload the real page forgets the sent keys but keeps the stored answers, so a new short-form submit sends them again; the at-most-once guarantee is per page load.
- `Object.keys(sessionStorage)` order is an input (`keyOrder`) listing each answer key once.
- Catalog.SortByOrderCorrect: `order` is a missing field or an integer. JavaScript also accepts fractional orders and numeric strings, and a non-numeric string makes the comparator NaN, which `sort` treats as a tie; those inputs are not modelled.
- `campaigns.find(c => c.id == …)` is taken to return the section's own campaign, so ids are assumed unique.
- Walk.Progress: the claims "at least 1" and "100 only at the last section" are proved only for fewer than 200 sections. At 200 or more, rounding can reach 100 early (`Walk.ProgressFullTooEarly`).
- Walk.Progress: JavaScript's floating-point `Math.round` is modelled by exact rational rounding, half up.
- PageFlow.OnCoregFlowCompleted: the page is one list of sibling elements. Sections elsewhere in the document are not modelled, and the host section is an input.
- `Forms.SubmitShortForm` and `Forms.SubmitShortFormFixed` are thin wrappers. Their contracts are those of `Forms.SubmitShortFormStoring`.
- The browser's form validity (`checkValidity`) is an input flag.
- Text.PadStart2: lengths count Unicode characters, while JavaScript counts UTF-16 code units. The two differ only for a dob part holding a character outside the Basic Multilingual Plane.
- Handlers.Rendered: a field that is JSON `null` is rendered "null" by the template. The model has only present and missing fields, and treats `null` as missing.

## Findings

| source | as written | input that shows it | evidently intended | confidence | as-written member | corrected member |
|---|---|---|---|---|---|---|
| public/formSubmit.js:235-238 | the short-form submit stores `el.value.trim()` for "dob"; that is the mask's display value "dd / mm / yyyy". It overwrites the whitespace-free "dd/mm/yyyy" the input handler stored, so `buildPayload` splits it into " yyyy", " mm ", "dd " | typing 12051990 yields payload dob " 1990- 05 -12 " | "1990-05-12", the value the mask's own stored form parses to | high; not executed | Forms.ShortFormDobAsWritten | Forms.ShortFormDobCorrected |
