# Lead-capture core of a UAE real-estate marketing site

This project models the part of the site that turns a completed lead form into a conversion:

- **Form modal provider.** It keeps track of:
  - whether the booking modal is visible;
  - whether the success panel covers the embedded form;
  - the key that remounts the form's iframe.

  It loads the form vendor's embed script once. It listens for `postMessage` events and classifies each as a form submission or not. On the first submission it loads the Google conversion tag (once the missing import is supplied; see Findings), shows the success panel, and schedules the revert that hides the panel and remounts the iframe.
- **Mobile form section.** It shares the same classifier behind a stricter gate: whatever the modal shows, it drops every message that neither comes from a vendor origin nor carries the form id.
- **`loadGoogleTag`.** Its guard is a substring match on the page's script sources. It initialises `dataLayer`, pushes the `js` and `config` entries, and appends the tag script, at most once per page.
- **Property-card gallery and carousel.** This covers:
  - the full-screen gallery (open, close, next/previous with wrap-around, thumbnails, keyboard);
  - each card's auto-advancing image and its cross-fade rule, which shows the previous image while the current one is still loading.
- **The two hero lead forms.** This covers:
  - trim-based required fields, required selects and the `\S+@\S+\.\S+` e-mail test;
  - the error messages each form shows;
  - the submit handlers and their success timers;
  - the elite hero's four-slide rotation.

  The elite hero's `validateForm` and `handleSubmit` are not wired to anything it renders: no `<form>` has `onSubmit={handleSubmit}`, and no input is bound to `formData`. Its lead form is the vendor's iframe (components/EliteHero.tsx:503). The model still covers both handlers as they are written.

Layout of the Dafny modules:

| module | file | models |
|---|---|---|
| `Wrappers` | wrappers.dfy | `Option` |
| `Text` | text.dfy | JavaScript `includes`, `toLowerCase`, `trim` and the set of characters that `trim` and `\S` treat as white space |
| `Dom` | dom.dfy | the page: script sources, `window.dataLayer`, `window.gtag`, `document.body.style.overflow` |
| `GoogleTag` | google_tag.dfy | lib/googleTag.ts |
| `FormEmbed` | form_embed.dfy | the embed-script effect shared by the provider and the mobile section |
| `Messages` | messages.dfy | the origin test and the three-way payload classifier shared by the two listeners |
| `FormModal` | form_modal.dfy | contexts/FormModalContext.tsx |
| `MobileForm` | mobile_form.dfy | components/MobileFormSection.tsx |
| `LeadForm` | lead_form.dfy | the validation rules both hero forms share, as a specification |
| `EliteHero` | elite_hero.dfy | components/EliteHero.tsx |
| `ConversionHero` | conversion_hero.dfy | components/ConversionOptimizedHero.tsx |
| `PropertyCards` | property_cards.dfy | components/Elite3DPropertyCards.tsx |

Entities whose fields the code updates through React state are classes: `Dom.Page`, `FormModal.Provider`, `EliteHero.Hero`, `ConversionHero.Hero`, `PropertyCards.Gallery` and `PropertyCards.PropertyCard`. Each handler is a method, and its `ensures` gives the whole new state: every field it may modify, including the page's scripts, data layer, `gtag` flag and scroll lock. Most do so in terms of specification functions; for example, `ScriptsAfterLoad` and `DataLayerAfterLoad` describe `loadGoogleTag`. Lemmas prove the properties of those functions.

How the environment is represented:

- `JSON.parse` is a parameter `parse: string -> ParseResult`. Its results are:
  - `ParseFail`: it throws;
  - `ParsedNull`: the literal `null`, whose property access throws, so the `catch` branch runs;
  - `ParsedPrimitive`: any other non-object, whose properties are all `undefined`;
  - `ParsedObj(fields)`.
- `new Date()` is a `now: int` parameter.
- `document.querySelector('script[src*=…]')` is a substring test over the sequence of script sources.
- Each `setTimeout`/`setInterval` callback is an explicit method: `RevertTimerFires`, `SuccessTimerFires`, `RotateSlide` and `AutoAdvance`. The `pending…` counters count scheduled timers that have not fired.
- A message payload is `Falsy | Str(s) | Obj(fields) | OtherTruthy`. `Str("")` counts as falsy, as in JavaScript.

The code itself decides two behaviours:

- While the modal is hidden, the provider accepts a message from any origin, because the gate is `!isFromForm && showBookingModal`.
- Closing the modal does not cancel a pending revert timer, so a timer that fires after a close still increments `formKey`. `FormModal.Provider.RevertTimerFires` has no precondition on the modal's visibility.

## Model

| member | source | states |
|---|---|---|
| `Dom.Page.constructor` | lib/googleTag.ts:5-10 | a page starts with the given scripts and data layer, no `gtag`, and the initial overflow |
| `Dom.Page.AppendScript` | lib/googleTag.ts:28-31 | `appendChild` adds exactly one script source at the end |
| `Dom.Page.Gtag` | lib/googleTag.ts:20-22 | `gtag(...args)` pushes its argument list as one new last entry of `dataLayer` and changes nothing else |
| `Dom.Page.SetBodyOverflow` | contexts/FormModalContext.tsx:21 | the body's overflow becomes the given value |
| `Dom.HasScript` | lib/googleTag.ts:14 | definition: `querySelector('script[src*="…"]')` finds a script whose source contains the fragment |
| `Dom.CountAppend` | lib/googleTag.ts:14 | appending a source raises the count of guard matches by one exactly when the source contains the fragment |
| `Dom.HasScriptIffCount` | lib/googleTag.ts:14 | the `querySelector` guard finds a script exactly when at least one source contains the fragment |
| `Text.IsWhitespace` | components/EliteHero.tsx:72-75 | definition: the characters that `trim` removes and `\S` excludes, the ECMAScript white-space and line-terminator set |
| `Text.Contains` | contexts/FormModalContext.tsx:46-47 | definition of `includes`: the pattern occurs at some offset |
| `Text.ContainedCharsOccur` | contexts/FormModalContext.tsx:46-47 | every character of a found substring occurs in the searched string |
| `Text.LowerChar` | contexts/FormModalContext.tsx:64 | definition: `toLowerCase` on one character, ASCII letters only; `Text.LowerIdempotent` and `Messages.FallbackIgnoresCase` state what it promises |
| `Text.Lower` | contexts/FormModalContext.tsx:64 | definition: `toLowerCase` character by character; `Text.LowerIdempotent` and `Messages.FallbackIgnoresCase` state what it promises |
| `Text.LowerIdempotent` | contexts/FormModalContext.tsx:64 | lowering twice is the same as lowering once |
| `Text.TrimStart` | components/EliteHero.tsx:72 | the result is a suffix of the input and starts with a non-white-space character, or is empty |
| `Text.TrimEnd` | components/EliteHero.tsx:72 | the result is a prefix of the input and ends with a non-white-space character, or is empty |
| `Text.Trim` | components/EliteHero.tsx:72 | definition: `trim` is `trimEnd` after `trimStart` |
| `Text.TrimStartDropsWhitespace` | components/EliteHero.tsx:72 | the part `trimStart` removes is all white space, so it removes the leading white space and nothing more |
| `Text.TrimEndDropsWhitespace` | components/EliteHero.tsx:72 | the part `trimEnd` removes is all white space, so it removes the trailing white space and nothing more |
| `Text.TrimStartEmptyIff` | components/EliteHero.tsx:72 | dropping leading white space leaves nothing exactly when the input is all white space |
| `Text.WhitespaceHeadTail` | components/EliteHero.tsx:72 | a string that starts with white space is all white space exactly when its tail is |
| `Text.TrimEmptyIff` | components/EliteHero.tsx:72-74 | `!s.trim()` holds exactly when `s` is empty or all white space |
| `Text.TrimEndKeepsNonWhitespaceHead` | components/EliteHero.tsx:72 | trimming the end of a string that starts with a non-white-space character leaves it non-empty |
| `GoogleTag.TagEntries` | lib/googleTag.ts:24-25 | definition: the two entries a first load pushes, `['js', now]` then `['config', 'AW-17787737097']`; `GoogleTag.FirstLoadEffect` and `GoogleTag.LoadGoogleTag` state their effect |
| `GoogleTag.ScriptsAfterLoad` | lib/googleTag.ts:14-31 | definition: the script list is kept when the guard finds a tag script, otherwise the tag URL is appended |
| `GoogleTag.DataLayerAfterLoad` | lib/googleTag.ts:14-25 | definition: the data layer is kept when the guard returns early, otherwise the existing (or a new empty) one gets the two entries |
| `GoogleTag.GtagInstalledAfterLoad` | lib/googleTag.ts:14-23 | definition: `window.gtag` is assigned after a load when it already was or the guard let the load through |
| `GoogleTag.LoadGoogleTag` | lib/googleTag.ts:12-32 | the script list and data layer become `ScriptsAfterLoad`/`DataLayerAfterLoad` of the old ones; `gtag` is installed unless the guard returned early; page scroll is untouched |
| `GoogleTag.GtagSrcMatchesGuard` | lib/googleTag.ts:14-30 | the script URL that is appended contains the fragment the guard looks for |
| `GoogleTag.LoadInstallsGuardedScript` | lib/googleTag.ts:14-31 | after a load the guard always finds a tag script |
| `GoogleTag.SecondLoadIsNoOp` | lib/googleTag.ts:14-16 | a second load changes neither the scripts nor the data layer, whatever its timestamp |
| `GoogleTag.FirstLoadEffect` | lib/googleTag.ts:19-31 | with no tag script present, a load keeps an existing data layer (or starts an empty one), appends exactly the two entries in order, and appends exactly the tag URL |
| `GoogleTag.LoadCountsOneTagScript` | lib/googleTag.ts:14-31 | a load leaves exactly one tag script on a page that had none, and adds none otherwise |
| `FormEmbed.ScriptsAfterEmbed` | contexts/FormModalContext.tsx:32-40 | definition: the script list is kept when an embed script is present, otherwise the embed URL is appended |
| `FormEmbed.LoadEmbedScript` | contexts/FormModalContext.tsx:31-41 | the script list becomes `ScriptsAfterEmbed` of the old one: unchanged if an embed script is present, otherwise the embed URL appended |
| `FormEmbed.EmbedSrcMatchesGuard` | contexts/FormModalContext.tsx:32-37 | the embed URL contains the fragment its guard looks for |
| `FormEmbed.SecondEmbedIsNoOp` | contexts/FormModalContext.tsx:32-34 | running the embed effect a second time changes nothing |
| `FormEmbed.EmbedCountsOneScript` | contexts/FormModalContext.tsx:31-41 | the effect leaves exactly one embed script on a page that had none, and adds none otherwise |
| `FormEmbed.TagLoadKeepsEmbedCount` | lib/googleTag.ts:30 | loading the conversion tag does not change the number of embed scripts |
| `FormEmbed.EmbedKeepsTagCount` | contexts/FormModalContext.tsx:37 | the embed effect does not change the number of conversion-tag scripts |
| `Messages.CarriesFormId` | contexts/FormModalContext.tsx:48 | definition: an object payload whose `formId` is `7RM5Dr1meRUfG03B13ci` |
| `Messages.IsFromForm` | contexts/FormModalContext.tsx:46-48 | definition of `isFromForm`: the origin contains `leadconnectorhq.com` or `msgsndr.com`, or an object payload's `formId` is `7RM5Dr1meRUfG03B13ci` |
| `Messages.RouteOf` | contexts/FormModalContext.tsx:52-77 | definition: which branch a payload takes (skipped, parsed string, `catch` fallback, object), with a parsed `null` reaching the `catch` |
| `Messages.IsSubmission` | contexts/FormModalContext.tsx:52-77 | definition: the branch's markers decide whether the message reports a submission |
| `Messages.ParsedMarksSubmission` | contexts/FormModalContext.tsx:56-60 | definition: the five markers of a parsed JSON object |
| `Messages.TextMarksSubmission` | contexts/FormModalContext.tsx:64-67 | definition: the markers of the lower-cased text in the `catch` fallback |
| `Messages.ObjectMarksSubmission` | contexts/FormModalContext.tsx:72-74 | definition: the three markers of an object payload |
| `Messages.FalsyNeverSubmits` | contexts/FormModalContext.tsx:52 | a falsy payload, the empty string, or a truthy non-string non-object never counts as a submission |
| `Messages.ParsedObjectSubmitsIff` | contexts/FormModalContext.tsx:54-62 | a string that parses to an object submits exactly when `type` is `hsFormCallback` or `formSubmitted`, `event` is `form-submitted`, `action` is `submit`, or `status` is `success` |
| `Messages.ParsedPrimitiveNeverSubmits` | contexts/FormModalContext.tsx:55-62 | a string that parses to a non-null primitive never submits and does not fall back to text matching |
| `Messages.FallbackSubmitsIff` | contexts/FormModalContext.tsx:63-70 | a string that fails to parse, or parses to `null`, submits exactly when its lower-cased text contains `form-submitted` or `formsubmitted`, or contains both `success` and `form` |
| `Messages.FallbackIgnoresCase` | contexts/FormModalContext.tsx:64 | the text fallback gives the same verdict for a string and its lower-cased form |
| `Messages.ObjectSubmitsIff` | contexts/FormModalContext.tsx:71-77 | an object payload submits exactly when `type` is `formSubmitted`, `event` is `form-submitted` or `status` is `success` |
| `Messages.ObjectIgnoresCallbackAndSubmitAction` | contexts/FormModalContext.tsx:56-74 | `type: hsFormCallback` and `action: submit` count only when sent as JSON text, not as an object |
| `Messages.StatusSuccessSubmits` | contexts/FormModalContext.tsx:74 | any object whose `status` is `success` submits |
| `Messages.ParsedExample` | contexts/FormModalContext.tsx:55-57 | the JSON text `{"event":"form-submitted"}` takes the parsed path and submits |
| `Messages.FallbackExample` | contexts/FormModalContext.tsx:63-65 | unparsable text `FORM-SUBMITTED ok` takes the fallback path and submits |
| `FormModal.PassesGate` | contexts/FormModalContext.tsx:50 | definition: the provider's early return `!isFromForm && showBookingModal`, negated |
| `FormModal.Triggers` | contexts/FormModalContext.tsx:50-77 | definition: the gate passes and the payload is a submission, so `handleFormSuccess` is called |
| `FormModal.GateDropsIff` | contexts/FormModalContext.tsx:46-50 | the provider drops a message exactly when the origin names neither vendor host, no matching `formId` is carried, and the modal is visible |
| `FormModal.HiddenModalClassifiesAnyOrigin` | contexts/FormModalContext.tsx:50 | while the modal is hidden, the verdict depends on the payload alone, whatever the origin |
| `FormModal.VisibleModalDropsForeign` | contexts/FormModalContext.tsx:50 | while the modal is visible, a foreign message never triggers |
| `FormModal.HandleFormSuccessAsWritten` | contexts/FormModalContext.tsx:81-91 | definition of the as-written outcome: ignored with the panel up, otherwise the unbound `loadGoogleTag` call throws |
| `FormModal.StepAsWritten` | contexts/FormModalContext.tsx:18-91 | definition: one open, close, success or revert event applied to `showFormSuccess`, `formKey` and the pending reverts, as written |
| `FormModal.RunAsWritten` | contexts/FormModalContext.tsx:18-91 | definition: the same state after a run of events |
| `FormModal.AsWrittenPanelNeverShows` | contexts/FormModalContext.tsx:81-91 | as written (no import of `loadGoogleTag`), after any run of open, close, success and revert events from the mounted state, the success flag is still down, no revert is pending and `formKey` is still 0 |
| `FormModal.AsWrittenFirstSuccessThrows` | contexts/FormModalContext.tsx:82-84 | as written, a success with the panel down throws instead of showing it |
| `FormModal.Provider.constructor` | contexts/FormModalContext.tsx:14-16 | the modal is hidden, there is no success panel, and the form key is 0 |
| `FormModal.Provider.Mount` | contexts/FormModalContext.tsx:31-41 | mounting runs the embed-script effect |
| `FormModal.Provider.OpenFormModal` | contexts/FormModalContext.tsx:18-22 | from any state: modal shown on its form view, scroll locked, key unchanged |
| `FormModal.Provider.CloseFormModal` | contexts/FormModalContext.tsx:24-28 | from any state: modal hidden, success cleared, scroll released; a pending revert is not cancelled |
| `FormModal.Provider.HandleFormSuccess` | contexts/FormModalContext.tsx:81-91 | with the panel up nothing changes; otherwise the conversion tag is loaded (scripts, data layer and `gtag` as `loadGoogleTag` leaves them), the panel is shown and one revert is scheduled; the modal, the key and page scroll are kept |
| `FormModal.Provider.RevertTimerFires` | contexts/FormModalContext.tsx:86-89 | the panel is cleared and the form key goes up by one, whether or not the modal is still open |
| `FormModal.Provider.HandleMessage` | contexts/FormModalContext.tsx:45-79 | the tag loads exactly when the gate passes, the payload is a submission and the panel is down. A load has the whole effect of `loadGoogleTag` (scripts, data layer, `gtag`) and shows the panel with one revert scheduled; otherwise no state changes; the modal, the key and page scroll are always kept |
| `FormModal.TwoSuccesses` | contexts/FormModalContext.tsx:82 | two successes in a row load the tag once from the form view and never from the success view |
| `MobileForm.ShouldLoadTag` | components/MobileFormSection.tsx:23-54 | definition: the message is from the form and is a submission, with no condition on any modal |
| `MobileForm.ForeignNeverLoads` | components/MobileFormSection.tsx:23-27 | a message with no vendor origin and no matching `formId` never loads the tag |
| `MobileForm.ForeignStringDropped` | components/MobileFormSection.tsx:23-27 | a string message from a foreign origin never loads the tag, whatever it says |
| `MobileForm.DocumentedStringsLoad` | components/MobileFormSection.tsx:32-46 | from a vendor origin, both the JSON-event string and the text fallback string load the tag |
| `MobileForm.AgreesWithProvider` | components/MobileFormSection.tsx:22-56 | for form messages, the section and the provider agree; in general, the section behaves like the provider with the modal visible |
| `MobileForm.StricterThanProvider` | components/MobileFormSection.tsx:27 | whatever the section accepts, the provider accepts too |
| `MobileForm.Mount` | components/MobileFormSection.tsx:8-18 | mounting runs the embed-script effect |
| `MobileForm.HandleMessage` | components/MobileFormSection.tsx:22-56 | the tag loads exactly when the message is from the form and is a submission. A load has the whole effect of `loadGoogleTag` (scripts, data layer, `gtag`); otherwise the page is unchanged; page scroll is never touched |
| `LeadForm.MessageText` | components/EliteHero.tsx:72-77 | definition: the text of each error message of the two forms |
| `LeadForm.RegexTest` | components/EliteHero.tsx:75 | definition: `\S+@\S+\.\S+` matches somewhere, taking each `\S+` as one character where it may |
| `LeadForm.RegexTestIff` | components/EliteHero.tsx:75 | the `\S+@\S+\.\S+` test holds exactly when the value contains a white-space-free run, then `@`, then a white-space-free run, then `.`, then a white-space-free run |
| `LeadForm.ErrorKeys` | components/EliteHero.tsx:71-77 | definition: the fields whose rule fails, stated with all-white-space and the e-mail shape rather than the code's tests |
| `LeadForm.Fails` | components/EliteHero.tsx:71-77 | definition: the rule of one field |
| `LeadForm.ErrorKeyIff` | components/EliteHero.tsx:71-77 | a key is an error key exactly when its field's rule fails |
| `LeadForm.ErrorKeysIff` | components/EliteHero.tsx:70-80 | each field has an error exactly when its rule fails, and the form is valid exactly when all five rules pass |
| `LeadForm.KeysFollowRules` | components/EliteHero.tsx:71-77 | a dictionary with one key per failing code-level check has exactly the specified error keys |
| `LeadForm.SampleFormIsValid` | components/ConversionOptimizedHero.tsx:20-30 | a concrete filled-in form passes every rule |
| `EliteHero.Reports` | components/EliteHero.tsx:71-77 | definition: an errors dictionary has exactly the error keys, each with this form's message |
| `EliteHero.BuildErrors` | components/EliteHero.tsx:71-77 | the error dictionary has exactly the failing fields as keys, each with this form's message (`Email required` vs `Invalid email format` by whether the e-mail is blank); it is empty exactly when the form is valid |
| `EliteHero.NextSlide` | components/EliteHero.tsx:51 | the next slide is in range and wraps from the last to the first |
| `EliteHero.RotationCycles` | components/EliteHero.tsx:50-52 | four rotations return to the starting slide |
| `EliteHero.Hero.constructor` | components/EliteHero.tsx:10-20 | empty form, no errors, no success, slide 0 |
| `EliteHero.Hero.ValidateForm` | components/EliteHero.tsx:70-80 | the published errors report the current form, and the result is true exactly when there are none |
| `EliteHero.Hero.HandleSubmit` | components/EliteHero.tsx:82-91 | an invalid form only updates `errors`. A valid one loads the tag (scripts, data layer and `gtag` as `loadGoogleTag` leaves them), shows the success state, schedules one timer and clears every field; the slide and page scroll are kept |
| `EliteHero.Hero.SuccessTimerFires` | components/EliteHero.tsx:88 | the success state clears; the form and errors are kept |
| `EliteHero.Hero.RotateSlide` | components/EliteHero.tsx:50-52 | the slide advances by `NextSlide` and stays in range |
| `EliteHero.Hero.GoToSlide` | components/EliteHero.tsx:340 | a dot click selects that slide |
| `ConversionHero.Reports` | components/ConversionOptimizedHero.tsx:21-27 | definition: an errors dictionary has exactly the error keys, each with this form's message |
| `ConversionHero.BuildErrors` | components/ConversionOptimizedHero.tsx:21-27 | same keys as the shared rules, with this form's messages |
| `ConversionHero.SameKeysAsElite` | components/ConversionOptimizedHero.tsx:22-27 | on the same input the two heroes report the same keys and the same messages, except the two select messages, whose texts differ |
| `ConversionHero.OnlyPlaceholderFails` | components/ConversionOptimizedHero.tsx:274-292 | among the offered options, only the placeholder fails its select's required check |
| `ConversionHero.SubmitAsWritten` | components/ConversionOptimizedHero.tsx:32-41 | definition of the as-written outcome: an invalid form is rejected, a valid one throws at the unbound `loadGoogleTag` |
| `ConversionHero.AsWrittenNeverConfirms` | components/ConversionOptimizedHero.tsx:32-41 | as written, no submit reaches the confirmation; exactly the valid ones throw |
| `ConversionHero.AsWrittenValidFormThrows` | components/ConversionOptimizedHero.tsx:36 | a concrete valid form throws a ReferenceError as written |
| `ConversionHero.Hero.constructor` | components/ConversionOptimizedHero.tsx:10-18 | empty form, no errors, no success |
| `ConversionHero.Hero.Panel` | components/ConversionOptimizedHero.tsx:204 | definition: the card shows the confirmation exactly while `showSuccess` holds; `ConversionHero.Hero.HandleSubmit` and `ConversionHero.Hero.SuccessTimerFires` state when it does |
| `ConversionHero.Hero.EditField` | components/ConversionOptimizedHero.tsx:240-286 | an input's `onChange` replaces that field and keeps the others |
| `ConversionHero.Hero.ValidateForm` | components/ConversionOptimizedHero.tsx:20-30 | the published errors report the current form, and the result is true exactly when there are none |
| `ConversionHero.Hero.HandleSubmit` | components/ConversionOptimizedHero.tsx:32-41 | with the intended loader: an invalid form only updates `errors`. A valid one loads the tag (scripts, data layer and `gtag` as `loadGoogleTag` leaves them), shows the confirmation, schedules one timer and clears the form, with no guard against repeated submits; page scroll is kept |
| `ConversionHero.Hero.SuccessTimerFires` | components/ConversionOptimizedHero.tsx:38 | the form view returns; the form and errors are kept |
| `PropertyCards.JsRem` | components/Elite3DPropertyCards.tsx:100 | JavaScript `%` agrees with the mathematical remainder on non-negative operands and stays strictly between `-n` and `n` |
| `PropertyCards.NextIndex` | components/Elite3DPropertyCards.tsx:100 | from an in-range index, the next index is in range and wraps from the last to 0 |
| `PropertyCards.PrevIndex` | components/Elite3DPropertyCards.tsx:104 | from an in-range index, the previous index is in range and wraps from 0 to the last |
| `PropertyCards.PrevUndoesNext` | components/Elite3DPropertyCards.tsx:99-105 | previous undoes next, and next undoes previous |
| `PropertyCards.Advance` | components/Elite3DPropertyCards.tsx:437 | definition: the image after `k` auto-advance ticks |
| `PropertyCards.AdvanceWithinLap` | components/Elite3DPropertyCards.tsx:437 | k auto-advances, for k up to the image count, move k places forward with one wrap |
| `PropertyCards.FullCycle` | components/Elite3DPropertyCards.tsx:437 | as many advances as there are images return to the starting image |
| `PropertyCards.ShouldShow` | components/Elite3DPropertyCards.tsx:552-554 | definition of `shouldShow`: the current image, or the previous one while the current one has not loaded |
| `PropertyCards.Visible` | components/Elite3DPropertyCards.tsx:552-554 | definition: the set of a card's images for which `shouldShow` holds |
| `PropertyCards.CurrentAlwaysShown` | components/Elite3DPropertyCards.tsx:552-554 | the current image is always shown |
| `PropertyCards.AtMostTwoShown` | components/Elite3DPropertyCards.tsx:552-554 | only the current and previous images can be shown, so at most two |
| `PropertyCards.SubsetCardinality` | components/Elite3DPropertyCards.tsx:552-554 | a subset is no larger than its superset (used for the two-image bound) |
| `PropertyCards.PreviousShownIffLoading` | components/Elite3DPropertyCards.tsx:553-554 | with two or more images, the previous one is shown exactly while the current one has not loaded |
| `PropertyCards.LoadedShownAlone` | components/Elite3DPropertyCards.tsx:554 | once the current image has loaded, only it is shown |
| `PropertyCards.LoadingOnlyHides` | components/Elite3DPropertyCards.tsx:554 | a newly loaded image can only remove images from view |
| `PropertyCards.Gallery.constructor` | components/Elite3DPropertyCards.tsx:10-13 | the gallery starts closed and empty at index 0 |
| `PropertyCards.Gallery.OpenGallery` | components/Elite3DPropertyCards.tsx:86-92 | the gallery opens on the given images, index and name, scroll is locked, and the index is valid exactly when it is in range (or there are no images) |
| `PropertyCards.Gallery.CloseGallery` | components/Elite3DPropertyCards.tsx:94-97 | the gallery closes and scroll is released; its images and index are kept |
| `PropertyCards.Gallery.NextImage` | components/Elite3DPropertyCards.tsx:99-101 | the index becomes `NextIndex` and stays valid |
| `PropertyCards.Gallery.PrevImage` | components/Elite3DPropertyCards.tsx:103-105 | the index becomes `PrevIndex` and stays valid |
| `PropertyCards.Gallery.SelectImage` | components/Elite3DPropertyCards.tsx:379-382 | a thumbnail click selects that image |
| `PropertyCards.Gallery.HandleKeyDown` | components/Elite3DPropertyCards.tsx:107-113 | closed: nothing changes; open: `Escape` closes, `ArrowRight`/`ArrowLeft` step next/previous, any other key changes nothing |
| `PropertyCards.PropertyCard.constructor` | components/Elite3DPropertyCards.tsx:411-413 | a card starts on image 0 with nothing loaded |
| `PropertyCards.PropertyCard.AutoAdvance` | components/Elite3DPropertyCards.tsx:435-440 | the card's image advances by `NextIndex` and stays in range |
| `PropertyCards.PropertyCard.ImageLoaded` | components/Elite3DPropertyCards.tsx:427-429 | the loaded set grows by exactly that index |
| `PropertyCards.PropertyCard.SelectIndicator` | components/Elite3DPropertyCards.tsx:599 | an indicator click selects that image |
| `PropertyCards.PropertyCard.Shown` | components/Elite3DPropertyCards.tsx:552-554 | the shown set contains the current image and has at most two members |
| `PropertyCards.PropertyCard.OpenInGallery` | components/Elite3DPropertyCards.tsx:537 | clicking the image opens the gallery on this card's images at its current image, with a valid index, and locks page scroll |

## Left out

- JSX layout, styling and framer-motion animation have no logic to model.
- The mouse-tilt and parallax arithmetic is floating-point screen geometry, and is not modelled.
- Particles driven by `Math.random`, video backgrounds and `scrollIntoView` are not modelled.
- Image preloading through `new window.Image()` is modelled only as its `onload` effect, `ImageLoaded`.
- `JSON.parse` is a parameter; the model does not parse JSON text.
- `new Date()` is the opaque `now` parameter.
- `document.createElement` and script attributes other than `src` (`async`, `type`) are not modelled. `document.head` and `document.body` are one list of script sources, because the guard searches the whole document.
- Timer durations (3 s, 5 s) and the ordering of timers relative to messages are not modelled. Each fire step is a method the environment may call while a timer is pending.
- React's closure capture is not modelled. This is an assumption of the model: every handler call reads the state as it is at that moment. In the code, the `message` listener is a closure over the state of the render that installed it (contexts/FormModalContext.tsx:44-95), and it is replaced only when React commits the next render and re-runs the effect. A message that arrives between `setShowFormSuccess(true)` and that re-subscription still sees `showFormSuccess == false`. It then calls `loadGoogleTag` again and schedules a second revert, so `formKey` later rises by 2. The dedup guard in `FormModal.Provider.HandleFormSuccess`, `FormModal.Provider.HandleMessage` and `FormModal.TwoSuccesses` holds only under this assumption.
- Unmount cleanup (`removeEventListener`, `clearInterval`) is not modelled.
- `Text.LowerChar` and `Text.Lower` model `toLowerCase` on ASCII letters only. Every classifier pattern is ASCII, but non-ASCII upper-case letters in a message are kept as they are.
- `PropertyCards.Gallery.NextImage` and `PropertyCards.Gallery.PrevImage` require a non-empty image list. With none, JavaScript computes `NaN` as the index, which the model does not represent.
- `PropertyCards.Gallery.HandleKeyDown` requires a non-empty image list for the arrow keys, for the same reason.
- `PropertyCards.PropertyCard.constructor` requires at least one image. Every property in the page's data has images, and auto-advance on an empty list would compute `NaN`.
- `PropertyCards.Gallery.SelectImage`, `PropertyCards.PropertyCard.SelectIndicator` and `EliteHero.Hero.GoToSlide` take only indices of elements that are rendered, which are always in range.
- `PropertyCards.AdvanceWithinLap` states the effect of up to one lap of advances. Longer runs follow by repeating `FullCycle`.
- The `useFormModal` error thrown outside the provider is not modelled.
- The modal's iframe, its data attributes and the overlay markup are not modelled.
- The vendor's message format is modelled only through the checks the handlers make.
- `window.dataLayer || []` is modelled by content. The model does not say whether an existing array object is reused or replaced.
- `conversion_hero.dfy` and `form_modal.dfy` model `loadGoogleTag` as the function in lib/googleTag.ts, which neither file imports; see Findings.

## Findings

| source | as written | input that shows it | evidently intended | confidence | as-written member | corrected member |
|---|---|---|---|---|---|---|
| components/ConversionOptimizedHero.tsx:36 | `handleSubmit` calls `loadGoogleTag()`, but the file's imports (lines 3-5) do not include it. A valid submit throws a ReferenceError after `setErrors`, so the confirmation is never shown and the form is never cleared | FormData name `A`, whatsapp `1`, email `a@b.c`, investmentRange `1m-2m`, preferredProject `dubai` | import `loadGoogleTag` from lib/googleTag.ts; then a valid submit loads the tag, shows the confirmation and clears the form | not executed | `ConversionHero.AsWrittenValidFormThrows` | `ConversionHero.Hero.HandleSubmit` |
| contexts/FormModalContext.tsx:84 | `handleFormSuccess` calls `loadGoogleTag()`, but the file imports only from react and framer-motion (lines 3-4). The first submission message throws before `setShowFormSuccess(true)`, so the success panel never appears and `formKey` never changes | a message from `https://link.msgsndr.com` with object data `{status: "success"}` while the panel is down | import `loadGoogleTag`; then the first submission loads the tag, shows the panel and schedules the remount | not executed | `FormModal.AsWrittenPanelNeverShows` | `FormModal.Provider.HandleFormSuccess` |
