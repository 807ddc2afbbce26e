# Portfolio site: subject areas, keyword classifier and analytics

This project models the sequential core of a personal portfolio site in
Dafny. The site has three topic cards: fintech, media and hobbies. Clicking
a card shows the experience and project records that belong to the topic,
and every interaction is reported to Google Analytics.

The model covers four source files:

- `DataProcessor` (`src/js/dataProcessor.js`, file `data_processor.dfy`).
  It sorts the loaded experience and project records into the three topics
  by keyword. The media topic also pins one company's record. Any other key
  gets the unfiltered default view. It also computes a topic's skill list,
  as an insertion-ordered set, and per-topic statistics.
- The current `SubjectAreaManager` (`src/js/subjectAreas.js`, file
  `subject_areas.dfy`). It holds the open topic and its start time. It
  handles click, hover, close and Escape, and `generateContentHTML` decides
  which sections a topic's body has and in what order.
- The earlier `SubjectAreaManager` (`src/js/subjectAreas_old.js`, file
  `subject_areas_old.dfy`). It has its own hard-coded classifier
  (`prepareContentData`), three topic cards shown in a modal, and a close
  that clears the open topic only when a 300 ms timer fires.
- `AnalyticsManager` (`src/js/analytics.js`, file `analytics.dfy`). It
  merges default fields into each event it hands to `gtag`. It also runs a
  scroll listener that reports each new quarter of the page reached.

Supporting modules:

- `JsText` (`js_text.dfy`): JavaScript's `toLowerCase`, `includes` and
  `join`.
- `Seqs` (`seqs.dfy`): `Array.prototype.filter`, and a `Set` read back in
  insertion order.
- `Records` (`records.dfy`): the JSON records, with every field optional
  as in the loaded files, the JavaScript truthiness helpers, and
  `Result`. The `TypeError` value of `Result` stands for the exception
  the code throws when it reads a property of `null` or `undefined`.

## Modelling choices

- Objects whose fields change are classes:
  - `SubjectAreaManager`, old and new.
  - `AnalyticsManager`.
  - `Gtag`, the page's `gtag` function, kept as the log of the events it
    received.
- `window.app.analytics` and `window.gtag` are nullable references, so a
  page without them can be modelled.
- `DataProcessor` only reads its fields once they are loaded, so its fields
  are passed in as a `Store` value.
- `Date.now()`, `document.title` and `window.location.href` are parameters
  (`now`, `Page`).
- A fetch is modelled by how far it got (`LoadOutcome`):
  - it failed before the experience document was assigned;
  - it failed after the experience document and before the projects
    document;
  - both documents were parsed.
- HTML is modelled by its structure: which sections appear, which cards
  they hold, and what each card shows.
- Loops become methods with loop invariants, each proved equal to a
  specification function:
  - `getSkillsByArea`'s `forEach`/`Set.add` loops;
  - `prepareContentData`'s `push` loops.
- `generateContentHTML` has no loop: it appends its sections with
  straight-line `+=` under `if`s, and is modelled as the function
  `ContentSections`.

## Behaviour worth knowing

- Loading is not atomic. The fields are assigned one after another, so a
  failed load can leave the experience document set and the projects
  document unset (`dataProcessor.js:18-20`, `subjectAreas_old.js:28-29`).
  `LoadAllData` and both `LoadData` methods model that partial state.
- The three topic views do not degrade to empty results. They read
  `experienceData.workExperience` with no guard, so they throw while the
  data is missing (`dataProcessor.js:51-53`). Only the default view falls
  back to empty lists. `GetContentForArea` returns `TypeError` in that
  case.
- A record is filed under every topic one of whose keywords occurs
  anywhere in its search text, whole word or not. A record described only
  as "blockchain wallet integration" is a fintech record and not a media
  record, but it is also a hobbies record, because "blockchain" holds the
  letters of the keyword 'AI' (`dataProcessor.js:125-128`,
  `dataProcessor.js:161-163`).
  `BlockchainWalletIsFintech`, `BlockchainWalletIsNotMedia` and
  `BlockchainWalletIsHobby` state the three facts.
- `src/main.js` never assigns `window.app`. As shipped, the new manager's
  analytics calls therefore never run. The model covers both a page with
  analytics and one without.

## Model

| member | source | states |
|---|---|---|
| JsText.ContainsAt | src/js/dataProcessor.js:161-163 | `includes` holds exactly when the pattern occurs at some index of the text |
| JsText.LowerPreservesContains | src/js/dataProcessor.js:159-162 | a substring found in the text is still found after both text and keyword are lower-cased |
| JsText.AbsentCharNotContained | src/js/dataProcessor.js:161-163 | `includes` fails for a pattern holding a character the text lacks |
| JsText.AbsentPairNotContained | src/js/dataProcessor.js:161-163 | `includes` fails for a pattern holding two neighbouring characters that never stand side by side in the text |
| JsText.JoinContainsPart | src/js/dataProcessor.js:151-159 | every string joined into the search text is contained in it |
| JsText.LowerJoin | src/js/dataProcessor.js:159 | lower-casing the joined text equals joining the lower-cased parts |
| Seqs.Filter | src/js/dataProcessor.js:150 | `filter` keeps exactly the accepted elements, as an order-preserving subsequence, each with its multiplicity |
| Seqs.DedupFirstOccurrences | src/js/dataProcessor.js:212-229 | a `Set` filled one `add` at a time and read with `Array.from` holds every added value exactly once, in order of first addition |
| DataProcessor.LoadAllData | src/js/dataProcessor.js:9-30 | each load outcome decides which fields are set; a failure keeps earlier assignments; blog posts are set only by a complete load |
| DataProcessor.CompleteLoadEnablesTopics | src/js/dataProcessor.js:18-23 | after a complete load every topic view and the statistics can be computed, and the statistics count the 4 placeholder posts |
| DataProcessor.FilterByKeywords | src/js/dataProcessor.js:149-165 | the result is an order-preserving subsequence of the input, never longer; an item is kept iff `Matches` holds, i.e. its lower-cased search text (`SearchText`) contains a lower-cased keyword, with all its duplicates |
| DataProcessor.FilterByNoKeywords | src/js/dataProcessor.js:161-163 | an empty keyword list keeps nothing |
| DataProcessor.FieldMatchKept | src/js/dataProcessor.js:151-163 | an item is kept once any one of its searched strings contains a keyword, ignoring case on both sides |
| DataProcessor.KeywordCaseIgnored | src/js/dataProcessor.js:161-163 | keyword lists that agree up to case select the same items ('NEM', 'STEM', 'IoT', '3D', 'AI') |
| DataProcessor.TextCaseIgnored | src/js/dataProcessor.js:151-159 | items whose searched strings agree up to case match the same keywords |
| DataProcessor.TitleOnlyWithoutPosition | src/js/dataProcessor.js:153 | `title` is searched only when `position` is missing or empty |
| DataProcessor.FindByCompany | src/js/dataProcessor.js:92-94 | `find` returns the first record with exactly that company, or nothing when none has it |
| DataProcessor.MediaPinnedOnce | src/js/dataProcessor.js:91-97 | the media list `MediaExperiences` starts with the keyword matches; the pinned record is always in it, appended only when missing, so it is never added twice; nothing else is appended |
| DataProcessor.GetDefaultContent | src/js/dataProcessor.js:200-207 | the default view holds every record unfiltered, or empty lists while a document or its list is missing |
| DataProcessor.GetContentForArea | src/js/dataProcessor.js:32-43 | a non-topic key gets the unfiltered default and never throws; a topic key succeeds iff both record lists are loaded; only hobbies carries blog posts |
| DataProcessor.TopicFiltering | src/js/dataProcessor.js:45-147 | `GetFintechContent`, `GetMediaContent` and `GetHobbiesContent` show the records their own keyword list selects; the media topic's experiences are `MediaExperiences`, the matches plus the pinned record |
| DataProcessor.TopicPanels | src/js/dataProcessor.js:45-147 | only fintech has insights, only media has media assets, and hobbies carries the store's blog posts |
| DataProcessor.PinnedKeptIffMatches | src/js/dataProcessor.js:91-97 | the pinned record is among the keyword matches exactly when it matches a media keyword itself, so the `includes` test decides by value |
| DataProcessor.MediaViewBounded | src/js/dataProcessor.js:75-97 | the pinned record never makes the media view longer than the experience list |
| DataProcessor.TopicShowsOnlyStoredRecords | src/js/dataProcessor.js:32-147 | every record a view shows is a loaded record of the right list |
| DataProcessor.BlockchainWalletIsFintech | src/js/dataProcessor.js:45-54 | a record describing a blockchain wallet integration is in the fintech view |
| DataProcessor.DescriptionOnlySearchText | src/js/dataProcessor.js:151-159 | a record with only a description is searched as that description followed by the two separators of the empty position and company |
| DataProcessor.NoMediaKeywordWhereLettersLack | src/js/dataProcessor.js:76-79 | no media keyword occurs in a text with no `m`, `v`, `p` or `f` and no "co" |
| DataProcessor.WalletRecordMatchesNoMediaKeyword | src/js/dataProcessor.js:149-163 | the record described only as "blockchain wallet integration" matches no media keyword |
| DataProcessor.BlockchainWalletIsNotMedia | src/js/dataProcessor.js:75-97 | that record is not in the media view: it matches no media keyword and is not the pinned company's record |
| DataProcessor.BlockchainWalletIsHobby | src/js/dataProcessor.js:124-138 | that record is also in the hobbies view, since "blockchain" contains "ai" and 'AI' is a hobbies keyword |
| DataProcessor.AddAll | src/js/dataProcessor.js:216 | adding values one by one to the insertion-ordered set gives the set of the longer stream |
| DataProcessor.CollectExperienceSkills | src/js/dataProcessor.js:214-218 | the first loop leaves the distinct skills of the experiences, in first-occurrence order |
| DataProcessor.CollectProjectSkills | src/js/dataProcessor.js:220-227 | the second loop adds each project's technologies and then its tags to the set |
| DataProcessor.GetSkillsByArea | src/js/dataProcessor.js:210-230 | throws exactly when the topic view throws; otherwise returns the distinct skills, technologies and tags of the view in first-occurrence order |
| DataProcessor.GetAreaStatistics | src/js/dataProcessor.js:233-254 | succeeds iff the records and the blog posts are loaded; the hobbies entry counts the blog posts |
| DataProcessor.StatisticsCountTopics | src/js/dataProcessor.js:233-254 | each of the six counts is the length of the matching list of its topic view, and no count exceeds the loaded list it comes from |
| Analytics.Gtag.Send | src/js/analytics.js:23-28 | a `gtag('event', …)` call appends exactly that event to the log |
| Analytics.TrackEventPayload | src/js/analytics.js:23-28 | the payload has the caller's keys plus the three defaults; a caller key always wins; each default applies only when its key is absent, with `label`/`value` falling back when falsy |
| Analytics.PayloadMergeIdempotent | src/js/analytics.js:23-28 | merging the defaults into an already merged payload changes nothing |
| Analytics.EngagementData | src/js/analytics.js:53-63 | the engagement fields always carry area, interaction and page, and `engagement_time_msec` exactly when the duration is truthy |
| Analytics.EngagementPayload | src/js/analytics.js:53-66 | the merged engagement event carries the defaults, the area, the interaction, and the duration iff it is truthy |
| Analytics.ContentViewData | src/js/analytics.js:69-75 | the content view's page title is the area, " - ", then the content type |
| Analytics.FormSubmissionData | src/js/analytics.js:78-83 | the form event carries the form type and the success flag |
| Analytics.MilestonesIncrease | src/js/analytics.js:95-107 | the reported depths `Milestones` are strictly increasing positive multiples of 25, and `maxScroll` (`ScrollMax`) is the last one reported, or 0 |
| Analytics.ScrollMaxMonotone | src/js/analytics.js:102-106 | `maxScroll` never decreases however many scroll events follow |
| Analytics.ReportedIffDeeper | src/js/analytics.js:102 | a percent is reported (`Fires`) iff it is a positive multiple of 25 deeper than every depth reported before |
| Analytics.ScrollEvent | src/js/analytics.js:104-106 | a scroll report carries `scroll_depth` and the default category |
| Analytics.AnalyticsManager.constructor | src/js/analytics.js:2-4 | a new manager has no scroll listener installed |
| Analytics.AnalyticsManager.Init | src/js/analytics.js:6-17 | without `gtag` nothing is installed; with it the listener starts at `maxScroll` 0 |
| Analytics.AnalyticsManager.TrackScrollDepth | src/js/analytics.js:94-96 | a fresh listener starts at `maxScroll` 0 with no history |
| Analytics.AnalyticsManager.TrackEvent | src/js/analytics.js:20-31 | with `gtag` exactly one event with the merged payload is sent; without it nothing happens |
| Analytics.AnalyticsManager.DebugAnalytics | src/js/analytics.js:34-50 | sends one `debug_test` event with the timestamp only when `gtag` is there |
| Analytics.AnalyticsManager.TrackSubjectAreaEngagement | src/js/analytics.js:53-66 | sends exactly one `subject_area_engagement` event built from the engagement fields |
| Analytics.AnalyticsManager.TrackContentView | src/js/analytics.js:69-75 | sends exactly one `content_view` event |
| Analytics.AnalyticsManager.TrackFormSubmission | src/js/analytics.js:78-83 | sends exactly one `form_submit` event |
| Analytics.AnalyticsManager.TrackResumeDownload | src/js/analytics.js:86-91 | sends exactly one `file_download` event for the résumé |
| Analytics.AnalyticsManager.OnScroll | src/js/analytics.js:97-108 | the listener reports a percent exactly when it passes `maxScroll` at a multiple of 25, which becomes the new maximum; the reported depths grow by exactly that percent |
| SubjectAreas.ExperienceCardDates | src/js/subjectAreas.js:142-152 | `ExperienceCardOf`: an experience card's dates end in "Present" exactly when the end date is missing or empty; achievements are listed exactly when the record has a list, even an empty one; the skill tags are the record's skills |
| SubjectAreas.ExperienceCards | src/js/subjectAreas.js:140-155 | the cards are produced iff every experience has skills, one card per record in order |
| SubjectAreas.ProjectCards | src/js/subjectAreas.js:167-177 | the cards (`ProjectCardOf` per record) are produced iff every project has technologies, one card per record in order |
| SubjectAreas.BlogCardOf | src/js/subjectAreas.js:189-195 | a blog card shows the image exactly when the post's image is a non-empty string |
| SubjectAreas.SectionsThrowIff | src/js/subjectAreas.js:131-203 | rendering (`ContentSections`) throws exactly when an experience lacks skills or a project lacks technologies |
| SubjectAreas.SectionsOrdered | src/js/subjectAreas.js:134-200 | the sections come in the order Experience, Projects, Blog, each at most once |
| SubjectAreas.SectionsPresent | src/js/subjectAreas.js:135-184 | an Experience section iff there are experiences, a Projects section iff there are projects, a Blog section iff the area is hobbies and there are blog posts |
| SubjectAreas.SectionsCards | src/js/subjectAreas.js:140-196 | each section holds one card per record, in record order |
| SubjectAreas.GenerateContentHTML | src/js/subjectAreas.js:131-203 | the `+=` construction yields exactly the sections the rules above describe, or throws as they say |
| SubjectAreas.ShowTopic | src/js/subjectAreas.js:91-129 | an unloaded topic throws before anything changes; otherwise the title and description are replaced first, and the display shows the body and becomes active only when the body renders |
| SubjectAreas.ShowTopicTwice | src/js/subjectAreas.js:91-129 | showing the same topic again leaves the display and the outcome as the first showing left them |
| SubjectAreas.SubjectAreaManager.constructor | src/js/subjectAreas.js:5-12 | a new manager has no open topic, no start time and an inactive display |
| SubjectAreas.SubjectAreaManager.LoadData | src/js/subjectAreas.js:19-25 | the processor's fields become what the load outcome leaves; a failure is caught |
| SubjectAreas.SubjectAreaManager.HandleAreaHover | src/js/subjectAreas.js:56-60 | a hover reports one engagement event with the action and no duration |
| SubjectAreas.SubjectAreaManager.BeginEngagement | src/js/subjectAreas.js:80-86 | the first half of a click: the topic and start time are set and exactly one `click` engagement event is reported when analytics is present |
| SubjectAreas.SubjectAreaManager.HandleAreaClick | src/js/subjectAreas.js:79-89 | a click sets the open topic and the start time, even over an open one and without reporting its close; it reports the click, then shows the topic as `ShowTopic` says and reports the view iff the body rendered |
| SubjectAreas.SubjectAreaManager.ShowContent | src/js/subjectAreas.js:91-111 | the display becomes what `ShowTopic` says, and the view is reported exactly when the body rendered |
| SubjectAreas.SubjectAreaManager.RenderContent | src/js/subjectAreas.js:113-129 | the title and description are set before rendering; the body and the view report follow only if rendering succeeds |
| SubjectAreas.SubjectAreaManager.CloseContent | src/js/subjectAreas.js:205-228 | reports one close event with duration now minus start exactly when the start time is truthy, then clears the topic and the start time whatever they were, and deactivates the display |
| SubjectAreas.SubjectAreaManager.OnKeyDown | src/js/subjectAreas.js:49-53 | Escape closes only while the display is active; any other key changes nothing |
| SubjectAreas.CloseTwice | src/js/subjectAreas.js:205-228 | a second close right after a close reports nothing |
| SubjectAreas.ClickThenClose | src/js/subjectAreas.js:79-228 | a click followed by a close reports the click, the view if rendered, then the time between the two |
| SubjectAreasOld.EntryShapes | src/js/subjectAreas_old.js:99-137 | an experience entry's duration ends in "Present" when the end date is missing or empty, and its technologies are its skills; a project entry's technologies fall back to its tags, then to none |
| SubjectAreasOld.PreparedContentOrder | src/js/subjectAreas_old.js:80-140 | `PreparedContent`: the entries are the selected experiences (`ExperienceRelevant`) in source order followed by the selected projects (`ProjectRelevant`) in source order; no experience follows a project |
| SubjectAreasOld.PreparedContentNeedsBothDocuments | src/js/subjectAreas_old.js:76-78 | without both documents nothing is prepared |
| SubjectAreasOld.HobbiesShowsEveryProject | src/js/subjectAreas_old.js:96-125 | hobbies selects no experience and every project |
| SubjectAreasOld.UnknownCategoryShowsNothing | src/js/subjectAreas_old.js:96-125 | a category other than the three topics selects nothing |
| SubjectAreasOld.BlockchainSkillIsFintech | src/js/subjectAreas_old.js:87-91 | a skill mentioning blockchain, in any case, selects an experience for fintech |
| SubjectAreasOld.PushExperienceEntries | src/js/subjectAreas_old.js:99-109 | the `push` loop appends the entries of the selected experiences, in order |
| SubjectAreasOld.PushProjectEntries | src/js/subjectAreas_old.js:128-137 | the `push` loop appends the entries of the selected projects, in order |
| SubjectAreasOld.PrepareContentData | src/js/subjectAreas_old.js:75-141 | the method returns exactly the prepared content the selection rules describe |
| SubjectAreasOld.SubjectAreaManager.constructor | src/js/subjectAreas_old.js:4-18 | a new manager has the three cards with their fixed titles, icons and descriptions and no entries, and no open topic |
| SubjectAreasOld.SubjectAreaManager.LoadData | src/js/subjectAreas_old.js:20-40 | the documents are stored as far as loading got; only a complete load fills the three cards' entries, and the cards' fixed text never changes |
| SubjectAreasOld.SubjectAreaManager.HandleAreaHover | src/js/subjectAreas_old.js:264-268 | a hover reports one engagement event through the analytics manager |
| SubjectAreasOld.SubjectAreaManager.HandleAreaClick | src/js/subjectAreas_old.js:287-300 | a click sets the open topic and the start time, sends one `section_view` event, and shows the card; it writes only the topic, the start time and the modal, so the documents, cards and pending timers are unchanged |
| SubjectAreasOld.SubjectAreaManager.ShowContent | src/js/subjectAreas_old.js:302-319 | the modal shows the card's title, description and entries and becomes active, and nothing changes for a key that is not a card or when the modal is missing |
| SubjectAreasOld.SubjectAreaManager.CloseContent | src/js/subjectAreas_old.js:388-407 | reports the time on screen exactly when the start time is truthy, hides the modal and starts the clearing timer; the topic stays open until that timer fires, and nothing but the modal's `active` class and the timers changes |
| SubjectAreasOld.SubjectAreaManager.ClearTimerFires | src/js/subjectAreas_old.js:403-406 | a pending timer clears the open topic and its start time, whatever they are by then |
| SubjectAreasOld.SubjectAreaManager.OnKeyDown | src/js/subjectAreas_old.js:257-261 | Escape while a topic is open (a non-empty `currentArea`) closes: the modal is hidden, a clearing timer starts and the close is reported; any other key, or Escape with no topic open, changes nothing; only the modal's `active` class and the timers can change |
| SubjectAreasOld.CloseThenEscape | src/js/subjectAreas_old.js:257-261 | a close and then Escape before the timer fires report the same topic's time twice |
| SubjectAreasOld.QuickReopenIsNotReported | src/js/subjectAreas_old.js:388-407 | a topic reopened before the previous close's timer fired is cleared by that timer, and closing it reports nothing |

## Left out

- Network I/O. The `fetch` and `json` calls are not modelled. Their result
  is the `LoadOutcome` parameter. `personal.json` is fetched but never read
  by the core, so it is not stored.
- Animations. GSAP tweens, the card hover scale and `requestAnimationFrame`
  are not modelled. The new manager's display becomes active and inactive
  at once, instead of when its tween completes.
- DOM wiring and templating:
  - `setupEventListeners`, `initializeCards`, `createCards` and `createCard`
    are left out. They only register listeners and build markup.
  - The earlier manager's `renderContent`, `renderExperience`,
    `renderProject` and `renderHobby` are left out. The modal body is
    modelled as the card's entry list.
  - `init` of both managers is left out. It only runs the listener setup
    and `loadData`.
- Markup strings. HTML is modelled by structure, not as text.
- Scroll percent. Computing it from `scrollY` is floating-point and is left
  out. The listener receives the rounded integer percent.
- Console logging and the measurement ID's only use in a log line.
- `src/js/nameWheel.js`, `src/js/contactForm.js`, `src/main.js` and
  `vite.config.js` are not part of this model.
- JsText.Lower: only ASCII capitals are lower-cased. Unicode case mapping
  is not modelled.
- DataProcessor.MediaExperiences: object identity is not modelled;
  `includes` compares references and the model compares record values.
  The two always decide alike here: the pinned record comes from the same
  list, and the filter looks only at a record's value, so the pinned
  record is kept exactly when it matches (`PinnedKeptIffMatches`).
- Analytics.AnalyticsManager.Init: calling it a second time replaces the
  scroll listener. The source adds a second listener beside the first.
- Analytics.TrackEventPayload: object key order is not modelled. Parameters
  are a map.
- SubjectAreasOld.SubjectAreaManager.ShowContent: `cardData[area]` for a
  key inherited from `Object.prototype` is not modelled. Only the three
  card keys are in the map.
- A `data-area` attribute that is missing would be passed as `undefined`.
  The model takes every area key as a string.
- Records.Interpolate: a field that is missing and a field that is JSON
  `null` are both `None`. A template literal prints the first as
  "undefined" and the second as "null"; the model prints "undefined" for
  both.
