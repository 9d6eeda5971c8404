# Phone insurance site: content layer, data hooks, plan finder and contact form

This project models the logic of a phone-insurance web site in Dafny and
proves properties of it. It covers four parts.

- **Content service** (`src/services/contentstack.ts`). `fetchEntries`
  turns an options object into calls on the CMS query builder. It sends the
  query, answers with `result[0][0]`, and falls back to mock data when no
  client is configured, when `find()` rejects, or when reading the answer
  throws. The model also covers the eleven accessor functions built on it
  (plans, phone models, hero, benefits, testimonials, page content, the three
  page bundles, search and pagination), and the mock data.
- **Data hooks** (`src/hooks/useContentStack.ts`). Each hook has a data
  cell, a loading flag and an error cell (the hero hook has no error cell).
  Its effect re-runs when its arguments change.
- **Plan finder** (`src/pages/Plans.tsx`). It covers:
  - the recommended plans;
  - the "Popular" badge;
  - the brand and model pickers;
  - the search over the plan table (`src/data/planData.ts`) and the phone
    list (`src/data/phoneData.ts`);
  - reset, the comparison toggle, and the feature labels and icons.
- **Contact form** (`src/pages/Contact.tsx`). It covers the field change
  handler, the required-field check, the e-mail pattern
  `^[^\s@]+@[^\s@]+\.[^\s@]+$`, and the form clearing once the simulated
  send is over.

Files:

- `js.dfy`: JavaScript values.
  - Truthiness.
  - `v[0]`, including the `TypeError` on `undefined` and `null`.
  - Objects as ordered fields, with `Object.keys`, property read and property
    assignment.
- `query.dfy`: the options record and `Translate`. `Translate` is the log of
  builder calls that `fetchEntries` issues for an options record.
- `service.dfy`:
  - the client;
  - the `find()` outcome, an oracle parameter;
  - `fetchEntries` as a method whose loops issue the calls;
  - the accessors and the mock fixtures.
- `hooks.dfy`: one `Hook` class for the four hooks, with mount, re-render and
  settle events.
- `plans.dfy`: the plan table, `String.prototype.includes`, `filter`, and
  the page state as a `PlansPage` class. A search is two steps: the click,
  and the end of its delay.
- `contact.dfy`: the form state as a `ContactForm` class, and the e-mail
  pattern as a language. The pattern is proved equal to a computed test.

The model follows the code as written, also where a reader or the
repository's own tests (src/hooks/__tests__/useContentStack.test.tsx) might
expect otherwise:

- `searchContent` always calls `fetchEntries`, even without a search term.
- `getPaginatedEntries` computes no page count.
- Every accessor answers with the single entry `result[0][0]`, not a list.
- `useTestimonials` reports the fallback error message "Failed to fetch
  plans", as written.
- The hero hook stores `result[0] || null`. For a record entry, which has no
  property `0`, that is `null`.
- A plan search shows the plans of the phone chosen when "Find Plans" was
  clicked, even when the brand was changed or the selection reset during
  its delay.

## Model

| member | source | states |
|---|---|---|
| Js.OfStr | src/services/contentstack.ts:105-106 | an optional string parameter is truthy exactly when it is present and not empty |
| Js.ElementZero | src/services/contentstack.ts:91 | `v[0]` throws exactly on `undefined` and `null`; on an array it is the first element, or `undefined` when the array is empty |
| Js.Keys | src/services/contentstack.ts:27 | `Object.keys` lists every key of the object, one per field, in field order |
| Js.Lookup | src/services/contentstack.ts:28-29 | reading a key the object lacks gives `undefined` |
| Js.AssignLookup | src/services/contentstack.ts:104-113 | after `obj[k] = v`, `obj[k]` reads `v` and every other key reads as before |
| Js.AssignShape | src/services/contentstack.ts:104-113 | a new property is added at the end; assigning an existing one leaves the key order unchanged |
| Js.PairIffLookup | src/services/contentstack.ts:27-29 | in an object with unique keys, a key/value pair is present exactly when the key is present and reads as that value |
| Js.AssignKeepsUnique | src/services/contentstack.ts:104-113 | assigning a property never creates a duplicate key |
| Query.Rank | src/services/contentstack.ts:25-88 | every builder call belongs to one of the eleven option stages of `fetchEntries` |
| Query.IncludeOps | src/services/contentstack.ts:35-39 | one `includeReference` call per path, in the order of the paths |
| Query.WhereOpsMembers | src/services/contentstack.ts:26-32 | `where(k, v)` is called exactly for the fields `(k, v)` of the object whose value is not `undefined` |
| Query.WhereOpsAppend | src/services/contentstack.ts:27-31 | the `where` calls of two concatenated objects are the calls of the first followed by the calls of the second |
| Query.WhereOpsSingle | src/services/contentstack.ts:27-31 | a one-field object yields the calls of that field alone |
| Query.WhereOpsAreWheres | src/services/contentstack.ts:27-31 | the `where` loop issues only `where` calls |
| Query.StageRank | src/services/contentstack.ts:25-88 | every call a stage issues belongs to that stage |
| Query.StageSize | src/services/contentstack.ts:41-88 | every stage after `include` issues at most one call |
| Query.PrependStage | src/services/contentstack.ts:25-88 | adding a stage in front of later stages keeps the calls in stage order |
| Query.StagesInOrder | src/services/contentstack.ts:25-88 | the stages from any point on issue their calls in statement order, with no earlier stage's call among them |
| Query.TranslateInStageOrder | src/services/contentstack.ts:25-88 | the builder sees calls in the order of the statements: `where`, `include`, `only`, `except`, `limit`, `skip`, order, locale, count, content type, fallback |
| Query.StagesMembers | src/services/contentstack.ts:25-88 | a call is issued from stage `r` on exactly when its own stage is `r` or later and that stage issues it |
| Query.TranslateByRank | src/services/contentstack.ts:25-88 | a call is issued exactly when its own stage issues it |
| Query.StagesStep | src/services/contentstack.ts:25-88 | the calls from stage `r` on are stage `r`'s calls followed by the calls of the later stages |
| Query.TranslateAt | src/services/contentstack.ts:25-88 | a call of stage `r` is issued exactly when stage `r` issues it |
| Query.TranslateAllStages | src/services/contentstack.ts:25-88 | the full call log is the eleven stages' calls concatenated in statement order |
| Query.WhereTranslation | src/services/contentstack.ts:26-32 | `where(k, v)` is issued exactly when `where` is an object that holds the field `(k, v)` and `v` is not `undefined` |
| Query.IncludeOpsMembers | src/services/contentstack.ts:35-39 | `includeReference(p)` is among the include calls exactly when `p` is one of the paths |
| Query.IncludeTranslation | src/services/contentstack.ts:35-39 | `includeReference(p)` is issued exactly when `include` is a non-empty list that contains `p` |
| Query.OnlyTranslation | src/services/contentstack.ts:42-44 | `only(fs)` is issued exactly when `only` is the non-empty list `fs` |
| Query.ExceptTranslation | src/services/contentstack.ts:47-49 | the builder gets the call `Except(fs)` exactly when the option holds the list `fs` and `fs` is not empty |
| Query.LimitTranslation | src/services/contentstack.ts:52-54 | `limit(n)` is issued exactly when `limit` is `n` and `n` is not 0 |
| Query.SkipTranslation | src/services/contentstack.ts:57-59 | `skip(n)` is issued exactly when `skip` is `n` and `n` is not 0 |
| Query.OrderTranslation | src/services/contentstack.ts:62-68 | a leading `-` gives `descending` on the rest of the string; any other non-empty order gives `ascending` on the whole string |
| Query.LocaleTranslation | src/services/contentstack.ts:71-73 | `language(s)` is issued exactly when `locale` is the non-empty string `s` |
| Query.CountTranslation | src/services/contentstack.ts:76-78 | `includeCount()` is issued exactly when `includeCount` is `true` |
| Query.ContentTypeTranslation | src/services/contentstack.ts:81-83 | `includeContentType()` is issued exactly when `includeContentType` is `true` |
| Query.FallbackTranslation | src/services/contentstack.ts:86-88 | `includeFallback()` is issued exactly when `includeFallback` is `true` |
| Query.WhereCallsOfObject | src/services/contentstack.ts:26-32 | for a `where` object, `where(k, v)` is issued exactly when `obj[k]` reads `v` and `v` is not `undefined` |
| Query.PlainQueryTranslation | src/services/contentstack.ts:25-73 | options with only `where`, `include`, order and locale give the calls for those four options, in that order |
| Query.FilterThenOrder | src/services/contentstack.ts:25-68 | a filter with an order gives the `where` calls followed by the order call |
| Service.ClientFor | src/lib/contentstack.ts:7-17 | a client exists exactly when the API key, the delivery token and the environment are all truthy |
| Service.UnwrapEnvelope | src/services/contentstack.ts:90-91 | for a `find()` envelope, `result[0][0]` is the first entry, or `undefined` when there is none |
| Service.MockData | src/services/contentstack.ts:276-493 | the fallback is truthy; the two testimonials for `testimonials`; a record with the fixture's keys in order for each page bundle; `[]` for every other type |
| Service.WhereCalls | src/services/contentstack.ts:26-32 | the `forEach` over `Object.keys` issues exactly the `where` calls of the specification, in key order |
| Service.IncludeCalls | src/services/contentstack.ts:35-39 | the loop issues one `includeReference` per path, in order |
| Service.BuildQuery | src/services/contentstack.ts:23-88 | the built query is the call log `Translate` of the options |
| Service.FetchEntries | src/services/contentstack.ts:4-96 | without a client: no request, mock data. With a client: exactly the translated query is sent; a rejection gives mock data; otherwise `result[0][0]`, or mock data when that read throws |
| Service.AssignIf | src/services/contentstack.ts:104-113 | a guarded `query.k = v` changes only `k` and only when the guard holds, appends a new key, and keeps keys unique |
| Service.PlansWhere | src/services/contentstack.ts:104-113 | the plans filter object has unique keys |
| Service.GetInsurancePlans | src/services/contentstack.ts:99-120 | sends the plans query for `insurance_plan` and answers as `fetchEntries` does |
| Service.PlansWhereReads | src/services/contentstack.ts:104-113 | the filter reads `brand` and `model` when truthy, `is_featured: true` when featured, a `$gte`/`$lte` range when a price range is given, and `undefined` for every other key |
| Service.PlansWhereCalls | src/services/contentstack.ts:104-119 | `where(k, v)` is issued exactly for the conditions the filter sets |
| Service.PlansLimitAndOrder | src/services/contentstack.ts:115-119 | `limit(n)` is issued exactly for a non-zero limit `n`; plans always come newest first |
| Service.PlansDefaultWhere | src/services/contentstack.ts:104-106 | without options the filter is brand then model, each only when truthy |
| Service.PlansDefaultWhereOps | src/services/contentstack.ts:104-116 | without options the `where` calls are brand then model, each only when truthy |
| Service.PlansDefaultCalls | src/services/contentstack.ts:99-120 | without options the whole call log is those `where` calls followed by `descending("created_at")` |
| Service.GetPhoneModels | src/services/contentstack.ts:122-135 | sends the phone-model query for `phone_model` and answers as `fetchEntries` does |
| Service.PhoneModelsCalls | src/services/contentstack.ts:126-134 | the only `where` is the brand, when truthy; `specifications` is included exactly when specs are asked for; models are sorted by name ascending |
| Service.GetHeroContent | src/services/contentstack.ts:137-146 | sends the hero query for `hero_section` and answers as `fetchEntries` does |
| Service.HeroCalls | src/services/contentstack.ts:141-145 | the call log is `where("page", page)`, then the two asset references when asked for, then the locale when given |
| Service.BenefitsWhere | src/services/contentstack.ts:153-155 | the benefits filter object has unique keys |
| Service.GetBenefits | src/services/contentstack.ts:148-163 | sends the benefits query for `benefits` and answers as `fetchEntries` does |
| Service.BenefitsCalls | src/services/contentstack.ts:153-162 | `where` is issued exactly for a truthy page and for `is_featured: true` when featured; benefits are sorted by `order` ascending |
| Service.BenefitsDefaultCalls | src/services/contentstack.ts:148-163 | without arguments the only call is `ascending("order")` |
| Service.TestimonialsWhere | src/services/contentstack.ts:171-173 | the testimonials filter object has unique keys |
| Service.GetTestimonials | src/services/contentstack.ts:165-182 | sends the testimonials query for `testimonials` and answers as `fetchEntries` does |
| Service.TestimonialsCalls | src/services/contentstack.ts:171-181 | `where` is issued exactly for `is_featured: true` when featured and for `rating: {$gte: r}` when the rating is non-zero; newest first |
| Service.TestimonialsDefaultCalls | src/services/contentstack.ts:165-182 | without options the call log is the featured condition, when truthy, followed by `descending("created_at")` |
| Service.GetPageContent | src/services/contentstack.ts:184-193 | sends the page query for `page_content` and answers as `fetchEntries` does |
| Service.PageContentCalls | src/services/contentstack.ts:188-192 | the call log is `where("page_slug", slug)`, then the two references when asked for, then the locale when given |
| Service.GetContactPageContent | src/services/contentstack.ts:195-203 | sends the bundle query with `chat_details.icon` for `contact_us_page` and answers as `fetchEntries` does |
| Service.GetAboutPageContent | src/services/contentstack.ts:205-213 | sends the bundle query with `values_references` for `about_page` and answers as `fetchEntries` does |
| Service.GetHomePageContent | src/services/contentstack.ts:215-226 | sends the bundle query with the two section references for `home_page` and answers as `fetchEntries` does |
| Service.PageBundleCalls | src/services/contentstack.ts:195-226 | a page bundle query has no `where`; it is the references when asked for, then the locale when given |
| Service.PageFixtures | src/services/contentstack.ts:283-489 | without a client each page bundle answers with a record carrying its fixture's keys, in order |
| Service.OrConditions | src/services/contentstack.ts:240-244 | one case-insensitive `$regex` condition per search field, in field order |
| Service.SearchContent | src/services/contentstack.ts:229-253 | sends the search query for the content type and answers as `fetchEntries` does |
| Service.SearchCalls | src/services/contentstack.ts:237-252 | with a term and fields, `$or` is the list of regex conditions; every other `where` is a defined field of the spread filters |
| Service.GetPaginatedEntries | src/services/contentstack.ts:256-273 | sends the paginated query for the content type and answers as `fetchEntries` does |
| Service.PaginationLimit | src/services/contentstack.ts:262-272 | the limit is the page size (no call for size 0); the count is always requested |
| Service.PaginationSkip | src/services/contentstack.ts:262-267 | `skip((page - 1) * size)` is issued exactly when that product is not 0 |
| Service.PaginationDefaults | src/services/contentstack.ts:256-267 | by default the limit is 10 and nothing is skipped |
| Hooks.Hook.constructor | src/hooks/useContentStack.ts:4-98 | mounting starts in the hook's initial state, loading, with one service call issued |
| Hooks.Hook.Render | src/hooks/useContentStack.ts:4-98 | a re-render follows the dependency rule of `Rerendered` |
| Hooks.Hook.Settle | src/hooks/useContentStack.ts:4-98 | a settled call stores its result or error and clears loading, as `SettledModel` states |
| Hooks.FetchIffArgumentsChange | src/hooks/useContentStack.ts:8-95 | a render issues a call exactly when an argument changed, appends only that call, and sets loading |
| Hooks.ErrorIsSticky | src/hooks/useContentStack.ts:34-44 | a failure sets the message (or the fallback text) and keeps the data; a later success replaces the data but keeps the error |
| Hooks.SettleClearsLoading | src/hooks/useContentStack.ts:4-98 | whatever the outcome, settling clears loading and counts one call as settled; only the state changes |
| Hooks.ListSuccessStores | src/hooks/useContentStack.ts:36-44 | a list hook stores exactly the fulfilled value, clears loading and keeps its error |
| Hooks.LoadingClearedEarly | src/hooks/useContentStack.ts:34-48 | when the arguments change before the mount call settles, the first call to settle clears loading while the second is still outstanding |
| Hooks.HeroKeepsContentOnFailure | src/hooks/useContentStack.ts:57-67 | a hero failure only clears loading |
| Hooks.HeroContentOfResult | src/hooks/useContentStack.ts:61-62 | hero content is `null` for a record entry and for `[]`, the first item when that is truthy, and unchanged when reading `result[0]` throws |
| Hooks.ServiceNeverSetsError | src/services/contentstack.ts:92-95 | since the service catches every failure, a real call never changes a hook's error |
| Hooks.UnconfiguredData | src/services/contentstack.ts:18-21 | without a client, testimonials show the two fixtures, and plans and benefits show `[]` |
| Hooks.UnconfiguredHeroIsNull | src/hooks/useContentStack.ts:61-62 | without a client the hero content is `null` |
| Plans.MatchesFromIff | src/pages/Plans.tsx:19 | the character-by-character match is slice equality |
| Plans.ContainsFromIff | src/pages/Plans.tsx:19 | the scan from an offset finds an occurrence exactly when one exists at that offset or later |
| Plans.ContainsIffOccurs | src/pages/Plans.tsx:19 | `includes` holds exactly when the substring occurs at some offset |
| Plans.Filter | src/pages/Plans.tsx:18-21 | `filter` never lengthens a list |
| Plans.FilterMembers | src/pages/Plans.tsx:18-20 | `filter` keeps exactly the elements that pass the test |
| Plans.FilterAppend | src/pages/Plans.tsx:18-20 | `filter` keeps order: it distributes over concatenation |
| Plans.RecommendedPlansSpec | src/pages/Plans.tsx:17-22 | the recommendations are the first three qualifying plans in list order, or all of them when at most three qualify; each is a badged plan of Apple, Samsung or Google Pixel from the list |
| Plans.BasicCoverBadge | src/pages/Plans.tsx:84 | "Basic Cover" gets no badge |
| Plans.PremiumProtectionBadge | src/pages/Plans.tsx:84 | "Premium Protection" gets the badge through "Premium" |
| Plans.EssentialPlanBadge | src/pages/Plans.tsx:84 | "Essential Plan" gets no badge |
| Plans.UltimateCoverageBadge | src/pages/Plans.tsx:84 | "Ultimate Coverage" gets the badge through "Ultimate" |
| Plans.StandardProtectionBadge | src/pages/Plans.tsx:84 | "Standard Protection" gets no badge |
| Plans.CompleteCareBadge | src/pages/Plans.tsx:84 | "Complete Care" gets no badge |
| Plans.AppleRows | src/pages/Plans.tsx:18-20 | of the Apple rows only "Premium Protection" is recommendable |
| Plans.SamsungRows | src/pages/Plans.tsx:18-20 | of the Samsung rows only "Ultimate Coverage" is recommendable |
| Plans.PixelRows | src/pages/Plans.tsx:18-20 | neither Google Pixel row is recommendable |
| Plans.FilterFrom | src/pages/Plans.tsx:18-21 | filtering from position `k` keeps element `k` when it passes, then filters the rest |
| Plans.FilterKeepsSecondAndFourth | src/pages/Plans.tsx:18-21 | on ten rows where only the second and fourth pass, `filter` gives exactly those two |
| Plans.RecommendedOfRows | src/pages/Plans.tsx:17-22 | ten rows with the table's names and brands recommend exactly the second and fourth row |
| Plans.RecommendedFromCatalog | src/data/planData.ts:16-162 | over the shipped table the recommendations are the iPhone 15 Pro Max "Premium Protection" and the Galaxy S24 Ultra "Ultimate Coverage" |
| Plans.FeatureLabelsAndIcons | src/pages/Plans.tsx:53-71 | a feature gets its own label exactly when it gets its own icon, exactly for the four plan features; the four labels and icons are distinct |
| Plans.CatalogReachable | src/data/phoneData.ts:1-9 | every plan in the table has a brand the picker offers and a model among that brand's options |
| Plans.PlansForMembers | src/pages/Plans.tsx:35-37 | the plans found are exactly the table's plans for that brand and model |
| Plans.FilterNone | src/pages/Plans.tsx:35-37 | a test that rejects every element leaves nothing |
| Plans.FilterKeepsFirstTwo | src/pages/Plans.tsx:35-37 | when only the first two elements pass, `filter` gives exactly those two |
| Plans.FilterKeepsPair | src/pages/Plans.tsx:35-37 | when only two adjacent elements pass, `filter` gives exactly those two, in order |
| Plans.TwoPlansPerPhone | src/data/planData.ts:16-162 | the iPhone 15 Pro Max and the Galaxy S24 Ultra each have their basic plan then their popular plan; a listed phone absent from the table has none |
| Plans.SearchStartedSpec | src/pages/Plans.tsx:26-33 | a click without both choices changes nothing; with them it queues a search for exactly the chosen phone, sets loading, hides the comparison, and leaves the choices and shown plans unchanged |
| Plans.SearchCompletedSpec | src/pages/Plans.tsx:35-39 | when a search ends it shows exactly the table's plans for the phone read at the click, whatever is chosen now, and clears loading |
| Plans.UninterruptedSearch | src/pages/Plans.tsx:26-40 | a search that nothing interrupts shows exactly the table's plans for the chosen phone, in table order, with loading off and the comparison hidden |
| Plans.HandlersKeepConsistent | src/pages/Plans.tsx:26-51 | while every pending search is for the chosen brand, the shown plans are from the table and of that brand; every handler keeps this, except a brand change or reset during a search |
| Plans.StaleSearchShowsOtherPhone | src/pages/Plans.tsx:26-51 | a brand change to Samsung, or a reset, during an iPhone 15 Pro Max search ends with the two Apple plans shown under the wrong brand |
| Plans.ResetSpec | src/pages/Plans.tsx:46-51 | reset clears brand, model, results and comparison; it keeps the loading flag and the pending searches; it disables itself and is idempotent |
| Plans.BrandChangeNeedsModel | src/pages/Plans.tsx:205-210 | after a brand change "Find Plans" is disabled and a search changes nothing |
| Plans.PlansPage.constructor | src/pages/Plans.tsx:10-14 | the page starts with nothing chosen, no plans, not loading and no comparison |
| Plans.PlansPage.GeneratePlans | src/pages/Plans.tsx:26-33 | the page state becomes `SearchStarted` of the old state |
| Plans.PlansPage.SearchDelayElapsed | src/pages/Plans.tsx:35-39 | the page state becomes `SearchCompleted` of the old state: the oldest search ends |
| Plans.PlansPage.SelectBrand | src/pages/Plans.tsx:205-210 | the brand is set; the model, the results and the comparison are cleared |
| Plans.PlansPage.SelectModel | src/pages/Plans.tsx:222 | only the model changes |
| Plans.PlansPage.Reset | src/pages/Plans.tsx:46-51 | the page state becomes `ResetSelection` of the old state |
| Plans.PlansPage.ToggleComparison | src/pages/Plans.tsx:279-287 | with more than one plan shown, the comparison flag flips |
| Contact.WithField | src/pages/Contact.tsx:15-21 | the named field takes the value and the other three keep theirs |
| Contact.IndexOf | src/pages/Contact.tsx:33 | the position of the first occurrence of a character, or none when it does not occur |
| Contact.ValidEmailMatches | src/pages/Contact.tsx:33-37 | every address the computed test accepts matches the pattern |
| Contact.MatchesAreValid | src/pages/Contact.tsx:33-37 | every split that fits the pattern makes the computed test accept |
| Contact.ValidEmailIffPattern | src/pages/Contact.tsx:33-37 | the computed test accepts exactly the addresses the pattern matches |
| Contact.FirstAt | src/pages/Contact.tsx:33 | the computed test splits at the first `@` of the address |
| Contact.SpaceRefused | src/pages/Contact.tsx:33-37 | an address with white space at any position is refused |
| Contact.SecondAtRefused | src/pages/Contact.tsx:33-37 | an address with two `@`, at any positions, is refused |
| Contact.DomainWithoutInnerDotRefused | src/pages/Contact.tsx:33-37 | an address whose domain after the first `@` has no `.` with a character on each side is refused |
| Contact.CheckSpec | src/pages/Contact.tsx:23-37 | accepted exactly when all fields are filled and the address matches; missing fields exactly when some field is empty, reported before a bad address |
| Contact.ClearedFormIsRejected | src/pages/Contact.tsx:27-54 | the cleared form fails the required check |
| Contact.ContactForm.constructor | src/pages/Contact.tsx:7-13 | empty fields, not submitting |
| Contact.ContactForm.HandleInputChange | src/pages/Contact.tsx:15-21 | only the named field changes |
| Contact.ContactForm.HandleSubmit | src/pages/Contact.tsx:23-42 | the verdict is the check of the current form; a rejected form changes nothing; an accepted one sets `isSubmitting` and starts a send |
| Contact.ContactForm.SendCompleted | src/pages/Contact.tsx:44-54 | when a send completes, every field is cleared, including text typed during the delay, and `isSubmitting` drops |

## Left out

- The CMS SDK is foreign.
  - Its query builder is modelled as the log of calls made on it.
  - `find()` is a parameter that either rejects or resolves to an envelope.
  - `toJSON()` and the network round trip are not modelled.
- `src/lib/contentstack.ts` is reduced to whether a client exists. The
  environment variables are parameters, and the warning is not modelled.
- JavaScript numbers are integers here, so fractions, `NaN` and infinities
  are not modelled.
- `where` is an object or absent. A string, array or other value passed as
  `where` is not modelled.
- The texts inside the mock fixtures are not carried. Only their shape is
  kept: the two testimonials, the page bundles' top-level keys in order, and
  `[]`. Nested parts are opaque truthy values.
- The async windows are not modelled. A hook call settles as one event, and
  the order in which overlapping calls settle is an input to the model. No
  cleanup or cancellation exists in the source either.
- Console output and `alert` messages are left out. They do not change state.
- Prices, deductibles, features and ratings of the plan table are left out.
  Only the columns the finder reads are kept: id, brand, model and name.
  `handleEnrollNow` only shows an alert.
- Plans.PlansPage.GeneratePlans: the 1500 ms delay is split into the click
  and `SearchDelayElapsed`, and searches end in the order they started. The
  `loading` prop of the "Find Plans" button (line 232) is not modelled,
  since the `Button` component is not part of this model. So the model also
  admits a click while a search is under way.
- Contact.ContactForm.HandleSubmit: the 1000 ms delay is split into
  `HandleSubmit` and `SendCompleted`. The `loading` prop of the send button
  is not modelled either, so the model also admits a submit during a send.
- Js.Keys: object keys are kept in insertion order. JavaScript lists
  index-like keys first, which matters only for a caller's `where` or
  `filters` object with such keys.
- Contact.ContactForm.HandleInputChange: only the four input names of the
  form are modelled. An event whose `name` is another string would add a
  property and is not modelled.
- Contact.ValidEmailIffPattern: the pattern is proved equal to the computed
  test as languages. No particular accepted address is proved.
- The presentation components and the pages not named above are not part of
  this model: layout, cards, selects, About, Home and the test set-up files.
