/** The content service of src/services/contentstack.ts: `fetchEntries`,
    which drives the CMS query builder and falls back to mock data, the
    mock fixtures, and the typed accessors that build a `where` object and
    call `fetchEntries`. The CMS itself is an oracle: whether a client is
    configured, and how `find()` ends. */
module Service {
  import opened Js
  import opened Query

  /** The CMS client handle (src/lib/contentstack.ts:11-17). */
  datatype Client = Unconfigured | Configured

  /** A client is built only when the API key, the delivery token and the
      environment are all truthy. */
  function ClientFor(apiKey: Option<string>, deliveryToken: Option<string>, environment: Option<string>): (c: Client)
    ensures c.Configured? <==> TruthyStr(apiKey) && TruthyStr(deliveryToken) && TruthyStr(environment)
  {
    if TruthyStr(apiKey) && TruthyStr(deliveryToken) && TruthyStr(environment)
    then Configured
    else Unconfigured
  }

  /** How the CMS answers `find()` on the built query. */
  datatype FindOutcome = Rejected | Resolved(envelope: Json)

  /** The content type a query was opened on and the builder calls made on it. */
  datatype Request = Request(contentType: string, ops: seq<QueryOp>)

  /** The envelope `find()` resolves with: the entries, then their count. */
  function Envelope(entries: seq<Json>, count: int): Json
  {
    Arr([Arr(entries), Num(count)])
  }

  /** `result[0][0]`; `None` when evaluating it throws. */
  function Unwrap(envelope: Json): Option<Json>
  {
    match ElementZero(envelope)
    case None => None
    case Some(first) => ElementZero(first)
  }

  /** For a well-formed envelope, `result[0][0]` is the first entry, or
      `undefined` when there is none. */
  lemma UnwrapEnvelope(entries: seq<Json>, count: int)
    ensures Unwrap(Envelope(entries, count)) == Some(if |entries| > 0 then entries[0] else Undefined)
  {
  }

  // ---------------------------------------------------------------------
  // Mock data (lines 276-492)

  /** The two canned testimonials. */
  const MockTestimonials: seq<Json> := [
    Obj([("content", Str("Fantastic service, quick repair!")), ("author_name", Str("Jane D."))]),
    Obj([("content", Str("Saved me hundreds after my phone was stolen!")), ("author_name", Str("Mark S."))])
  ]

  predicate IsPageBundle(contentType: string)
  {
    contentType == "contact_us_page" || contentType == "about_page" || contentType == "home_page"
  }

  /** The top-level fields of the page fixtures, in source order. */
  function BundleKeys(contentType: string): seq<string>
  {
    if contentType == "contact_us_page" then
      ["title", "description", "contact_title", "contact_details", "chat_details", "bussiness_hours"]
    else if contentType == "about_page" then
      ["title", "description", "mission_title", "mission_description", "story_title",
       "story_description", "values_titlle", "stats_cards", "values_references"]
    else if contentType == "home_page" then
      ["title", "hero_banner", "service_section", "features_section", "testimonials_section", "cta_section"]
    else []
  }

  /** A page fixture: its fields, each holding fixed content the model does
      not carry. */
  function Bundle(contentType: string): Json
  {
    var keys := BundleKeys(contentType);
    Obj(seq(|keys|, i requires 0 <= i < |keys| => (keys[i], Opaque(contentType + "." + keys[i]))))
  }

  /** `getMockData`: a total lookup by content type. Two testimonials, a
      record for each of the three pages, and `[]` for every other type. The
      fallback is always truthy. */
  function MockData(contentType: string): (r: Json)
    ensures Truthy(r)
    ensures contentType == "testimonials" ==> r == Arr(MockTestimonials)
    ensures IsPageBundle(contentType) ==> r.Obj? && Keys(r.fields) == BundleKeys(contentType)
    ensures contentType != "testimonials" && !IsPageBundle(contentType) ==> r == Arr([])
  {
    if contentType == "testimonials" then Arr(MockTestimonials)
    else if IsPageBundle(contentType) then Bundle(contentType)
    else Arr([])
  }

  // ---------------------------------------------------------------------
  // fetchEntries (lines 4-96)

  /** What `fetchEntries` resolves to: mock data when no client is
      configured, when `find()` rejects, or when reading `result[0][0]`
      throws; `result[0][0]` otherwise. */
  function Resolution(client: Client, contentType: string, find: FindOutcome): Json
  {
    if client.Unconfigured? then MockData(contentType)
    else match find
      case Rejected => MockData(contentType)
      case Resolved(envelope) =>
        match Unwrap(envelope)
        case Some(v) => v
        case None => MockData(contentType)
  }

  /** The request the CMS receives: none at all without a client. */
  function Sent(client: Client, contentType: string, options: QueryOptions): Option<Request>
  {
    if client.Configured? then Some(Request(contentType, Translate(options))) else None
  }

  /** Lines 26-32: one `where` call per property whose value is not
      `undefined`, in key order. */
  method WhereCalls(w: Fields) returns (ops: seq<QueryOp>)
    ensures ops == WhereOps(w)
  {
    ops := [];
    var i := 0;
    while i < |w|
      invariant 0 <= i <= |w|
      invariant ops == WhereOps(w[..i])
    {
      if w[i].1 != Undefined {
        ops := ops + [Where(w[i].0, w[i].1)];
      }
      assert w[..i + 1][..i] == w[..i];
      i := i + 1;
    }
    assert w[..|w|] == w;
  }

  /** Lines 35-39: one `includeReference` call per path, in order. */
  method IncludeCalls(paths: seq<string>) returns (ops: seq<QueryOp>)
    ensures ops == IncludeOps(paths)
  {
    ops := [];
    var j := 0;
    while j < |paths|
      invariant 0 <= j <= |paths|
      invariant ops == IncludeOps(paths[..j])
    {
      ops := ops + [IncludeReference(paths[j])];
      assert paths[..j + 1][..j] == paths[..j];
      j := j + 1;
    }
    assert paths[..|paths|] == paths;
  }

  /** The builder calls of lines 23-88 for `options`. Each `if` statement
      of the source writes the calls it issues into its own list, and the
      lists are joined in statement order. */
  method BuildQuery(options: QueryOptions) returns (ops: seq<QueryOp>)
    ensures ops == Translate(options)
  {
    var wheres: seq<QueryOp> := [];
    if options.where.Some? {
      wheres := WhereCalls(options.where.value);
    }
    var includes: seq<QueryOp> := [];
    if options.includePaths.Some? && |options.includePaths.value| > 0 {
      includes := IncludeCalls(options.includePaths.value);
    }
    var only: seq<QueryOp> := [];
    if options.only.Some? && |options.only.value| > 0 {
      only := [Only(options.only.value)];
    }
    assert only == OnlyStage(options);
    var except: seq<QueryOp> := [];
    if options.except.Some? && |options.except.value| > 0 {
      except := [Except(options.except.value)];
    }
    assert except == ExceptStage(options);
    var limit: seq<QueryOp> := [];
    if options.limit.Some? && options.limit.value != 0 {
      limit := [Limit(options.limit.value)];
    }
    assert limit == LimitStage(options);
    var skip: seq<QueryOp> := [];
    if options.skip.Some? && options.skip.value != 0 {
      skip := [Skip(options.skip.value)];
    }
    assert skip == SkipStage(options);
    var order: seq<QueryOp> := [];
    if options.order.Some? && options.order.value != "" {
      if options.order.value[0] == '-' {
        order := [Descending(options.order.value[1..])];
      } else {
        order := [Ascending(options.order.value)];
      }
    }
    assert order == OrderOps(options.order);
    var locale: seq<QueryOp> := [];
    if options.locale.Some? && options.locale.value != "" {
      locale := [Language(options.locale.value)];
    }
    assert locale == LocaleStage(options);
    var count: seq<QueryOp> := [];
    if options.includeCount == Some(true) {
      count := [IncludeCount];
    }
    var contentType: seq<QueryOp> := [];
    if options.includeContentType == Some(true) {
      contentType := [IncludeContentType];
    }
    var fallback: seq<QueryOp> := [];
    if options.includeFallback == Some(true) {
      fallback := [IncludeFallback];
    }
    assert count + (contentType + fallback) == FlagStage(options.includeCount, IncludeCount)
      + (FlagStage(options.includeContentType, IncludeContentType) + FlagStage(options.includeFallback, IncludeFallback));
    ops := wheres + (includes + (only + (except + (limit + (skip + (order + (locale + (count + (contentType + fallback)))))))));
    TranslateAllStages(options);
  }

  /** `fetchEntries`: mock data without a client; otherwise the query is
      built and sent, and the answer is `result[0][0]`, with mock data when
      `find()` rejects or the read throws. */
  method FetchEntries(client: Client, contentType: string, options: QueryOptions, find: FindOutcome)
    returns (result: Json, sent: Option<Request>)
    ensures client.Unconfigured? ==> sent == None && result == MockData(contentType)
    ensures client.Configured? ==> sent == Some(Request(contentType, Translate(options)))
    ensures client.Configured? && find.Rejected? ==> result == MockData(contentType)
    ensures client.Configured? && find.Resolved? ==>
      result == (match Unwrap(find.envelope) case Some(v) => v case None => MockData(contentType))
    ensures result == Resolution(client, contentType, find)
    ensures sent == Sent(client, contentType, options)
  {
    if client.Unconfigured? {
      return MockData(contentType), None;
    }
    var ops := BuildQuery(options);
    sent := Some(Request(contentType, ops));
    match find
    case Rejected =>
      result := MockData(contentType);
    case Resolved(envelope) =>
      var entry := Unwrap(envelope);
      result := if entry.Some? then entry.value else MockData(contentType);
  }

  // ---------------------------------------------------------------------
  // Typed accessors (lines 98-273). Each builds its options, calls
  // `fetchEntries`, and so sends `Sent(...)` and resolves to `Resolution(...)`.

  /** `obj[k] = v` when `cond` holds, keeping keys unique. */
  function AssignIf(f: Fields, cond: bool, k: string, v: Json): (r: Fields)
    requires UniqueKeys(f)
    ensures UniqueKeys(r)
    ensures forall k' {:trigger Lookup(r, k')} ::
      Lookup(r, k') == if cond && k' == k then v else Lookup(f, k')
    ensures cond && !HasKey(f, k) ==> r == f + [(k, v)]
  {
    if cond then
      AssignKeepsUnique(f, k, v);
      AssignLookup(f, k, v);
      AssignShape(f, k, v);
      Assign(f, k, v)
    else f
  }

  // getInsurancePlans (lines 99-120)

  datatype PriceRange = PriceRange(min: int, max: int)

  datatype PlansOptions = PlansOptions(limit: Option<int>, featured: Option<bool>, priceRange: Option<PriceRange>)

  const NoPlansOptions: PlansOptions := PlansOptions(None, None, None)

  /** `{ $gte: min, $lte: max }` */
  function PriceBetween(r: PriceRange): Json
  {
    Obj([("$gte", Num(r.min)), ("$lte", Num(r.max))])
  }

  /** What the plans filter asks of each field. */
  function PlansCondition(brand: Option<string>, model: Option<string>, opts: PlansOptions, k: string): Json
  {
    if k == "brand" && TruthyStr(brand) then Str(brand.value)
    else if k == "model" && TruthyStr(model) then Str(model.value)
    else if k == "is_featured" && TruthyBool(opts.featured) then Bool(true)
    else if k == "price" && opts.priceRange.Some? then PriceBetween(opts.priceRange.value)
    else Undefined
  }

  /** The `where` object of `getInsurancePlans`. */
  function PlansWhere(brand: Option<string>, model: Option<string>, opts: PlansOptions): (w: Fields)
    ensures UniqueKeys(w)
  {
    var q1 := AssignIf([], TruthyStr(brand), "brand", OfStr(brand));
    var q2 := AssignIf(q1, TruthyStr(model), "model", OfStr(model));
    var q3 := AssignIf(q2, TruthyBool(opts.featured), "is_featured", Bool(true));
    AssignIf(q3, opts.priceRange.Some?, "price",
             if opts.priceRange.Some? then PriceBetween(opts.priceRange.value) else Undefined)
  }

  function PlansQuery(brand: Option<string>, model: Option<string>, opts: PlansOptions): QueryOptions
  {
    NoOptions.(where := Some(PlansWhere(brand, model, opts)), limit := opts.limit, order := Some("-created_at"))
  }

  method GetInsurancePlans(client: Client, brand: Option<string>, model: Option<string>, opts: PlansOptions, find: FindOutcome)
    returns (result: Json, sent: Option<Request>)
    ensures sent == Sent(client, "insurance_plan", PlansQuery(brand, model, opts))
    ensures result == Resolution(client, "insurance_plan", find)
  {
    var query: Fields := [];
    if TruthyStr(brand) {
      query := Assign(query, "brand", Str(brand.value));
    }
    if TruthyStr(model) {
      query := Assign(query, "model", Str(model.value));
    }
    if TruthyBool(opts.featured) {
      query := Assign(query, "is_featured", Bool(true));
    }
    if opts.priceRange.Some? {
      query := Assign(query, "price", PriceBetween(opts.priceRange.value));
    }
    result, sent := FetchEntries(client, "insurance_plan",
      NoOptions.(where := Some(query), limit := opts.limit, order := Some("-created_at")), find);
  }

  /** Each field of the plans filter reads as its condition. */
  lemma PlansWhereReads(brand: Option<string>, model: Option<string>, opts: PlansOptions, k: string)
    ensures Lookup(PlansWhere(brand, model, opts), k) == PlansCondition(brand, model, opts, k)
  {
    var q1 := AssignIf([], TruthyStr(brand), "brand", OfStr(brand));
    var q2 := AssignIf(q1, TruthyStr(model), "model", OfStr(model));
    var q3 := AssignIf(q2, TruthyBool(opts.featured), "is_featured", Bool(true));
    assert Lookup(q1, k) == if TruthyStr(brand) && k == "brand" then Str(brand.value) else Undefined;
    assert Lookup(q2, k) == if TruthyStr(model) && k == "model" then Str(model.value) else Lookup(q1, k);
    assert Lookup(q3, k) == if TruthyBool(opts.featured) && k == "is_featured" then Bool(true) else Lookup(q2, k);
  }

  /** The plans query has a `where` call for exactly the given brand, model,
      featured flag and price range. */
  lemma PlansWhereCalls(brand: Option<string>, model: Option<string>, opts: PlansOptions, k: string, v: Json)
    ensures Where(k, v) in Translate(PlansQuery(brand, model, opts)) <==>
      v == PlansCondition(brand, model, opts, k) && v != Undefined
  {
    PlansWhereReads(brand, model, opts, k);
    WhereCallsOfObject(PlansQuery(brand, model, opts), PlansWhere(brand, model, opts), k, v);
  }

  /** The plans query is limited by a non-zero limit and sorted newest first. */
  lemma PlansLimitAndOrder(brand: Option<string>, model: Option<string>, opts: PlansOptions, n: int)
    ensures Limit(n) in Translate(PlansQuery(brand, model, opts)) <==> opts.limit == Some(n) && n != 0
    ensures Descending("created_at") in Translate(PlansQuery(brand, model, opts))
  {
    var o := PlansQuery(brand, model, opts);
    LimitTranslation(o, n);
    OrderTranslation(o, "created_at");
    assert o.order == Some(['-'] + "created_at");
  }

  /** With default options the filter holds the brand, then the model,
      each only when given. */
  lemma PlansDefaultWhere(brand: Option<string>, model: Option<string>)
    ensures PlansWhere(brand, model, NoPlansOptions) ==
      (if TruthyStr(brand) then [("brand", Str(brand.value))] else [])
      + (if TruthyStr(model) then [("model", Str(model.value))] else [])
  {
    var q1 := AssignIf([], TruthyStr(brand), "brand", OfStr(brand));
    assert !HasKey(q1, "model") by {
      if TruthyStr(brand) {
        assert Keys(q1) == ["brand"];
      }
    }
  }

  /** With default options the plans query is exactly: brand, then model
      when given, then newest first. */
  lemma PlansDefaultCalls(brand: Option<string>, model: Option<string>)
    ensures Translate(PlansQuery(brand, model, NoPlansOptions)) ==
      (if TruthyStr(brand) then [Where("brand", Str(brand.value))] else [])
      + (if TruthyStr(model) then [Where("model", Str(model.value))] else [])
      + [Descending("created_at")]
  {
    var w := PlansWhere(brand, model, NoPlansOptions);
    FilterThenOrder(PlansQuery(brand, model, NoPlansOptions), w, "-created_at");
    PlansDefaultWhereOps(brand, model);
    assert "-created_at"[0] == '-' && "-created_at"[1..] == "created_at";
  }

  /** The `where` calls of the default plans filter: brand, then model,
      each only when given. */
  lemma PlansDefaultWhereOps(brand: Option<string>, model: Option<string>)
    ensures WhereOps(PlansWhere(brand, model, NoPlansOptions)) ==
      (if TruthyStr(brand) then [Where("brand", Str(brand.value))] else [])
      + (if TruthyStr(model) then [Where("model", Str(model.value))] else [])
  {
    var wb: Fields := if TruthyStr(brand) then [("brand", Str(brand.value))] else [];
    var wm: Fields := if TruthyStr(model) then [("model", Str(model.value))] else [];
    PlansDefaultWhere(brand, model);
    WhereOpsAppend(wb, wm);
    if TruthyStr(brand) {
      WhereOpsSingle("brand", Str(brand.value));
    }
    if TruthyStr(model) {
      WhereOpsSingle("model", Str(model.value));
    }
  }

  // getPhoneModels (lines 122-135)

  datatype PhoneModelsOptions = PhoneModelsOptions(limit: Option<int>, includeSpecs: Option<bool>)

  function PhoneModelsQuery(brand: Option<string>, opts: PhoneModelsOptions): QueryOptions
  {
    NoOptions.(where := Some(AssignIf([], TruthyStr(brand), "brand", OfStr(brand))),
               limit := opts.limit,
               includePaths := if TruthyBool(opts.includeSpecs) then Some(["specifications"]) else None,
               order := Some("model_name"))
  }

  method GetPhoneModels(client: Client, brand: Option<string>, opts: PhoneModelsOptions, find: FindOutcome)
    returns (result: Json, sent: Option<Request>)
    ensures sent == Sent(client, "phone_model", PhoneModelsQuery(brand, opts))
    ensures result == Resolution(client, "phone_model", find)
  {
    var query: Fields := [];
    if TruthyStr(brand) {
      query := Assign(query, "brand", Str(brand.value));
    }
    result, sent := FetchEntries(client, "phone_model",
      NoOptions.(where := Some(query), limit := opts.limit,
                 includePaths := if TruthyBool(opts.includeSpecs) then Some(["specifications"]) else None,
                 order := Some("model_name")), find);
  }

  /** Phone models are filtered by brand only when one is given, include
      their specifications only on request, and sort by model name. */
  lemma PhoneModelsCalls(brand: Option<string>, opts: PhoneModelsOptions, k: string, v: Json, path: string)
    ensures Where(k, v) in Translate(PhoneModelsQuery(brand, opts)) <==>
      k == "brand" && TruthyStr(brand) && v == Str(brand.value)
    ensures IncludeReference(path) in Translate(PhoneModelsQuery(brand, opts)) <==>
      TruthyBool(opts.includeSpecs) && path == "specifications"
    ensures Ascending("model_name") in Translate(PhoneModelsQuery(brand, opts))
  {
    var o := PhoneModelsQuery(brand, opts);
    WhereCallsOfObject(o, o.where.value, k, v);
    IncludeTranslation(o, path);
    OrderTranslation(o, "model_name");
  }

  // getHeroContent (lines 137-146)

  datatype LocaleOptions = LocaleOptions(locale: Option<string>, includeReferences: Option<bool>)

  const NoLocaleOptions: LocaleOptions := LocaleOptions(None, None)

  /** `include` as the page accessors pass it: the paths when the flag is
      set, `undefined` otherwise. */
  function IncludeWhen(flag: Option<bool>, paths: seq<string>): Option<seq<string>>
  {
    if TruthyBool(flag) then Some(paths) else None
  }

  function HeroQuery(page: string, opts: LocaleOptions): QueryOptions
  {
    NoOptions.(where := Some([("page", Str(page))]), locale := opts.locale,
               includePaths := IncludeWhen(opts.includeReferences, ["background_image", "cta_button"]))
  }

  method GetHeroContent(client: Client, page: string, opts: LocaleOptions, find: FindOutcome)
    returns (result: Json, sent: Option<Request>)
    ensures sent == Sent(client, "hero_section", HeroQuery(page, opts))
    ensures result == Resolution(client, "hero_section", find)
  {
    result, sent := FetchEntries(client, "hero_section", HeroQuery(page, opts), find);
  }

  /** The hero query always filters on the page, even an empty one, then
      includes the assets on request, then sets the locale. */
  lemma HeroCalls(page: string, opts: LocaleOptions)
    ensures Translate(HeroQuery(page, opts)) ==
      [Where("page", Str(page))]
      + (if TruthyBool(opts.includeReferences) then [IncludeReference("background_image"), IncludeReference("cta_button")] else [])
      + (if TruthyStr(opts.locale) then [Language(opts.locale.value)] else [])
  {
    var o := HeroQuery(page, opts);
    PlainQueryTranslation(o);
    WhereOpsSingle("page", Str(page));
    assert IncludeOps(["background_image", "cta_button"]) == [IncludeReference("background_image"), IncludeReference("cta_button")];
  }

  // getBenefits (lines 148-163)

  datatype BenefitsOptions = BenefitsOptions(limit: Option<int>, featured: Option<bool>, locale: Option<string>)

  const NoBenefitsOptions: BenefitsOptions := BenefitsOptions(None, None, None)

  function BenefitsWhere(page: Option<string>, opts: BenefitsOptions): (w: Fields)
    ensures UniqueKeys(w)
  {
    AssignIf(AssignIf([], TruthyStr(page), "page", OfStr(page)), TruthyBool(opts.featured), "is_featured", Bool(true))
  }

  function BenefitsQuery(page: Option<string>, opts: BenefitsOptions): QueryOptions
  {
    NoOptions.(where := Some(BenefitsWhere(page, opts)), limit := opts.limit, locale := opts.locale, order := Some("order"))
  }

  method GetBenefits(client: Client, page: Option<string>, opts: BenefitsOptions, find: FindOutcome)
    returns (result: Json, sent: Option<Request>)
    ensures sent == Sent(client, "benefits", BenefitsQuery(page, opts))
    ensures result == Resolution(client, "benefits", find)
  {
    var query: Fields := [];
    if TruthyStr(page) {
      query := Assign(query, "page", Str(page.value));
    }
    if TruthyBool(opts.featured) {
      query := Assign(query, "is_featured", Bool(true));
    }
    result, sent := FetchEntries(client, "benefits",
      NoOptions.(where := Some(query), limit := opts.limit, locale := opts.locale, order := Some("order")), find);
  }

  /** Benefits are filtered by page and featured flag only when given, and
      sort ascending on `order`. */
  lemma BenefitsCalls(page: Option<string>, opts: BenefitsOptions, k: string, v: Json)
    ensures Where(k, v) in Translate(BenefitsQuery(page, opts)) <==>
      (k == "page" && TruthyStr(page) && v == Str(page.value))
      || (k == "is_featured" && TruthyBool(opts.featured) && v == Bool(true))
    ensures Ascending("order") in Translate(BenefitsQuery(page, opts))
  {
    var o := BenefitsQuery(page, opts);
    var q1 := AssignIf([], TruthyStr(page), "page", OfStr(page));
    assert Lookup(q1, k) == if TruthyStr(page) && k == "page" then Str(page.value) else Undefined;
    WhereCallsOfObject(o, o.where.value, k, v);
    OrderTranslation(o, "order");
  }

  /** The call the benefits hook makes: exactly one ascending sort. */
  lemma BenefitsDefaultCalls()
    ensures Translate(BenefitsQuery(None, NoBenefitsOptions)) == [Ascending("order")]
  {
    PlainQueryTranslation(BenefitsQuery(None, NoBenefitsOptions));
  }

  // getTestimonials (lines 165-182)

  datatype TestimonialsOptions = TestimonialsOptions(limit: Option<int>, includeAuthor: Option<bool>, rating: Option<int>, locale: Option<string>)

  const NoTestimonialsOptions: TestimonialsOptions := TestimonialsOptions(None, None, None, None)

  /** `{ $gte: rating }` */
  function AtLeast(rating: int): Json
  {
    Obj([("$gte", Num(rating))])
  }

  function TestimonialsWhere(featured: Option<bool>, opts: TestimonialsOptions): (w: Fields)
    ensures UniqueKeys(w)
  {
    AssignIf(AssignIf([], TruthyBool(featured), "is_featured", Bool(true)),
             TruthyNum(opts.rating), "rating", if opts.rating.Some? then AtLeast(opts.rating.value) else Undefined)
  }

  function TestimonialsQuery(featured: Option<bool>, opts: TestimonialsOptions): QueryOptions
  {
    NoOptions.(where := Some(TestimonialsWhere(featured, opts)), limit := opts.limit,
               includePaths := IncludeWhen(opts.includeAuthor, ["author"]),
               locale := opts.locale, order := Some("-created_at"))
  }

  method GetTestimonials(client: Client, featured: Option<bool>, opts: TestimonialsOptions, find: FindOutcome)
    returns (result: Json, sent: Option<Request>)
    ensures sent == Sent(client, "testimonials", TestimonialsQuery(featured, opts))
    ensures result == Resolution(client, "testimonials", find)
  {
    var query: Fields := [];
    if TruthyBool(featured) {
      query := Assign(query, "is_featured", Bool(true));
    }
    if TruthyNum(opts.rating) {
      query := Assign(query, "rating", AtLeast(opts.rating.value));
    }
    result, sent := FetchEntries(client, "testimonials",
      NoOptions.(where := Some(query), limit := opts.limit,
                 includePaths := IncludeWhen(opts.includeAuthor, ["author"]),
                 locale := opts.locale, order := Some("-created_at")), find);
  }

  /** Testimonials are filtered by the featured flag and a non-zero minimum
      rating only when given, and sort newest first. */
  lemma TestimonialsCalls(featured: Option<bool>, opts: TestimonialsOptions, k: string, v: Json)
    ensures Where(k, v) in Translate(TestimonialsQuery(featured, opts)) <==>
      (k == "is_featured" && TruthyBool(featured) && v == Bool(true))
      || (k == "rating" && TruthyNum(opts.rating) && v == AtLeast(opts.rating.value))
    ensures Descending("created_at") in Translate(TestimonialsQuery(featured, opts))
  {
    var o := TestimonialsQuery(featured, opts);
    var q1 := AssignIf([], TruthyBool(featured), "is_featured", Bool(true));
    assert Lookup(q1, k) == if TruthyBool(featured) && k == "is_featured" then Bool(true) else Undefined;
    WhereCallsOfObject(o, o.where.value, k, v);
    OrderTranslation(o, "created_at");
    assert o.order == Some(['-'] + "created_at");
  }

  /** The call the testimonials hook makes. */
  lemma TestimonialsDefaultCalls(featured: Option<bool>)
    ensures Translate(TestimonialsQuery(featured, NoTestimonialsOptions)) ==
      (if TruthyBool(featured) then [Where("is_featured", Bool(true))] else []) + [Descending("created_at")]
  {
    PlainQueryTranslation(TestimonialsQuery(featured, NoTestimonialsOptions));
    assert "-created_at"[0] == '-' && "-created_at"[1..] == "created_at";
    WhereOpsSingle("is_featured", Bool(true));
  }

  // The page accessors (lines 184-226)

  function PageContentQuery(slug: string, opts: LocaleOptions): QueryOptions
  {
    NoOptions.(where := Some([("page_slug", Str(slug))]), locale := opts.locale,
               includePaths := IncludeWhen(opts.includeReferences, ["related_pages", "seo_settings"]))
  }

  method GetPageContent(client: Client, slug: string, opts: LocaleOptions, find: FindOutcome)
    returns (result: Json, sent: Option<Request>)
    ensures sent == Sent(client, "page_content", PageContentQuery(slug, opts))
    ensures result == Resolution(client, "page_content", find)
  {
    result, sent := FetchEntries(client, "page_content", PageContentQuery(slug, opts), find);
  }

  /** A page is always looked up by its slug. */
  lemma PageContentCalls(slug: string, opts: LocaleOptions)
    ensures Translate(PageContentQuery(slug, opts)) ==
      [Where("page_slug", Str(slug))]
      + (if TruthyBool(opts.includeReferences) then [IncludeReference("related_pages"), IncludeReference("seo_settings")] else [])
      + (if TruthyStr(opts.locale) then [Language(opts.locale.value)] else [])
  {
    PlainQueryTranslation(PageContentQuery(slug, opts));
    WhereOpsSingle("page_slug", Str(slug));
    assert IncludeOps(["related_pages", "seo_settings"]) == [IncludeReference("related_pages"), IncludeReference("seo_settings")];
  }

  /** The options of the three single-page accessors: a locale and the
      page's own reference paths on request. */
  function PageBundleQuery(opts: LocaleOptions, paths: seq<string>): QueryOptions
  {
    NoOptions.(locale := opts.locale, includePaths := IncludeWhen(opts.includeReferences, paths))
  }

  const ContactReferences: seq<string> := ["chat_details.icon"]
  const AboutReferences: seq<string> := ["values_references"]
  const HomeReferences: seq<string> := ["features_section.benefits_reference", "testimonials_section.testimonials_reference"]

  method GetContactPageContent(client: Client, opts: LocaleOptions, find: FindOutcome)
    returns (result: Json, sent: Option<Request>)
    ensures sent == Sent(client, "contact_us_page", PageBundleQuery(opts, ContactReferences))
    ensures result == Resolution(client, "contact_us_page", find)
  {
    result, sent := FetchEntries(client, "contact_us_page", PageBundleQuery(opts, ContactReferences), find);
  }

  /** `includeValues` plays the part of `includeReferences` here. */
  method GetAboutPageContent(client: Client, opts: LocaleOptions, find: FindOutcome)
    returns (result: Json, sent: Option<Request>)
    ensures sent == Sent(client, "about_page", PageBundleQuery(opts, AboutReferences))
    ensures result == Resolution(client, "about_page", find)
  {
    result, sent := FetchEntries(client, "about_page", PageBundleQuery(opts, AboutReferences), find);
  }

  method GetHomePageContent(client: Client, opts: LocaleOptions, find: FindOutcome)
    returns (result: Json, sent: Option<Request>)
    ensures sent == Sent(client, "home_page", PageBundleQuery(opts, HomeReferences))
    ensures result == Resolution(client, "home_page", find)
  {
    result, sent := FetchEntries(client, "home_page", PageBundleQuery(opts, HomeReferences), find);
  }

  /** A page query has no filter, no paging and no order: the reference
      paths on request, then the locale. */
  lemma PageBundleCalls(opts: LocaleOptions, paths: seq<string>)
    ensures Translate(PageBundleQuery(opts, paths)) ==
      (if TruthyBool(opts.includeReferences) then IncludeOps(paths) else [])
      + (if TruthyStr(opts.locale) then [Language(opts.locale.value)] else [])
  {
    PlainQueryTranslation(PageBundleQuery(opts, paths));
  }

  /** Without a client each page accessor answers with that page's fixture. */
  lemma PageFixtures(find: FindOutcome)
    ensures Resolution(Unconfigured, "contact_us_page", find).Obj?
    ensures Keys(Resolution(Unconfigured, "contact_us_page", find).fields) == BundleKeys("contact_us_page")
    ensures Keys(Resolution(Unconfigured, "about_page", find).fields) == BundleKeys("about_page")
    ensures Keys(Resolution(Unconfigured, "home_page", find).fields) == BundleKeys("home_page")
  {
  }

  // searchContent (lines 229-253)

  datatype SearchOptions = SearchOptions(
    searchTerm: Option<string>,
    searchFields: Option<seq<string>>,
    filters: Option<Fields>,
    limit: Option<int>,
    skip: Option<int>,
    locale: Option<string>)

  /** A text search is added only for a non-empty term with a field list,
      even an empty list. */
  predicate Searching(so: SearchOptions)
  {
    TruthyStr(so.searchTerm) && so.searchFields.Some?
  }

  /** `{ [field]: { $regex: term, $options: 'i' } }` */
  function RegexCondition(field: string, term: string): Json
  {
    Obj([(field, Obj([("$regex", Str(term)), ("$options", Str("i"))]))])
  }

  /** The `$or` array: one case-insensitive match per field, in order. */
  function OrConditions(fields: seq<string>, term: string): (v: Json)
    ensures v.Arr? && |v.items| == |fields|
    ensures forall i :: 0 <= i < |fields| ==> v.items[i] == RegexCondition(fields[i], term)
  {
    Arr(seq(|fields|, i requires 0 <= i < |fields| => RegexCondition(fields[i], term)))
  }

  /** `{ ...filters }`: a copy of the filter object, `{}` when absent. */
  function Spread(filters: Option<Fields>): Fields
  {
    if filters.Some? then filters.value else []
  }

  function SearchWhere(so: SearchOptions): Fields
  {
    if Searching(so)
    then Assign(Spread(so.filters), "$or", OrConditions(so.searchFields.value, so.searchTerm.value))
    else Spread(so.filters)
  }

  function SearchQuery(so: SearchOptions): QueryOptions
  {
    NoOptions.(where := Some(SearchWhere(so)), limit := so.limit, skip := so.skip, locale := so.locale)
  }

  method SearchContent(client: Client, contentType: string, so: SearchOptions, find: FindOutcome)
    returns (result: Json, sent: Option<Request>)
    ensures sent == Sent(client, contentType, SearchQuery(so))
    ensures result == Resolution(client, contentType, find)
  {
    var query := Spread(so.filters);
    if TruthyStr(so.searchTerm) && so.searchFields.Some? {
      var conditions := OrConditions(so.searchFields.value, so.searchTerm.value);
      query := Assign(query, "$or", conditions);
    }
    result, sent := FetchEntries(client, contentType,
      NoOptions.(where := Some(query), limit := so.limit, skip := so.skip, locale := so.locale), find);
  }

  /** A search filters on every given filter and, when searching, on `$or`
      instead of any `$or` filter; an empty term still sends the request. */
  lemma SearchCalls(so: SearchOptions, k: string, v: Json)
    requires so.filters.Some? ==> UniqueKeys(so.filters.value)
    ensures Where(k, v) in Translate(SearchQuery(so)) <==>
      if k == "$or" && Searching(so) then v == OrConditions(so.searchFields.value, so.searchTerm.value)
      else v != Undefined && Lookup(Spread(so.filters), k) == v
  {
    var o := SearchQuery(so);
    if Searching(so) {
      AssignKeepsUnique(Spread(so.filters), "$or", OrConditions(so.searchFields.value, so.searchTerm.value));
      AssignLookup(Spread(so.filters), "$or", OrConditions(so.searchFields.value, so.searchTerm.value));
    }
    WhereCallsOfObject(o, o.where.value, k, v);
  }

  // getPaginatedEntries (lines 256-273)

  datatype ListOptions = ListOptions(where: Option<Fields>, order: Option<string>, includePaths: Option<seq<string>>, locale: Option<string>)

  /** `page` and `pageSize` default to 1 and 10 when absent. */
  function PaginatedQuery(page: Option<int>, pageSize: Option<int>, opts: ListOptions): QueryOptions
  {
    var p := if page.Some? then page.value else 1;
    var size := if pageSize.Some? then pageSize.value else 10;
    NoOptions.(where := opts.where, limit := Some(size), skip := Some((p - 1) * size),
               order := opts.order, includePaths := opts.includePaths, locale := opts.locale,
               includeCount := Some(true))
  }

  method GetPaginatedEntries(client: Client, contentType: string, page: Option<int>, pageSize: Option<int>,
                             opts: ListOptions, find: FindOutcome)
    returns (result: Json, sent: Option<Request>)
    ensures sent == Sent(client, contentType, PaginatedQuery(page, pageSize, opts))
    ensures result == Resolution(client, contentType, find)
  {
    var p := if page.Some? then page.value else 1;
    var size := if pageSize.Some? then pageSize.value else 10;
    var skip := (p - 1) * size;
    result, sent := FetchEntries(client, contentType,
      NoOptions.(where := opts.where, limit := Some(size), skip := Some(skip),
                 order := opts.order, includePaths := opts.includePaths, locale := opts.locale,
                 includeCount := Some(true)), find);
  }

  /** Page `p` of size `s` limits to `s` (no limit call for size 0) and
      always asks for the total count. */
  lemma PaginationLimit(page: int, size: int, opts: ListOptions, n: int)
    ensures Limit(n) in Translate(PaginatedQuery(Some(page), Some(size), opts)) <==> n == size && size != 0
    ensures IncludeCount in Translate(PaginatedQuery(Some(page), Some(size), opts))
  {
    var o := PaginatedQuery(Some(page), Some(size), opts);
    LimitTranslation(o, n);
    CountTranslation(o);
  }

  /** Page `p` of size `s` skips the `(p - 1) * s` entries of the earlier
      pages; the first page issues no skip call. */
  lemma PaginationSkip(page: int, size: int, opts: ListOptions, n: int)
    ensures Skip(n) in Translate(PaginatedQuery(Some(page), Some(size), opts)) <==>
      n == (page - 1) * size && page != 1 && size != 0
  {
    var o := PaginatedQuery(Some(page), Some(size), opts);
    SkipTranslation(o, n);
    if page != 1 && size != 0 {
      assert (page - 1) * size != 0;
    }
  }

  /** The defaults: page 1 of 10 entries, so a limit of 10 and no skip. */
  lemma PaginationDefaults(opts: ListOptions, n: int)
    ensures Limit(n) in Translate(PaginatedQuery(None, None, opts)) <==> n == 10
    ensures Skip(n) !in Translate(PaginatedQuery(None, None, opts))
  {
    var o := PaginatedQuery(None, None, opts);
    LimitTranslation(o, n);
    SkipTranslation(o, n);
  }
}
