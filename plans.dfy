/** The plan finder of src/pages/Plans.tsx: the recommended plans, the
    brand and model selection, the plan search over the shipped plan table
    (src/data/planData.ts) and the phone list (src/data/phoneData.ts), and
    the labels of plan features. The page's state is a class; its handlers
    are methods. */
module Plans {
  import opened Js

  /** A row of the plan table: the columns the finder reads. */
  datatype InsurancePlan = InsurancePlan(id: string, brand: string, model: string, name: string)

  /** The rows of the plan table (src/data/planData.ts:16-162). */
  const Plan1: InsurancePlan := InsurancePlan("plan-1-iphone15promax", "Apple", "iPhone 15 Pro Max", "Basic Cover")
  const Plan2: InsurancePlan := InsurancePlan("plan-2-iphone15promax", "Apple", "iPhone 15 Pro Max", "Premium Protection")
  const Plan3: InsurancePlan := InsurancePlan("plan-3-galaxys24ultra", "Samsung", "Galaxy S24 Ultra", "Essential Plan")
  const Plan4: InsurancePlan := InsurancePlan("plan-4-galaxys24ultra", "Samsung", "Galaxy S24 Ultra", "Ultimate Coverage")
  const Plan5: InsurancePlan := InsurancePlan("plan-5-pixel8pro", "Google Pixel", "Pixel 8 Pro", "Standard Protection")
  const Plan6: InsurancePlan := InsurancePlan("plan-6-pixel8pro", "Google Pixel", "Pixel 8 Pro", "Complete Care")
  const Plan7: InsurancePlan := InsurancePlan("plan-7-oneplus12", "OnePlus", "OnePlus 12", "Basic Shield")
  const Plan8: InsurancePlan := InsurancePlan("plan-8-oneplus12", "OnePlus", "OnePlus 12", "Premium Shield")
  const Plan9: InsurancePlan := InsurancePlan("plan-9-xiaomi14ultra", "Xiaomi", "Xiaomi 14 Ultra", "Essential Guard")
  const Plan10: InsurancePlan := InsurancePlan("plan-10-xiaomi14ultra", "Xiaomi", "Xiaomi 14 Ultra", "Ultimate Guard")

  /** The plan table, in source order. */
  const Catalog: seq<InsurancePlan> := [Plan1, Plan2, Plan3, Plan4, Plan5, Plan6, Plan7, Plan8, Plan9, Plan10]

  /** The brands, in the key order of the phone list (src/data/phoneData.ts:9). */
  const PhoneBrands: seq<string> := ["Apple", "Samsung", "Google Pixel", "OnePlus", "Xiaomi"]

  /** The models of a listed brand (src/data/phoneData.ts:1-7); `None` for
      any other string, where the lookup reads `undefined`. */
  function PhoneModels(brand: string): Option<seq<string>>
  {
    if brand == "Apple" then
      Some(["iPhone 15 Pro Max", "iPhone 15 Pro", "iPhone 15", "iPhone 14 Pro Max", "iPhone 14", "iPhone SE (3rd Gen)"])
    else if brand == "Samsung" then
      Some(["Galaxy S24 Ultra", "Galaxy S24+", "Galaxy S24", "Galaxy Z Fold5", "Galaxy Z Flip5", "Galaxy A55"])
    else if brand == "Google Pixel" then
      Some(["Pixel 8 Pro", "Pixel 8", "Pixel 8a", "Pixel 7a"])
    else if brand == "OnePlus" then
      Some(["OnePlus 12", "OnePlus 11", "OnePlus Nord 3", "OnePlus Nord CE 3"])
    else if brand == "Xiaomi" then
      Some(["Xiaomi 14 Ultra", "Xiaomi 14", "Redmi Note 13 Pro+", "Redmi Note 13"])
    else None
  }

  // ---------------------------------------------------------------------
  // Pure parts

  /** `sub` matches `s` at offset `i` from its `j`-th character on. */
  function MatchesFrom(s: string, sub: string, i: nat, j: nat): bool
    requires i + |sub| <= |s|
    decreases |sub| - j
  {
    j >= |sub| || (s[i + j] == sub[j] && MatchesFrom(s, sub, i, j + 1))
  }

  /** `sub` occurs in `s` at offset `i` or later. */
  function ContainsFrom(s: string, sub: string, i: nat): bool
    decreases |s| - i
  {
    if i + |sub| > |s| then false
    else MatchesFrom(s, sub, i, 0) || ContainsFrom(s, sub, i + 1)
  }

  /** `s.includes(sub)` */
  function Contains(s: string, sub: string): bool
  {
    ContainsFrom(s, sub, 0)
  }

  /** `sub` occurs in `s` at offset `i`. */
  ghost predicate OccursAt(s: string, sub: string, i: int)
  {
    0 <= i && i + |sub| <= |s| && s[i..i + |sub|] == sub
  }

  lemma {:induction false} MatchesFromIff(s: string, sub: string, i: nat, j: nat)
    requires i + |sub| <= |s| && j <= |sub|
    ensures MatchesFrom(s, sub, i, j) <==> s[i + j..i + |sub|] == sub[j..]
    decreases |sub| - j
  {
    if j < |sub| {
      MatchesFromIff(s, sub, i, j + 1);
      assert s[i + j..i + |sub|] == [s[i + j]] + s[i + j + 1..i + |sub|];
      assert sub[j..] == [sub[j]] + sub[j + 1..];
    }
  }

  lemma {:induction false} ContainsFromIff(s: string, sub: string, i: nat)
    ensures ContainsFrom(s, sub, i) <==> exists k :: i <= k && OccursAt(s, sub, k)
    decreases |s| - i
  {
    if i + |sub| <= |s| {
      MatchesFromIff(s, sub, i, 0);
      assert MatchesFrom(s, sub, i, 0) <==> OccursAt(s, sub, i);
      ContainsFromIff(s, sub, i + 1);
      if exists k :: i <= k && OccursAt(s, sub, k) {
        var k :| i <= k && OccursAt(s, sub, k);
        assert k == i || (i + 1 <= k && OccursAt(s, sub, k));
      }
    }
  }

  /** `Contains` is `s.includes(sub)`: `sub` occurs at some offset of `s`. */
  lemma ContainsIffOccurs(s: string, sub: string)
    ensures Contains(s, sub) <==> exists k :: OccursAt(s, sub, k)
  {
    ContainsFromIff(s, sub, 0);
  }

  /** The "Popular" badge (line 84). */
  predicate Popular(plan: InsurancePlan)
  {
    Contains(plan.name, "Premium") || Contains(plan.name, "Ultimate")
  }

  predicate FromPopularBrand(plan: InsurancePlan)
  {
    plan.brand == "Apple" || plan.brand == "Samsung" || plan.brand == "Google Pixel"
  }

  /** `Array.prototype.filter`: the elements satisfying `p`, in order. */
  function Filter(s: seq<InsurancePlan>, p: InsurancePlan -> bool): (r: seq<InsurancePlan>)
    ensures |r| <= |s|
  {
    if s == [] then [] else (if p(s[0]) then [s[0]] else []) + Filter(s[1..], p)
  }

  /** The filter keeps exactly the elements that pass the test. */
  lemma {:induction false} FilterMembers(s: seq<InsurancePlan>, p: InsurancePlan -> bool)
    ensures forall x :: x in Filter(s, p) <==> x in s && p(x)
  {
    if s != [] {
      FilterMembers(s[1..], p);
      assert s == [s[0]] + s[1..];
    }
  }

  /** Filtering keeps order: it distributes over concatenation. */
  lemma {:induction false} FilterAppend(a: seq<InsurancePlan>, b: seq<InsurancePlan>, p: InsurancePlan -> bool)
    ensures Filter(a + b, p) == Filter(a, p) + Filter(b, p)
  {
    if a != [] {
      assert (a + b)[0] == a[0];
      assert (a + b)[1..] == a[1..] + b;
      FilterAppend(a[1..], b, p);
      var head: seq<InsurancePlan> := if p(a[0]) then [a[0]] else [];
      calc {
        Filter(a + b, p);
        head + Filter(a[1..] + b, p);
        head + (Filter(a[1..], p) + Filter(b, p));
        (head + Filter(a[1..], p)) + Filter(b, p);
        Filter(a, p) + Filter(b, p);
      }
    } else {
      assert a + b == b;
    }
  }

  /** The test of `getRecommendedPlans`. */
  predicate Recommendable(plan: InsurancePlan)
  {
    Popular(plan) && FromPopularBrand(plan)
  }

  /** `getRecommendedPlans` (lines 17-22). */
  function RecommendedPlans(plans: seq<InsurancePlan>): seq<InsurancePlan>
  {
    var picks := Filter(plans, Recommendable);
    if |picks| <= 3 then picks else picks[..3]
  }

  /** The recommended plans are popular plans of Apple, Samsung or Google
      Pixel phones from the table: the first three that qualify, in table
      order, and all of them when at most three do. */
  lemma RecommendedPlansSpec(plans: seq<InsurancePlan>)
    ensures RecommendedPlans(plans) <= Filter(plans, Recommendable)
    ensures |RecommendedPlans(plans)| ==
      if |Filter(plans, Recommendable)| <= 3 then |Filter(plans, Recommendable)| else 3
    ensures forall p :: p in RecommendedPlans(plans) ==> p in plans && Popular(p) && FromPopularBrand(p)
    ensures |Filter(plans, Recommendable)| <= 3 ==>
      forall p :: p in plans && Popular(p) && FromPopularBrand(p) ==> p in RecommendedPlans(plans)
  {
    var picks := Filter(plans, Recommendable);
    FilterMembers(plans, Recommendable);
    forall p | p in RecommendedPlans(plans) ensures p in picks {
    }
  }

  // How `includes` reads the names of the Apple, Samsung and Google Pixel
  // plans, one name at a time.

  lemma BasicCoverBadge()
    ensures !Contains("Basic Cover", "Premium") && !Contains("Basic Cover", "Ultimate")
  {
  }

  lemma PremiumProtectionBadge()
    ensures Contains("Premium Protection", "Premium") && !Contains("Premium Protection", "Ultimate")
  {
    assert !ContainsFrom("Premium Protection", "Ultimate", 6);
  }

  lemma EssentialPlanBadge()
    ensures !Contains("Essential Plan", "Premium") && !Contains("Essential Plan", "Ultimate")
  {
    assert !ContainsFrom("Essential Plan", "Premium", 6);
    assert !ContainsFrom("Essential Plan", "Ultimate", 6);
  }

  lemma UltimateCoverageBadge()
    ensures !Contains("Ultimate Coverage", "Premium") && Contains("Ultimate Coverage", "Ultimate")
  {
    assert !ContainsFrom("Ultimate Coverage", "Premium", 6);
  }

  lemma StandardProtectionBadge()
    ensures !Contains("Standard Protection", "Premium") && !Contains("Standard Protection", "Ultimate")
  {
    assert !ContainsFrom("Standard Protection", "Premium", 6);
    assert !ContainsFrom("Standard Protection", "Ultimate", 6);
  }

  lemma CompleteCareBadge()
    ensures !Contains("Complete Care", "Premium") && !Contains("Complete Care", "Ultimate")
  {
    assert !ContainsFrom("Complete Care", "Premium", 6);
    assert !ContainsFrom("Complete Care", "Ultimate", 6);
  }

  /** The Apple rows of the table: only "Premium Protection" is kept. */
  lemma AppleRows(basic: InsurancePlan, premium: InsurancePlan)
    requires basic.name == "Basic Cover" && premium.name == "Premium Protection"
    requires basic.brand == "Apple" && premium.brand == "Apple"
    ensures !Recommendable(basic) && Recommendable(premium)
  {
    BasicCoverBadge();
    PremiumProtectionBadge();
  }

  /** The Samsung rows of the table: only "Ultimate Coverage" is kept. */
  lemma SamsungRows(essential: InsurancePlan, ultimate: InsurancePlan)
    requires essential.name == "Essential Plan" && ultimate.name == "Ultimate Coverage"
    requires essential.brand == "Samsung" && ultimate.brand == "Samsung"
    ensures !Recommendable(essential) && Recommendable(ultimate)
  {
    EssentialPlanBadge();
    UltimateCoverageBadge();
  }

  /** The Google Pixel rows of the table: neither name has the badge. */
  lemma PixelRows(standard: InsurancePlan, complete: InsurancePlan)
    requires standard.name == "Standard Protection" && complete.name == "Complete Care"
    ensures !Recommendable(standard) && !Recommendable(complete)
  {
    StandardProtectionBadge();
    CompleteCareBadge();
  }

  /** Filtering a list from position `k` on. */
  lemma FilterFrom(s: seq<InsurancePlan>, k: nat, p: InsurancePlan -> bool)
    requires k < |s|
    ensures Filter(s[k..], p) == (if p(s[k]) then [s[k]] else []) + Filter(s[k + 1..], p)
  {
    assert s[k..][0] == s[k] && s[k..][1..] == s[k + 1..];
  }

  /** Filtering ten rows of which `p` keeps the second and the fourth. */
  lemma FilterKeepsSecondAndFourth(c: seq<InsurancePlan>, p: InsurancePlan -> bool)
    requires |c| == 10 && p(c[1]) && p(c[3])
    requires !p(c[0]) && !p(c[2]) && !p(c[4]) && !p(c[5]) && !p(c[6]) && !p(c[7]) && !p(c[8]) && !p(c[9])
    ensures Filter(c, p) == [c[1], c[3]]
  {
    assert Filter(c[10..], p) == [] by { assert c[10..] == []; }
    assert Filter(c[4..], p) == [] by {
      FilterFrom(c, 9, p);
      FilterFrom(c, 8, p);
      FilterFrom(c, 7, p);
      FilterFrom(c, 6, p);
      FilterFrom(c, 5, p);
      FilterFrom(c, 4, p);
    }
    assert Filter(c[3..], p) == [c[3]] by { FilterFrom(c, 3, p); }
    assert Filter(c[2..], p) == [c[3]] by { FilterFrom(c, 2, p); }
    assert Filter(c[1..], p) == [c[1], c[3]] by { FilterFrom(c, 1, p); }
    assert Filter(c[0..], p) == [c[1], c[3]] by { FilterFrom(c, 0, p); }
    assert c[0..] == c;
  }

  /** Ten rows with the names and brands of the shipped table: the
      recommendation is the second and the fourth row. The OnePlus and
      Xiaomi rows fail the brand test whatever their names. */
  lemma RecommendedOfRows(c: seq<InsurancePlan>)
    requires |c| == 10
    requires c[0].name == "Basic Cover" && c[1].name == "Premium Protection" && c[2].name == "Essential Plan"
    requires c[3].name == "Ultimate Coverage" && c[4].name == "Standard Protection" && c[5].name == "Complete Care"
    requires c[0].brand == "Apple" && c[1].brand == "Apple" && c[2].brand == "Samsung" && c[3].brand == "Samsung"
    requires c[6].brand == "OnePlus" && c[7].brand == "OnePlus" && c[8].brand == "Xiaomi" && c[9].brand == "Xiaomi"
    ensures RecommendedPlans(c) == [c[1], c[3]]
  {
    AppleRows(c[0], c[1]);
    SamsungRows(c[2], c[3]);
    PixelRows(c[4], c[5]);
    FilterKeepsSecondAndFourth(c, Recommendable);
  }

  /** Over the shipped table the recommendation is the iPhone 15 Pro Max's
      "Premium Protection" and the Galaxy S24 Ultra's "Ultimate Coverage". */
  lemma RecommendedFromCatalog()
    ensures RecommendedPlans(Catalog) == [Plan2, Plan4]
    ensures Plan2.id == "plan-2-iphone15promax" && Plan4.id == "plan-4-galaxys24ultra"
  {
    RecommendedOfRows(Catalog);
  }

  /** `getFeatureLabel` (lines 63-71). */
  function FeatureLabel(feature: string): string
  {
    if feature == "theft" then "Theft Protection"
    else if feature == "screenRepair" then "Screen Repair"
    else if feature == "waterDamage" then "Water Damage"
    else if feature == "upgradeOption" then "Upgrade Option"
    else feature
  }

  datatype Icon = Shield | Zap | Droplets | TrendingUp | Check

  /** `getFeatureIcon` (lines 53-61). */
  function FeatureIcon(feature: string): Icon
  {
    if feature == "theft" then Shield
    else if feature == "screenRepair" then Zap
    else if feature == "waterDamage" then Droplets
    else if feature == "upgradeOption" then TrendingUp
    else Check
  }

  /** The four feature keys of a plan. */
  const FeatureKeys: seq<string> := ["theft", "screenRepair", "waterDamage", "upgradeOption"]

  /** A feature gets its own label exactly when it gets its own icon, and
      that is exactly for the four plan features; the four labels are
      distinct, so no two features read alike. */
  lemma FeatureLabelsAndIcons(feature: string)
    ensures FeatureLabel(feature) != feature <==> feature in FeatureKeys
    ensures FeatureIcon(feature) != Check <==> feature in FeatureKeys
    ensures forall i, j :: 0 <= i < j < |FeatureKeys| ==>
      FeatureLabel(FeatureKeys[i]) != FeatureLabel(FeatureKeys[j]) && FeatureIcon(FeatureKeys[i]) != FeatureIcon(FeatureKeys[j])
  {
  }

  /** The model picker's options (line 220): the brand's models once a
      brand is chosen, none before. */
  function ModelOptions(brand: string): Option<seq<string>>
  {
    if brand == "" then Some([]) else PhoneModels(brand)
  }

  /** Every plan of the table can be found: its brand is offered and its
      model is among that brand's options. */
  lemma CatalogReachable()
    ensures forall p :: p in Catalog ==>
      p.brand in PhoneBrands && ModelOptions(p.brand).Some? && p.model in ModelOptions(p.brand).value
  {
  }

  /** The plans for a chosen phone, in table order (lines 35-37). */
  function PlansFor(brand: string, model: string): seq<InsurancePlan>
  {
    Filter(Catalog, (p: InsurancePlan) => p.brand == brand && p.model == model)
  }

  /** The plans found are exactly the table's plans for that phone. */
  lemma PlansForMembers(brand: string, model: string)
    ensures forall p :: p in PlansFor(brand, model) <==> p in Catalog && p.brand == brand && p.model == model
  {
    FilterMembers(Catalog, (p: InsurancePlan) => p.brand == brand && p.model == model);
  }

  /** A filter that rejects every element leaves nothing. */
  lemma {:induction false} FilterNone(s: seq<InsurancePlan>, p: InsurancePlan -> bool)
    requires forall i :: 0 <= i < |s| ==> !p(s[i])
    ensures Filter(s, p) == []
  {
    if s != [] {
      FilterNone(s[1..], p);
    }
  }

  /** Filtering a list in which `p` keeps exactly the first two elements. */
  lemma FilterKeepsFirstTwo(c: seq<InsurancePlan>, p: InsurancePlan -> bool)
    requires |c| >= 2 && p(c[0]) && p(c[1])
    requires forall i :: 2 <= i < |c| ==> !p(c[i])
    ensures Filter(c, p) == [c[0], c[1]]
  {
    assert forall i :: 0 <= i < |c[2..]| ==> !p(c[2..][i]) by {
      forall i | 0 <= i < |c[2..]| ensures !p(c[2..][i]) {
        assert c[2..][i] == c[i + 2];
      }
    }
    FilterNone(c[2..], p);
    assert Filter(c[1..], p) == [c[1]] by { FilterFrom(c, 1, p); }
    assert Filter(c[0..], p) == [c[0], c[1]] by { FilterFrom(c, 0, p); }
    assert c[0..] == c;
  }

  /** Filtering a list in which `p` keeps exactly the two adjacent
      elements at `k` and `k + 1`. */
  lemma {:induction false} FilterKeepsPair(c: seq<InsurancePlan>, k: nat, p: InsurancePlan -> bool)
    requires k + 1 < |c| && p(c[k]) && p(c[k + 1])
    requires forall i :: 0 <= i < |c| && i != k && i != k + 1 ==> !p(c[i])
    ensures Filter(c, p) == [c[k], c[k + 1]]
  {
    if k == 0 {
      FilterKeepsFirstTwo(c, p);
    } else {
      var tail := c[1..];
      forall i | 0 <= i < |tail| && i != k - 1 && i != k ensures !p(tail[i]) {
        assert tail[i] == c[i + 1];
      }
      FilterKeepsPair(tail, k - 1, p);
      assert !p(c[0]);
    }
  }

  /** The two phones of Apple and Samsung with plans in the table have two
      plans each, a basic one and a popular one, in that order; a listed
      phone without plans in the table gets none. */
  lemma TwoPlansPerPhone()
    ensures PlansFor("Apple", "iPhone 15 Pro Max") == [Plan1, Plan2]
    ensures PlansFor("Samsung", "Galaxy S24 Ultra") == [Plan3, Plan4]
    ensures PlansFor("Apple", "iPhone 15") == []
  {
    FilterKeepsPair(Catalog, 0, (p: InsurancePlan) => p.brand == "Apple" && p.model == "iPhone 15 Pro Max");
    FilterKeepsPair(Catalog, 2, (p: InsurancePlan) => p.brand == "Samsung" && p.model == "Galaxy S24 Ultra");
    FilterNone(Catalog, (p: InsurancePlan) => p.brand == "Apple" && p.model == "iPhone 15");
  }

  /** "Find Plans" is disabled unless brand and model are both chosen
      (line 231); "Reset" only when neither is (line 243). */
  predicate FindDisabled(brand: string, model: string)
  {
    brand == "" || model == ""
  }

  predicate ResetDisabled(brand: string, model: string)
  {
    brand == "" && model == ""
  }

  // ---------------------------------------------------------------------
  // Page state

  /** The page's state cells (lines 10-14) as a value, with the searches
      whose simulated delay (line 33) has not yet elapsed. Each search
      remembers the brand and model it read when the button was clicked;
      equal delays end in the order they started. */
  datatype Selection = Selection(
    brand: string,
    model: string,
    filteredPlans: seq<InsurancePlan>,
    isLoading: bool,
    showComparison: bool,
    pending: seq<Phone>)

  /** The brand and model a search reads when it starts. */
  datatype Phone = Phone(brand: string, model: string)

  const InitialSelection: Selection := Selection("", "", [], false, false, [])

  /** Shown plans are all from the table and all for the chosen brand. */
  predicate Consistent(s: Selection)
  {
    forall p :: p in s.filteredPlans ==> p in Catalog && p.brand == s.brand
  }

  /** Every search under way was started for the brand now chosen. */
  predicate SearchesCurrent(s: Selection)
  {
    forall q :: q in s.pending ==> q.brand == s.brand
  }

  /** `handleGeneratePlans` up to its delay (lines 26-33): nothing without
      a brand and a model; otherwise loading, the comparison hidden, and a
      search for the chosen phone under way. */
  function SearchStarted(s: Selection): Selection
  {
    if s.brand == "" || s.model == "" then s
    else s.(isLoading := true, showComparison := false, pending := s.pending + [Phone(s.brand, s.model)])
  }

  /** The rest of `handleGeneratePlans` once the oldest delay has elapsed
      (lines 35-39): the plans for the phone that search read at the click. */
  function SearchCompleted(s: Selection): Selection
    requires |s.pending| > 0
  {
    s.(filteredPlans := PlansFor(s.pending[0].brand, s.pending[0].model), isLoading := false,
       pending := s.pending[1..])
  }

  /** The brand picker's `onChange` (lines 205-210). */
  function BrandChanged(s: Selection, brand: string): Selection
  {
    s.(brand := brand, model := "", filteredPlans := [], showComparison := false)
  }

  /** The model picker's `onChange` (line 222): the model only. */
  function ModelChanged(s: Selection, model: string): Selection
  {
    s.(model := model)
  }

  /** `resetSelection` (lines 46-51). */
  function ResetSelection(s: Selection): Selection
  {
    s.(brand := "", model := "", filteredPlans := [], showComparison := false)
  }

  /** The comparison toggle (line 281). */
  function ComparisonToggled(s: Selection): Selection
  {
    s.(showComparison := !s.showComparison)
  }

  /** A click without both choices does nothing; with them it queues a
      search for exactly the chosen phone, shows loading and hides the
      comparison, and leaves the choices and the shown plans as they are. */
  lemma SearchStartedSpec(s: Selection)
    ensures FindDisabled(s.brand, s.model) ==> SearchStarted(s) == s
    ensures !FindDisabled(s.brand, s.model) ==>
      SearchStarted(s).pending == s.pending + [Phone(s.brand, s.model)]
      && SearchStarted(s).isLoading && !SearchStarted(s).showComparison
      && SearchStarted(s).brand == s.brand && SearchStarted(s).model == s.model
      && SearchStarted(s).filteredPlans == s.filteredPlans
  {
  }

  /** A completed search shows exactly the table's plans for the phone it
      read at the click, whatever is chosen now, and clears loading. */
  lemma SearchCompletedSpec(s: Selection, p: InsurancePlan)
    requires |s.pending| > 0
    ensures p in SearchCompleted(s).filteredPlans <==>
      p in Catalog && p.brand == s.pending[0].brand && p.model == s.pending[0].model
    ensures !SearchCompleted(s).isLoading && SearchCompleted(s).pending == s.pending[1..]
    ensures SearchCompleted(s).brand == s.brand && SearchCompleted(s).model == s.model
  {
    PlansForMembers(s.pending[0].brand, s.pending[0].model);
  }

  /** A search that nothing interrupts shows exactly the table's plans for
      the chosen phone, in table order, with loading off and the comparison
      hidden. */
  lemma UninterruptedSearch(s: Selection, p: InsurancePlan)
    requires s.pending == [] && !FindDisabled(s.brand, s.model)
    ensures SearchCompleted(SearchStarted(s)).filteredPlans == PlansFor(s.brand, s.model)
    ensures p in SearchCompleted(SearchStarted(s)).filteredPlans <==>
      p in Catalog && p.brand == s.brand && p.model == s.model
    ensures SearchCompleted(SearchStarted(s)) == s.(filteredPlans := PlansFor(s.brand, s.model),
      isLoading := false, showComparison := false)
  {
    SearchCompletedSpec(SearchStarted(s), p);
  }

  /** Shown plans stay consistent with the chosen brand as long as every
      search under way was started for that brand. Every handler keeps
      that, except a brand change or a reset while a search is under way:
      neither cancels it nor is disabled while loading (lines 202-210 and
      240-243). */
  lemma HandlersKeepConsistent(s: Selection, brand: string, model: string)
    requires Consistent(s) && SearchesCurrent(s)
    ensures Consistent(SearchStarted(s)) && SearchesCurrent(SearchStarted(s))
    ensures |s.pending| > 0 ==> Consistent(SearchCompleted(s)) && SearchesCurrent(SearchCompleted(s))
    ensures Consistent(ModelChanged(s, model)) && SearchesCurrent(ModelChanged(s, model))
    ensures Consistent(ComparisonToggled(s)) && SearchesCurrent(ComparisonToggled(s))
    ensures Consistent(BrandChanged(s, brand)) && Consistent(ResetSelection(s))
    ensures s.pending == [] ==> SearchesCurrent(BrandChanged(s, brand)) && SearchesCurrent(ResetSelection(s))
  {
    if |s.pending| > 0 {
      PlansForMembers(s.pending[0].brand, s.pending[0].model);
      assert s.pending[0] in s.pending;
      forall q | q in s.pending[1..] ensures q.brand == s.brand {
        assert q in s.pending;
      }
    }
  }

  /** Changing the brand, or resetting, during the delay of a search for
      the iPhone 15 Pro Max: when the delay ends, its two Apple plans are
      shown under "Samsung", or under no brand at all. */
  lemma StaleSearchShowsOtherPhone()
    ensures var s := SearchStarted(Selection("Apple", "iPhone 15 Pro Max", [], false, false, []));
      SearchCompleted(BrandChanged(s, "Samsung")).filteredPlans == [Plan1, Plan2]
      && SearchCompleted(BrandChanged(s, "Samsung")).brand == "Samsung"
      && !Consistent(SearchCompleted(BrandChanged(s, "Samsung")))
      && SearchCompleted(ResetSelection(s)).filteredPlans == [Plan1, Plan2]
      && SearchCompleted(ResetSelection(s)).brand == ""
      && !Consistent(SearchCompleted(ResetSelection(s)))
  {
    TwoPlansPerPhone();
    assert Plan1 in [Plan1, Plan2];
  }

  /** Resetting clears the selection, the results and the comparison but
      leaves the loading flag and the searches under way as they were;
      resetting twice is resetting once. */
  lemma ResetSpec(s: Selection)
    ensures ResetDisabled(ResetSelection(s).brand, ResetSelection(s).model)
    ensures ResetSelection(s).filteredPlans == [] && !ResetSelection(s).showComparison
    ensures ResetSelection(s).isLoading == s.isLoading && ResetSelection(s).pending == s.pending
    ensures ResetSelection(ResetSelection(s)) == ResetSelection(s)
  {
  }

  /** After a brand change the model must be chosen again before a search. */
  lemma BrandChangeNeedsModel(s: Selection, brand: string)
    ensures FindDisabled(BrandChanged(s, brand).brand, BrandChanged(s, brand).model)
    ensures SearchStarted(BrandChanged(s, brand)) == BrandChanged(s, brand)
  {
  }

  class PlansPage {
    var selectedBrand: string
    var selectedModel: string
    var filteredPlans: seq<InsurancePlan>
    var isLoading: bool
    var showComparison: bool
    var pendingSearches: seq<Phone>

    function Model(): Selection
      reads this
    {
      Selection(selectedBrand, selectedModel, filteredPlans, isLoading, showComparison, pendingSearches)
    }

    constructor ()
      ensures Model() == InitialSelection
    {
      selectedBrand := "";
      selectedModel := "";
      filteredPlans := [];
      isLoading := false;
      showComparison := false;
      pendingSearches := [];
    }

    /** `handleGeneratePlans` up to its delay. */
    method GeneratePlans()
      modifies this
      ensures Model() == SearchStarted(old(Model()))
    {
      if selectedBrand == "" || selectedModel == "" {
        return;
      }
      isLoading := true;
      showComparison := false;
      pendingSearches := pendingSearches + [Phone(selectedBrand, selectedModel)];
    }

    /** The oldest search's delay has elapsed. */
    method SearchDelayElapsed()
      requires |pendingSearches| > 0
      modifies this
      ensures Model() == SearchCompleted(old(Model()))
    {
      var phone := pendingSearches[0];
      filteredPlans := PlansFor(phone.brand, phone.model);
      isLoading := false;
      pendingSearches := pendingSearches[1..];
    }

    method SelectBrand(brand: string)
      modifies this
      ensures Model() == BrandChanged(old(Model()), brand)
    {
      selectedBrand := brand;
      selectedModel := "";
      filteredPlans := [];
      showComparison := false;
    }

    method SelectModel(model: string)
      modifies this
      ensures Model() == ModelChanged(old(Model()), model)
    {
      selectedModel := model;
    }

    method Reset()
      modifies this
      ensures Model() == ResetSelection(old(Model()))
    {
      selectedBrand := "";
      selectedModel := "";
      filteredPlans := [];
      showComparison := false;
    }

    /** The toggle is rendered only when more than one plan is shown. */
    method ToggleComparison()
      requires |filteredPlans| > 1
      modifies this
      ensures Model() == ComparisonToggled(old(Model()))
    {
      showComparison := !showComparison;
    }
  }
}
