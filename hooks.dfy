/** The data hooks of src/hooks/useContentStack.ts. Each hook holds a data
    cell, a loading flag and (all but the hero hook) an error cell; its
    effect runs on mount and again whenever its arguments change, sets
    loading, calls the service, and when that call settles stores the
    result or the error and clears loading. A hook instance is a class;
    rendering and the settling of an outstanding call are its methods. */
module Hooks {
  import opened Js
  import opened Query
  import opened Service

  /** Which hook, with the arguments of one render. */
  datatype HookCall =
    | UseTestimonials(featured: Option<bool>)
    | UseInsurancePlans(brand: Option<string>, model: Option<string>)
    | UseHeroContent(page: string)
    | UseBenefits

  /** Renders of one hook instance always call the same hook. */
  predicate SameHook(a: HookCall, b: HookCall)
  {
    (a.UseTestimonials? && b.UseTestimonials?)
    || (a.UseInsurancePlans? && b.UseInsurancePlans?)
    || (a.UseHeroContent? && b.UseHeroContent?)
    || (a.UseBenefits? && b.UseBenefits?)
  }

  /** A call the effect makes on the content service. */
  datatype ServiceCall = ServiceCall(contentType: string, options: QueryOptions)

  /** The service call for these arguments; each hook passes its arguments
      and no options (lines 12, 38, 61, 85). */
  function CallFor(c: HookCall): ServiceCall
  {
    match c
    case UseTestimonials(featured) => ServiceCall("testimonials", TestimonialsQuery(featured, NoTestimonialsOptions))
    case UseInsurancePlans(brand, model) => ServiceCall("insurance_plan", PlansQuery(brand, model, NoPlansOptions))
    case UseHeroContent(page) => ServiceCall("hero_section", HeroQuery(page, NoLocaleOptions))
    case UseBenefits => ServiceCall("benefits", BenefitsQuery(None, NoBenefitsOptions))
  }

  /** What a rejected call was rejected with. */
  datatype Failure = ErrorWithMessage(message: string) | NonError

  /** How an outstanding service call settles. */
  datatype Outcome = Fulfilled(value: Json) | Failed(failure: Failure)

  /** The values a hook returns. For the hero hook `data` is `content` and
      `error` is unused. */
  datatype HookState = HookState(data: Json, loading: bool, error: Option<string>)

  /** Before any call settles: an empty list (`null` for hero content),
      loading, no error. */
  function InitialState(c: HookCall): HookState
  {
    HookState(if c.UseHeroContent? then Null else Arr([]), true, None)
  }

  /** The message stored for a rejection that is not an `Error`. The
      testimonials hook reuses the plans hook's text (line 16). */
  function FallbackMessage(c: HookCall): string
  {
    if c.UseBenefits? then "Failed to fetch benefits" else "Failed to fetch plans"
  }

  /** `err instanceof Error ? err.message : fallback` */
  function ErrorText(f: Failure, fallback: string): string
  {
    match f
    case ErrorWithMessage(m) => m
    case NonError => fallback
  }

  /** The hero hook's `setContent(result[0] || null)`; `None` when reading
      `result[0]` throws, which its `catch` only logs (lines 62-64). */
  function HeroContent(result: Json): Option<Json>
  {
    match ElementZero(result)
    case None => None
    case Some(first) => Some(if Truthy(first) then first else Null)
  }

  /** The state after an outstanding call settles. The list hooks store a
      fulfilled value or set the error; the hero hook stores its content or
      keeps the old one. Every branch clears loading (the `finally`), and
      nothing ever clears an error. */
  function Settled(c: HookCall, s: HookState, o: Outcome): HookState
  {
    if c.UseHeroContent? then
      match o
      case Fulfilled(v) =>
        (match HeroContent(v)
         case Some(content) => s.(data := content, loading := false)
         case None => s.(loading := false))
      case Failed(_) => s.(loading := false)
    else
      match o
      case Fulfilled(v) => s.(data := v, loading := false)
      case Failed(f) => s.(error := Some(ErrorText(f, FallbackMessage(c))), loading := false)
  }

  /** A hook instance as a value: the arguments of its latest render, its
      state, every service call it has made, and how many have not settled. */
  datatype HookModel = HookModel(call: HookCall, state: HookState, issued: seq<ServiceCall>, inFlight: nat)

  /** The first render: the initial state, then the mount effect's call. */
  function Mounted(c: HookCall): HookModel
  {
    HookModel(c, InitialState(c), [CallFor(c)], 1)
  }

  /** A later render: the effect runs only when an argument changed (the
      dependency lists of lines 23, 48, 71 and 95), and then sets loading
      and makes one more call; an earlier call is not cancelled. */
  function Rerendered(m: HookModel, c: HookCall): HookModel
  {
    if c == m.call then m
    else HookModel(c, m.state.(loading := true), m.issued + [CallFor(c)], m.inFlight + 1)
  }

  /** One outstanding call settles, whichever it is. */
  function SettledModel(m: HookModel, o: Outcome): HookModel
    requires m.inFlight > 0
  {
    m.(state := Settled(m.call, m.state, o), inFlight := m.inFlight - 1)
  }

  class Hook {
    var call: HookCall
    var state: HookState
    var issued: seq<ServiceCall>
    var inFlight: nat

    function Model(): HookModel
      reads this
    {
      HookModel(call, state, issued, inFlight)
    }

    constructor (c: HookCall)
      ensures Model() == Mounted(c)
    {
      call := c;
      state := InitialState(c);
      issued := [CallFor(c)];
      inFlight := 1;
    }

    method Render(c: HookCall)
      requires SameHook(call, c)
      modifies this
      ensures Model() == Rerendered(old(Model()), c)
    {
      if c != call {
        call := c;
        state := state.(loading := true);
        issued := issued + [CallFor(c)];
        inFlight := inFlight + 1;
      }
    }

    method Settle(o: Outcome)
      requires inFlight > 0
      modifies this
      ensures Model() == SettledModel(old(Model()), o)
    {
      match o {
        case Fulfilled(v) =>
          if call.UseHeroContent? {
            var content := HeroContent(v);
            if content.Some? {
              state := state.(data := content.value);
            }
          } else {
            state := state.(data := v);
          }
        case Failed(f) =>
          if !call.UseHeroContent? {
            state := state.(error := Some(ErrorText(f, FallbackMessage(call))));
          }
      }
      state := state.(loading := false);
      inFlight := inFlight - 1;
    }
  }

  // ---------------------------------------------------------------------
  // Properties

  /** A render makes a service call iff an argument changed, and the call
      is the one for the new arguments. In particular the benefits hook,
      with no arguments, never fetches again after mounting. */
  lemma FetchIffArgumentsChange(m: HookModel, c: HookCall)
    ensures |Rerendered(m, c).issued| == |m.issued| + (if c == m.call then 0 else 1)
    ensures c != m.call ==> Rerendered(m, c).issued[|m.issued|] == CallFor(c) && Rerendered(m, c).state.loading
    ensures Rerendered(m, c).issued[..|m.issued|] == m.issued
  {
  }

  /** Once set, an error stays, even when a later call succeeds; a success
      stores its value beside the old error. */
  lemma ErrorIsSticky(c: HookCall, s: HookState, f: Failure, v: Json)
    requires !c.UseHeroContent?
    ensures Settled(c, s, Failed(f)).error == Some(ErrorText(f, FallbackMessage(c)))
    ensures Settled(c, s, Failed(f)).data == s.data
    ensures Settled(c, Settled(c, s, Failed(f)), Fulfilled(v)) ==
      HookState(v, false, Some(ErrorText(f, FallbackMessage(c))))
  {
  }

  /** The `finally` of every hook: whatever the outcome, settling a call
      clears loading and counts that call as settled, and nothing else
      about the instance changes but its state. */
  lemma SettleClearsLoading(m: HookModel, o: Outcome)
    requires m.inFlight > 0
    ensures !SettledModel(m, o).state.loading
    ensures SettledModel(m, o).inFlight == m.inFlight - 1
    ensures SettledModel(m, o).call == m.call && SettledModel(m, o).issued == m.issued
  {
  }

  /** A list hook stores exactly the value the service fulfilled with, and
      keeps its error. */
  lemma ListSuccessStores(c: HookCall, s: HookState, v: Json)
    requires !c.UseHeroContent?
    ensures Settled(c, s, Fulfilled(v)) == s.(data := v, loading := false)
  {
  }

  /** Loading is not a count: when the arguments change before the mount
      call settles, the first call to settle clears loading although the
      second is still outstanding. */
  lemma LoadingClearedEarly(c: HookCall, c2: HookCall, o: Outcome)
    requires c != c2
    ensures SettledModel(Rerendered(Mounted(c), c2), o).inFlight == 1
    ensures !SettledModel(Rerendered(Mounted(c), c2), o).state.loading
  {
  }

  /** The hero hook never records an error; a failure keeps its content. */
  lemma HeroKeepsContentOnFailure(page: string, s: HookState, f: Failure)
    ensures Settled(UseHeroContent(page), s, Failed(f)) == s.(loading := false)
  {
  }

  /** The hero hook stores element 0 of what the service returns, or
      `null`. The service returns one entry, so for a record entry, which has
      no property `0`, the content is `null`; for the fallback list `[]` it
      is `null` too; for `undefined` reading element 0 throws and the old
      content stays. */
  lemma {:induction false} HeroContentOfResult(s: HookState, page: string, fields: Fields, items: seq<Json>)
    requires !HasKey(fields, "0")
    ensures Settled(UseHeroContent(page), s, Fulfilled(Obj(fields))).data == Null
    ensures Settled(UseHeroContent(page), s, Fulfilled(Arr([]))).data == Null
    ensures |items| > 0 && Truthy(items[0]) ==>
      Settled(UseHeroContent(page), s, Fulfilled(Arr(items))).data == items[0]
    ensures Settled(UseHeroContent(page), s, Fulfilled(Undefined)).data == s.data
  {
    assert Lookup(fields, "0") == Undefined;
  }

  /** How the content service answers a hook's call. */
  function ServiceOutcome(client: Client, c: HookCall, find: FindOutcome): Outcome
  {
    Fulfilled(Resolution(client, CallFor(c).contentType, find))
  }

  /** The service catches every failure and answers with mock data, so a
      hook's error cell is never set by a real call. */
  lemma ServiceNeverSetsError(client: Client, m: HookModel, find: FindOutcome)
    requires m.inFlight > 0
    ensures SettledModel(m, ServiceOutcome(client, m.call, find)).state.error == m.state.error
  {
  }

  /** Without a client the hooks show the fixtures: two testimonials, and
      an empty list of plans and of benefits. */
  lemma UnconfiguredData(featured: Option<bool>, brand: Option<string>, model: Option<string>, find: FindOutcome, s: HookState)
    ensures Settled(UseTestimonials(featured), s, ServiceOutcome(Unconfigured, UseTestimonials(featured), find)).data
      == Arr(MockTestimonials)
    ensures Settled(UseInsurancePlans(brand, model), s, ServiceOutcome(Unconfigured, UseInsurancePlans(brand, model), find)).data
      == Arr([])
    ensures Settled(UseBenefits, s, ServiceOutcome(Unconfigured, UseBenefits, find)).data == Arr([])
  {
  }

  /** Without a client the hero content is `null`. */
  lemma UnconfiguredHeroIsNull(page: string, find: FindOutcome, s: HookState)
    ensures Settled(UseHeroContent(page), s, ServiceOutcome(Unconfigured, UseHeroContent(page), find)).data == Null
  {
  }
}
