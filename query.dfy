/** The options record `fetchEntries` accepts and the query-builder calls it
    turns them into (src/services/contentstack.ts:4-88). The CMS query
    builder itself is foreign; the model records the calls made on it as a
    log of `QueryOp` values. */
module Query {
  import opened Js

  /** One call on the CMS query builder. */
  datatype QueryOp =
    | Where(key: string, value: Json)
    | IncludeReference(path: string)
    | Only(fields: seq<string>)
    | Except(fields: seq<string>)
    | Limit(n: int)
    | Skip(n: int)
    | Ascending(field: string)
    | Descending(field: string)
    | Language(locale: string)
    | IncludeCount
    | IncludeContentType
    | IncludeFallback

  /** The options argument of `fetchEntries`; `None` is an absent (undefined)
      option. `where` is an object or absent. */
  datatype QueryOptions = QueryOptions(
    where: Option<Fields>,
    includePaths: Option<seq<string>>,
    only: Option<seq<string>>,
    except: Option<seq<string>>,
    limit: Option<int>,
    skip: Option<int>,
    order: Option<string>,
    locale: Option<string>,
    includeCount: Option<bool>,
    includeContentType: Option<bool>,
    includeFallback: Option<bool>)

  /** The default `{}`. */
  const NoOptions: QueryOptions :=
    QueryOptions(None, None, None, None, None, None, None, None, None, None, None)

  /** `arr && arr.length > 0` */
  predicate NonEmpty(x: Option<seq<string>>)
  {
    x.Some? && |x.value| > 0
  }

  /** The stage at which the builder is given a call of this kind: the
      position of the statement that issues it in `fetchEntries`. */
  function Rank(op: QueryOp): (r: nat)
    ensures r <= 10
  {
    match op
    case Where(_, _) => 0
    case IncludeReference(_) => 1
    case Only(_) => 2
    case Except(_) => 3
    case Limit(_) => 4
    case Skip(_) => 5
    case Ascending(_) => 6
    case Descending(_) => 6
    case Language(_) => 7
    case IncludeCount => 8
    case IncludeContentType => 9
    case IncludeFallback => 10
  }

  /** The `where` calls for one field: none when its value is `undefined`. */
  function WhereStep(kv: (string, Json)): seq<QueryOp>
  {
    if kv.1 == Undefined then [] else [Where(kv.0, kv.1)]
  }

  /** The `where` calls for an object, key by key (lines 27-31). */
  function WhereOps(w: Fields): seq<QueryOp>
  {
    if w == [] then [] else WhereOps(w[..|w| - 1]) + WhereStep(w[|w| - 1])
  }

  /** The `includeReference` calls for a list of paths (lines 36-38). */
  function IncludeOps(paths: seq<string>): (ops: seq<QueryOp>)
    ensures |ops| == |paths|
    ensures forall i :: 0 <= i < |paths| ==> ops[i] == IncludeReference(paths[i])
  {
    if paths == [] then []
    else IncludeOps(paths[..|paths| - 1]) + [IncludeReference(paths[|paths| - 1])]
  }

  /** The ordering call: descending on the rest of the string after a
      leading `-`, ascending on the whole string otherwise, none when the
      order is absent or empty (lines 62-68). */
  function OrderOps(order: Option<string>): seq<QueryOp>
  {
    if !TruthyStr(order) then []
    else if order.value[0] == '-' then [Descending(order.value[1..])]
    else [Ascending(order.value)]
  }

  function WhereStage(o: QueryOptions): seq<QueryOp>
  {
    if o.where.Some? then WhereOps(o.where.value) else []
  }

  function IncludeStage(o: QueryOptions): seq<QueryOp>
  {
    if NonEmpty(o.includePaths) then IncludeOps(o.includePaths.value) else []
  }

  function OnlyStage(o: QueryOptions): seq<QueryOp>
  {
    if NonEmpty(o.only) then [Only(o.only.value)] else []
  }

  function ExceptStage(o: QueryOptions): seq<QueryOp>
  {
    if NonEmpty(o.except) then [Except(o.except.value)] else []
  }

  function LimitStage(o: QueryOptions): seq<QueryOp>
  {
    if TruthyNum(o.limit) then [Limit(o.limit.value)] else []
  }

  function SkipStage(o: QueryOptions): seq<QueryOp>
  {
    if TruthyNum(o.skip) then [Skip(o.skip.value)] else []
  }

  function LocaleStage(o: QueryOptions): seq<QueryOp>
  {
    if TruthyStr(o.locale) then [Language(o.locale.value)] else []
  }

  function FlagStage(flag: Option<bool>, op: QueryOp): seq<QueryOp>
  {
    if TruthyBool(flag) then [op] else []
  }

  /** The calls of the statement of rank `r` in `fetchEntries`. */
  function StageAt(o: QueryOptions, r: nat): seq<QueryOp>
  {
    if r == 0 then WhereStage(o)
    else if r == 1 then IncludeStage(o)
    else if r == 2 then OnlyStage(o)
    else if r == 3 then ExceptStage(o)
    else if r == 4 then LimitStage(o)
    else if r == 5 then SkipStage(o)
    else if r == 6 then OrderOps(o.order)
    else if r == 7 then LocaleStage(o)
    else if r == 8 then FlagStage(o.includeCount, IncludeCount)
    else if r == 9 then FlagStage(o.includeContentType, IncludeContentType)
    else FlagStage(o.includeFallback, IncludeFallback)
  }

  /** The calls of the statements of rank `r` and later, in order. */
  function Stages(o: QueryOptions, r: nat): seq<QueryOp>
    decreases 11 - r
  {
    if r > 10 then [] else StageAt(o, r) + Stages(o, r + 1)
  }

  /** Every builder call `fetchEntries` makes for these options, in order
      (lines 26-88). */
  function Translate(o: QueryOptions): seq<QueryOp>
  {
    Stages(o, 0)
  }

  /** Concatenation is associative. */
  lemma AppendAssoc(a: seq<QueryOp>, b: seq<QueryOp>, c: seq<QueryOp>)
    ensures a + (b + c) == (a + b) + c
  {
  }

  /** Calls appear in stage order; only `where` and `includeReference` may
      be issued more than once. */
  ghost predicate InStageOrder(ops: seq<QueryOp>)
  {
    forall i, j :: 0 <= i < j < |ops| ==>
      Rank(ops[i]) < Rank(ops[j]) || (Rank(ops[i]) == Rank(ops[j]) && Rank(ops[i]) <= 1)
  }

  /** Every call in `ops` has rank `r`. */
  ghost predicate AllOfRank(ops: seq<QueryOp>, r: nat)
  {
    forall op :: op in ops ==> Rank(op) == r
  }

  /** Every call in `ops` has rank at least `r`. */
  ghost predicate RankAtLeast(ops: seq<QueryOp>, r: nat)
  {
    forall op :: op in ops ==> Rank(op) >= r
  }

  /** Where calls: exactly the fields whose value is not `undefined`. */
  lemma {:induction false} WhereOpsMembers(w: Fields, op: QueryOp)
    ensures op in WhereOps(w) <==> op.Where? && (op.key, op.value) in w && op.value != Undefined
  {
    if w != [] {
      var init, last := w[..|w| - 1], w[|w| - 1];
      assert w == init + [last];
      WhereOpsMembers(init, op);
    }
  }

  /** Where calls follow the object's key order: the calls for a
      concatenation are the calls for each part, in turn. */
  lemma {:induction false} WhereOpsAppend(a: Fields, b: Fields)
    ensures WhereOps(a + b) == WhereOps(a) + WhereOps(b)
    decreases |b|
  {
    if b == [] {
      assert a + b == a;
    } else {
      var init, last := b[..|b| - 1], b[|b| - 1];
      assert (a + b)[..|a + b| - 1] == a + init;
      assert (a + b)[|a + b| - 1] == last;
      WhereOpsAppend(a, init);
    }
  }

  /** A one-property object yields that property's call, if any. */
  lemma WhereOpsSingle(k: string, v: Json)
    ensures WhereOps([(k, v)]) == WhereStep((k, v))
  {
    assert [(k, v)][..0] == [];
  }

  lemma {:induction false} WhereOpsAreWheres(w: Fields, op: QueryOp)
    requires op in WhereOps(w)
    ensures op.Where?
  {
    WhereOpsMembers(w, op);
  }

  /** Each stage issues calls of its own rank only. */
  lemma StageRank(o: QueryOptions, r: nat, op: QueryOp)
    requires r <= 10 && op in StageAt(o, r)
    ensures Rank(op) == r
  {
    if r == 0 {
      WhereOpsAreWheres(o.where.value, op);
    } else if r == 1 {
      var paths := o.includePaths.value;
      var i :| 0 <= i < |IncludeOps(paths)| && IncludeOps(paths)[i] == op;
    }
  }

  /** Only the `where` and `includeReference` stages issue more than one
      call. */
  lemma StageSize(o: QueryOptions, r: nat)
    ensures r <= 1 || |StageAt(o, r)| <= 1
  {
  }

  /** Putting a stage of rank `r` in front of calls of higher rank keeps the
      stage order. */
  lemma {:induction false} PrependStage(a: seq<QueryOp>, r: nat, b: seq<QueryOp>)
    requires AllOfRank(a, r) && (r <= 1 || |a| <= 1)
    requires InStageOrder(b) && RankAtLeast(b, r + 1)
    ensures InStageOrder(a + b) && RankAtLeast(a + b, r)
  {
    forall i, j | 0 <= i < j < |a + b|
      ensures Rank((a + b)[i]) < Rank((a + b)[j])
           || (Rank((a + b)[i]) == Rank((a + b)[j]) && Rank((a + b)[i]) <= 1)
    {
      if j < |a| {
        assert (a + b)[i] == a[i] && (a + b)[j] == a[j];
        assert a[i] in a && a[j] in a;
      } else if i < |a| {
        assert (a + b)[i] == a[i] && a[i] in a;
        assert (a + b)[j] == b[j - |a|] && b[j - |a|] in b;
      } else {
        assert (a + b)[i] == b[i - |a|] && (a + b)[j] == b[j - |a|];
      }
    }
  }

  /** The calls from rank `r` on are in stage order and of rank `r` or
      more. */
  lemma {:induction false} StagesInOrder(o: QueryOptions, r: nat)
    ensures InStageOrder(Stages(o, r)) && RankAtLeast(Stages(o, r), r)
    decreases 11 - r
  {
    if r <= 10 {
      StagesInOrder(o, r + 1);
      forall op | op in StageAt(o, r) ensures Rank(op) == r {
        StageRank(o, r, op);
      }
      StageSize(o, r);
      PrependStage(StageAt(o, r), r, Stages(o, r + 1));
    }
  }

  /** The builder calls are issued in the fixed stage order: where, include,
      only, except, limit, skip, order, locale, includeCount,
      includeContentType, includeFallback, each of the last nine at most
      once (lines 26-88). */
  lemma TranslateInStageOrder(o: QueryOptions)
    ensures InStageOrder(Translate(o))
  {
    StagesInOrder(o, 0);
  }

  /** A call is among those from rank `r` on iff its rank is at least `r`
      and the stage of its own rank issues it. */
  lemma {:induction false} StagesMembers(o: QueryOptions, r: nat, op: QueryOp)
    requires r <= 11
    ensures op in Stages(o, r) <==> r <= Rank(op) && op in StageAt(o, Rank(op))
    decreases 11 - r
  {
    if r <= 10 {
      StagesMembers(o, r + 1, op);
      if op in StageAt(o, r) {
        StageRank(o, r, op);
      }
    }
  }

  /** A call is issued iff the stage of its own rank issues it. */
  lemma TranslateByRank(o: QueryOptions, op: QueryOp)
    ensures op in Translate(o) <==> op in StageAt(o, Rank(op))
  {
    StagesMembers(o, 0, op);
  }

  /** The calls from rank `r` on are that stage's calls, then the rest. */
  lemma StagesStep(o: QueryOptions, r: nat)
    requires r <= 10
    ensures Stages(o, r) == StageAt(o, r) + Stages(o, r + 1)
  {
  }

  /** A call of rank `r` is issued iff stage `r` issues it. */
  lemma TranslateAt(o: QueryOptions, op: QueryOp, r: nat)
    requires Rank(op) == r
    ensures op in Translate(o) <==> op in StageAt(o, r)
  {
    TranslateByRank(o, op);
  }

  /** The whole translation, stage after stage. */
  lemma TranslateAllStages(o: QueryOptions)
    ensures Translate(o) == WhereStage(o) + (IncludeStage(o) + (OnlyStage(o) + (ExceptStage(o)
      + (LimitStage(o) + (SkipStage(o) + (OrderOps(o.order) + (LocaleStage(o)
      + (FlagStage(o.includeCount, IncludeCount)
      + (FlagStage(o.includeContentType, IncludeContentType)
      + FlagStage(o.includeFallback, IncludeFallback))))))))))
  {
    var t10 := FlagStage(o.includeFallback, IncludeFallback);
    assert Stages(o, 10) == t10 by { StagesStep(o, 10); assert Stages(o, 11) == []; }
    var t9 := FlagStage(o.includeContentType, IncludeContentType) + t10;
    assert Stages(o, 9) == t9 by { StagesStep(o, 9); }
    var t8 := FlagStage(o.includeCount, IncludeCount) + t9;
    assert Stages(o, 8) == t8 by { StagesStep(o, 8); }
    var t7 := LocaleStage(o) + t8;
    assert Stages(o, 7) == t7 by { StagesStep(o, 7); }
    var t6 := OrderOps(o.order) + t7;
    assert Stages(o, 6) == t6 by { StagesStep(o, 6); }
    var t5 := SkipStage(o) + t6;
    assert Stages(o, 5) == t5 by { StagesStep(o, 5); }
    var t4 := LimitStage(o) + t5;
    assert Stages(o, 4) == t4 by { StagesStep(o, 4); }
    var t3 := ExceptStage(o) + t4;
    assert Stages(o, 3) == t3 by { StagesStep(o, 3); }
    var t2 := OnlyStage(o) + t3;
    assert Stages(o, 2) == t2 by { StagesStep(o, 2); }
    var t1 := IncludeStage(o) + t2;
    assert Stages(o, 1) == t1 by { StagesStep(o, 1); }
    StagesStep(o, 0);
  }

  /** One `where` call per key whose value is not `undefined`, and no other
      (lines 26-32). */
  lemma WhereTranslation(o: QueryOptions, k: string, v: Json)
    ensures Where(k, v) in Translate(o) <==>
      o.where.Some? && (k, v) in o.where.value && v != Undefined
  {
    TranslateAt(o, Where(k, v), 0);
    if o.where.Some? {
      WhereOpsMembers(o.where.value, Where(k, v));
    }
  }

  lemma IncludeOpsMembers(paths: seq<string>, path: string)
    ensures IncludeReference(path) in IncludeOps(paths) <==> path in paths
  {
    var ops := IncludeOps(paths);
    if path in paths {
      var i :| 0 <= i < |paths| && paths[i] == path;
      assert ops[i] == IncludeReference(path);
    }
    if IncludeReference(path) in ops {
      var i :| 0 <= i < |ops| && ops[i] == IncludeReference(path);
      assert paths[i] == path;
    }
  }

  /** One `includeReference` call per path of a non-empty include list
      (lines 35-39). */
  lemma IncludeTranslation(o: QueryOptions, path: string)
    ensures IncludeReference(path) in Translate(o) <==>
      NonEmpty(o.includePaths) && path in o.includePaths.value
  {
    TranslateAt(o, IncludeReference(path), 1);
    if NonEmpty(o.includePaths) {
      IncludeOpsMembers(o.includePaths.value, path);
    }
  }

  /** Field selection is requested only by a non-empty list (lines 42-44). */
  lemma OnlyTranslation(o: QueryOptions, fs: seq<string>)
    ensures Only(fs) in Translate(o) <==> o.only == Some(fs) && |fs| > 0
  {
    TranslateAt(o, Only(fs), 2);
  }

  /** Field exclusion is requested only by a non-empty list (lines 47-49). */
  lemma ExceptTranslation(o: QueryOptions, fs: seq<string>)
    ensures Except(fs) in Translate(o) <==> o.except == Some(fs) && |fs| > 0
  {
    TranslateAt(o, Except(fs), 3);
  }

  /** A zero or absent limit issues no call (lines 52-54). */
  lemma LimitTranslation(o: QueryOptions, n: int)
    ensures Limit(n) in Translate(o) <==> o.limit == Some(n) && n != 0
  {
    TranslateAt(o, Limit(n), 4);
  }

  /** A zero or absent skip issues no call (lines 57-59). */
  lemma SkipTranslation(o: QueryOptions, n: int)
    ensures Skip(n) in Translate(o) <==> o.skip == Some(n) && n != 0
  {
    TranslateAt(o, Skip(n), 5);
  }

  /** An empty or absent locale issues no call (lines 71-73). */
  lemma LocaleTranslation(o: QueryOptions, s: string)
    ensures Language(s) in Translate(o) <==> o.locale == Some(s) && s != ""
  {
    TranslateAt(o, Language(s), 7);
  }

  /** `includeCount` issues its call only when it is `true` (lines 76-78). */
  lemma CountTranslation(o: QueryOptions)
    ensures IncludeCount in Translate(o) <==> o.includeCount == Some(true)
  {
    TranslateAt(o, IncludeCount, 8);
  }

  /** `includeContentType` issues its call only when it is `true` (lines
      81-83). */
  lemma ContentTypeTranslation(o: QueryOptions)
    ensures IncludeContentType in Translate(o) <==> o.includeContentType == Some(true)
  {
    TranslateAt(o, IncludeContentType, 9);
  }

  /** `includeFallback` issues its call only when it is `true` (lines
      86-88). */
  lemma FallbackTranslation(o: QueryOptions)
    ensures IncludeFallback in Translate(o) <==> o.includeFallback == Some(true)
  {
    TranslateAt(o, IncludeFallback, 10);
  }

  /** An order beginning with `-` sorts descending on what follows the dash;
      any other non-empty order sorts ascending on the whole string; an
      absent or empty order issues neither (lines 62-68). */
  lemma OrderTranslation(o: QueryOptions, f: string)
    ensures Descending(f) in Translate(o) <==> o.order == Some(['-'] + f)
    ensures Ascending(f) in Translate(o) <==> o.order == Some(f) && f != "" && f[0] != '-'
  {
    TranslateAt(o, Descending(f), 6);
    TranslateAt(o, Ascending(f), 6);
    if o.order.Some? && o.order.value != "" && o.order.value[0] == '-' {
      assert o.order.value == ['-'] + o.order.value[1..];
    }
  }

  /** For an object with unique keys: a `where` call is issued exactly for
      each property that does not read as `undefined`, with its value. */
  lemma WhereCallsOfObject(o: QueryOptions, w: Fields, k: string, v: Json)
    requires o.where == Some(w) && UniqueKeys(w)
    ensures Where(k, v) in Translate(o) <==> Lookup(w, k) == v && v != Undefined
  {
    WhereTranslation(o, k, v);
    PairIffLookup(w, k, v);
  }

  /** Options that set at most a filter, reference paths, an order and a
      locale translate to those four stages, in that order. */
  lemma PlainQueryTranslation(o: QueryOptions)
    requires o == NoOptions.(where := o.where, includePaths := o.includePaths, order := o.order, locale := o.locale)
    ensures Translate(o) == WhereStage(o) + IncludeStage(o) + OrderOps(o.order) + LocaleStage(o)
  {
    var tail := OrderOps(o.order) + LocaleStage(o);
    assert Stages(o, 8) == [] by {
      StagesStep(o, 8);
      StagesStep(o, 9);
      StagesStep(o, 10);
    }
    assert Stages(o, 6) == tail by {
      StagesStep(o, 6);
      StagesStep(o, 7);
    }
    assert Stages(o, 2) == tail by {
      StagesStep(o, 2);
      StagesStep(o, 3);
      StagesStep(o, 4);
      StagesStep(o, 5);
    }
    StagesStep(o, 1);
    StagesStep(o, 0);
    AppendAssoc(WhereStage(o), IncludeStage(o), tail);
    AppendAssoc(WhereStage(o) + IncludeStage(o), OrderOps(o.order), LocaleStage(o));
  }

  /** Options that set only a filter and an order translate to the `where`
      calls followed by the ordering call. */
  lemma FilterThenOrder(o: QueryOptions, w: Fields, order: string)
    requires o == NoOptions.(where := Some(w), order := Some(order))
    ensures Translate(o) == WhereOps(w) + OrderOps(Some(order))
  {
    PlainQueryTranslation(o);
  }
}
