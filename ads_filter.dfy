/**
 * The ad-request filters of the web client: `convertAdsFilter`
 * (apps/web/src/lib/utils.ts) and the path `getAdRequests` asks for
 * (apps/web/src/lib/http.ts). Both set one search parameter per filter that
 * is truthy, in the fixed order status, minBudget, maxBudget, language,
 * adFormat.
 */
module AdsFilterQuery {
  import opened Wrappers
  import opened JsText
  import opened UrlSearch

  /** The optional filters; a missing property is `None`. Budgets are whole numbers. */
  datatype AdsFilter = AdsFilter(
    status: Option<string>,
    minBudget: Option<int>,
    maxBudget: Option<int>,
    language: Option<string>,
    adFormat: Option<string>)

  /** A text filter is used when it is present and not empty. */
  predicate TextGiven(o: Option<string>)
  {
    o.Some? && o.value != ""
  }

  /** A number filter is used when it is present and not zero. */
  predicate NumberGiven(o: Option<int>)
  {
    o.Some? && o.value != 0
  }

  /** Appends the pair when the filter is used. */
  function When(es: Entries, given: bool, name: string, value: string): Entries
  {
    if given then es + [(name, value)] else es
  }

  /** The pairs the filters give, in the order they are set (no filters object: none). */
  function FilterEntries(filters: Option<AdsFilter>): Entries
  {
    match filters
    case None => []
    case Some(f) =>
      var e1 := When([], TextGiven(f.status), "status", f.status.OrElse(""));
      var e2 := When(e1, NumberGiven(f.minBudget), "minBudget", IntToString(f.minBudget.OrElse(0)));
      var e3 := When(e2, NumberGiven(f.maxBudget), "maxBudget", IntToString(f.maxBudget.OrElse(0)));
      var e4 := When(e3, TextGiven(f.language), "language", f.language.OrElse(""));
      When(e4, TextGiven(f.adFormat), "adFormat", f.adFormat.OrElse(""))
  }

  const FilterOrder: seq<string> := ["status", "minBudget", "maxBudget", "language", "adFormat"]

  /** The position of a filter name in the fixed order. */
  function Rank(name: string): int
  {
    if name == "status" then 0
    else if name == "minBudget" then 1
    else if name == "maxBudget" then 2
    else if name == "language" then 3
    else if name == "adFormat" then 4
    else 5
  }

  /** The names come in strictly increasing rank, so each occurs at most once. */
  predicate InOrder(es: Entries)
  {
    forall i, j :: 0 <= i < j < |es| ==> Rank(es[i].0) < Rank(es[j].0)
  }

  lemma WhenInOrder(es: Entries, given: bool, name: string, value: string)
    requires InOrder(es) && forall i :: 0 <= i < |es| ==> Rank(es[i].0) < Rank(name)
    ensures InOrder(When(es, given, name, value))
    ensures forall i :: 0 <= i < |When(es, given, name, value)| ==> Rank(When(es, given, name, value)[i].0) <= Rank(name)
  {
  }

  lemma {:induction false} ValuesOfAppend(es: Entries, name: string, value: string, m: string)
    ensures ValuesOf(es + [(name, value)], m) == ValuesOf(es, m) + (if m == name then [value] else [])
  {
    var r := es + [(name, value)];
    var tail := if m == name then [value] else [];
    if es == [] {
      assert r == [(name, value)];
      assert ValuesOf(r, m) == tail + ValuesOf([], m);
    } else {
      var h := if es[0].0 == m then [es[0].1] else [];
      assert r[0] == es[0] && r[1..] == es[1..] + [(name, value)];
      ValuesOfAppend(es[1..], name, value, m);
      calc {
        ValuesOf(r, m);
        h + ValuesOf(r[1..], m);
        h + (ValuesOf(es[1..], m) + tail);
        (h + ValuesOf(es[1..], m)) + tail;
      }
    }
  }

  /** The value a step contributes to `getAll(m)`. */
  function Part(given: bool, name: string, value: string, m: string): seq<string>
  {
    if given && m == name then [value] else []
  }

  lemma WhenValues(es: Entries, given: bool, name: string, value: string, m: string)
    ensures ValuesOf(When(es, given, name, value), m) == ValuesOf(es, m) + Part(given, name, value, m)
  {
    if given {
      ValuesOfAppend(es, name, value, m);
    }
  }

  lemma ValuesChain(f: AdsFilter, m: string)
    ensures ValuesOf(FilterEntries(Some(f)), m)
         == Part(TextGiven(f.status), "status", f.status.OrElse(""), m)
          + Part(NumberGiven(f.minBudget), "minBudget", IntToString(f.minBudget.OrElse(0)), m)
          + Part(NumberGiven(f.maxBudget), "maxBudget", IntToString(f.maxBudget.OrElse(0)), m)
          + Part(TextGiven(f.language), "language", f.language.OrElse(""), m)
          + Part(TextGiven(f.adFormat), "adFormat", f.adFormat.OrElse(""), m)
  {
    var e1 := When([], TextGiven(f.status), "status", f.status.OrElse(""));
    var e2 := When(e1, NumberGiven(f.minBudget), "minBudget", IntToString(f.minBudget.OrElse(0)));
    var e3 := When(e2, NumberGiven(f.maxBudget), "maxBudget", IntToString(f.maxBudget.OrElse(0)));
    var e4 := When(e3, TextGiven(f.language), "language", f.language.OrElse(""));
    WhenValues([], TextGiven(f.status), "status", f.status.OrElse(""), m);
    WhenValues(e1, NumberGiven(f.minBudget), "minBudget", IntToString(f.minBudget.OrElse(0)), m);
    WhenValues(e2, NumberGiven(f.maxBudget), "maxBudget", IntToString(f.maxBudget.OrElse(0)), m);
    WhenValues(e3, TextGiven(f.language), "language", f.language.OrElse(""), m);
    WhenValues(e4, TextGiven(f.adFormat), "adFormat", f.adFormat.OrElse(""), m);
    assert ValuesOf([], m) == [];
  }

  /**
   * `getAll` on the filters' parameters: each name carries its filter's
   * value exactly when the filter is truthy (so a budget of 0 is left out),
   * and at most once; no other name occurs.
   */
  lemma FilterEntriesValues(f: AdsFilter)
    ensures var es := FilterEntries(Some(f));
            ValuesOf(es, "status") == (if TextGiven(f.status) then [f.status.value] else [])
            && ValuesOf(es, "minBudget") == (if NumberGiven(f.minBudget) then [IntToString(f.minBudget.value)] else [])
            && ValuesOf(es, "maxBudget") == (if NumberGiven(f.maxBudget) then [IntToString(f.maxBudget.value)] else [])
            && ValuesOf(es, "language") == (if TextGiven(f.language) then [f.language.value] else [])
            && ValuesOf(es, "adFormat") == (if TextGiven(f.adFormat) then [f.adFormat.value] else [])
  {
    FilterEntriesValue(f, "status");
    FilterEntriesValue(f, "minBudget");
    FilterEntriesValue(f, "maxBudget");
    FilterEntriesValue(f, "language");
    FilterEntriesValue(f, "adFormat");
  }

  /** What `getAll(m)` gives for the filters: the filter's value when it is truthy; nothing for any other name. */
  function FilterValue(f: AdsFilter, m: string): seq<string>
  {
    if m == "status" then (if TextGiven(f.status) then [f.status.value] else [])
    else if m == "minBudget" then (if NumberGiven(f.minBudget) then [IntToString(f.minBudget.value)] else [])
    else if m == "maxBudget" then (if NumberGiven(f.maxBudget) then [IntToString(f.maxBudget.value)] else [])
    else if m == "language" then (if TextGiven(f.language) then [f.language.value] else [])
    else if m == "adFormat" then (if TextGiven(f.adFormat) then [f.adFormat.value] else [])
    else []
  }

  /** Every name, a filter's or any other, carries exactly the values `FilterValue` gives. */
  lemma FilterEntriesValue(f: AdsFilter, m: string)
    ensures ValuesOf(FilterEntries(Some(f)), m) == FilterValue(f, m)
  {
    ValuesChain(f, m);
    RankOfFilterNames();
    var p1 := Part(TextGiven(f.status), "status", f.status.OrElse(""), m);
    var p2 := Part(NumberGiven(f.minBudget), "minBudget", IntToString(f.minBudget.OrElse(0)), m);
    var p3 := Part(NumberGiven(f.maxBudget), "maxBudget", IntToString(f.maxBudget.OrElse(0)), m);
    var p4 := Part(TextGiven(f.language), "language", f.language.OrElse(""), m);
    var p5 := Part(TextGiven(f.adFormat), "adFormat", f.adFormat.OrElse(""), m);
    OnePart(p1, p2, p3, p4, p5);
  }

  /** Of five parts, at most one is not empty; their concatenation is that one. */
  lemma OnePart(p1: seq<string>, p2: seq<string>, p3: seq<string>, p4: seq<string>, p5: seq<string>)
    ensures p2 == [] && p3 == [] && p4 == [] && p5 == [] ==> p1 + p2 + p3 + p4 + p5 == p1
    ensures p1 == [] && p3 == [] && p4 == [] && p5 == [] ==> p1 + p2 + p3 + p4 + p5 == p2
    ensures p1 == [] && p2 == [] && p4 == [] && p5 == [] ==> p1 + p2 + p3 + p4 + p5 == p3
    ensures p1 == [] && p2 == [] && p3 == [] && p5 == [] ==> p1 + p2 + p3 + p4 + p5 == p4
    ensures p1 == [] && p2 == [] && p3 == [] && p4 == [] ==> p1 + p2 + p3 + p4 + p5 == p5
  {
  }

  lemma RankOfFilterNames()
    ensures Rank("status") == 0 && Rank("minBudget") == 1 && Rank("maxBudget") == 2
    ensures Rank("language") == 3 && Rank("adFormat") == 4
  {
  }

  /** A name ranked within the fixed order is one of the filter names. */
  lemma RankedName(name: string)
    requires Rank(name) <= 4
    ensures name in FilterOrder
  {
  }

  /** One step of the chain keeps the order when its name ranks `r`, above all earlier names. */
  lemma WhenStep(es: Entries, given: bool, name: string, value: string, r: int)
    requires Rank(name) == r
    requires InOrder(es) && forall i :: 0 <= i < |es| ==> Rank(es[i].0) < r
    ensures InOrder(When(es, given, name, value))
    ensures forall i :: 0 <= i < |When(es, given, name, value)| ==> Rank(When(es, given, name, value)[i].0) < r + 1
  {
    WhenInOrder(es, given, name, value);
  }

  /** The parameters come in the fixed order status, minBudget, maxBudget, language, adFormat. */
  lemma FilterEntriesOrder(filters: Option<AdsFilter>)
    ensures var es := FilterEntries(filters);
            InOrder(es) && (forall i :: 0 <= i < |es| ==> es[i].0 in FilterOrder)
  {
    if filters.Some? {
      var f := filters.value;
      RankOfFilterNames();
      var e1 := When([], TextGiven(f.status), "status", f.status.OrElse(""));
      var e2 := When(e1, NumberGiven(f.minBudget), "minBudget", IntToString(f.minBudget.OrElse(0)));
      var e3 := When(e2, NumberGiven(f.maxBudget), "maxBudget", IntToString(f.maxBudget.OrElse(0)));
      var e4 := When(e3, TextGiven(f.language), "language", f.language.OrElse(""));
      WhenStep([], TextGiven(f.status), "status", f.status.OrElse(""), 0);
      WhenStep(e1, NumberGiven(f.minBudget), "minBudget", IntToString(f.minBudget.OrElse(0)), 1);
      WhenStep(e2, NumberGiven(f.maxBudget), "maxBudget", IntToString(f.maxBudget.OrElse(0)), 2);
      WhenStep(e3, TextGiven(f.language), "language", f.language.OrElse(""), 3);
      WhenStep(e4, TextGiven(f.adFormat), "adFormat", f.adFormat.OrElse(""), 4);
      var es := FilterEntries(filters);
      forall i | 0 <= i < |es| ensures es[i].0 in FilterOrder {
        RankedName(es[i].0);
      }
    }
  }

  /** There is no parameter exactly when there is no filters object or none of its filters is truthy. */
  lemma FilterEntriesEmpty(filters: Option<AdsFilter>)
    ensures FilterEntries(filters) == [] <==>
              filters.None? || (!TextGiven(filters.value.status) && !NumberGiven(filters.value.minBudget)
                                && !NumberGiven(filters.value.maxBudget) && !TextGiven(filters.value.language)
                                && !TextGiven(filters.value.adFormat))
  {
    if filters.Some? {
      var f := filters.value;
      var e1 := When([], TextGiven(f.status), "status", f.status.OrElse(""));
      var e2 := When(e1, NumberGiven(f.minBudget), "minBudget", IntToString(f.minBudget.OrElse(0)));
      var e3 := When(e2, NumberGiven(f.maxBudget), "maxBudget", IntToString(f.maxBudget.OrElse(0)));
      var e4 := When(e3, TextGiven(f.language), "language", f.language.OrElse(""));
      assert |e1| == (if TextGiven(f.status) then 1 else 0);
      assert |e2| == |e1| + (if NumberGiven(f.minBudget) then 1 else 0);
      assert |e3| == |e2| + (if NumberGiven(f.maxBudget) then 1 else 0);
      assert |e4| == |e3| + (if TextGiven(f.language) then 1 else 0);
      assert |FilterEntries(filters)| == |e4| + (if TextGiven(f.adFormat) then 1 else 0);
    }
  }

  /** A name ranked above every name present is not among them. */
  lemma AboveAllNames(es: Entries, name: string)
    requires forall i :: 0 <= i < |es| ==> Rank(es[i].0) < Rank(name)
    ensures name !in Names(es)
  {
  }

  /**
   * `if (given) params.set(name, value)` on a builder whose names all rank
   * below `name`: one pair is appended, and every name still ranks at most `name`'s.
   */
  method SetIfGiven(params: UrlSearchParams, given: bool, name: string, value: string)
    requires forall i :: 0 <= i < |params.entries| ==> Rank(params.entries[i].0) < Rank(name)
    modifies params
    ensures params.entries == When(old(params.entries), given, name, value)
    ensures forall i :: 0 <= i < |params.entries| ==> Rank(params.entries[i].0) < Rank(name) + 1
  {
    if given {
      AboveAllNames(params.entries, name);
      SetEntryAppends(params.entries, name, value);
      params.Set(name, value);
    }
  }

  /**
   * Builds the parameters step by step, as both functions do: one `set` per
   * truthy filter, in order, on a fresh builder.
   */
  method FillParams(filters: Option<AdsFilter>) returns (params: UrlSearchParams)
    ensures params.entries == FilterEntries(filters)
  {
    params := new UrlSearchParams();
    if filters.None? {
      return;
    }
    var f := filters.value;
    RankOfFilterNames();
    SetIfGiven(params, TextGiven(f.status), "status", f.status.OrElse(""));
    SetIfGiven(params, NumberGiven(f.minBudget), "minBudget", IntToString(f.minBudget.OrElse(0)));
    SetIfGiven(params, NumberGiven(f.maxBudget), "maxBudget", IntToString(f.maxBudget.OrElse(0)));
    SetIfGiven(params, TextGiven(f.language), "language", f.language.OrElse(""));
    SetIfGiven(params, TextGiven(f.adFormat), "adFormat", f.adFormat.OrElse(""));
  }

  /**
   * `convertAdsFilter`: the query string of the filters' pairs; it parses
   * back to exactly those pairs and is empty exactly when there are none.
   */
  method ConvertAdsFilter(filters: Option<AdsFilter>) returns (q: string)
    ensures ParseQuery(q) == Some(FilterEntries(filters))
    ensures q == "" <==> FilterEntries(filters) == []
    ensures q == Serialize(FilterEntries(filters))
  {
    var params := FillParams(filters);
    q := params.ToString();
  }

  /**
   * `getAdRequests`: the path `ads`, followed by `?` and the same query
   * string as `convertAdsFilter` when at least one filter is used.
   */
  method AdRequestsPath(filters: Option<AdsFilter>) returns (path: string)
    ensures FilterEntries(filters) == [] ==> path == "ads"
    ensures FilterEntries(filters) != [] ==>
              |path| > 4 && path[..4] == "ads?" && ParseQuery(path[4..]) == Some(FilterEntries(filters))
              && path[4..] == Serialize(FilterEntries(filters))
  {
    var params := FillParams(filters);
    var queryString := params.ToString();
    if queryString != "" {
      path := "ads" + "?" + queryString;
      assert path[4..] == queryString;
    } else {
      path := "ads";
    }
  }
}
