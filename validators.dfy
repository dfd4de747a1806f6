/**
 * The request and response schemas of the API routes
 * (the validators.ts file of each route under apps/backend/src/routes/api), one module per file. Each
 * schema is a function from the JSON value to its parsed data, `None` when
 * zod refuses the value. Object schemas drop unknown keys.
 */
module ValidatorBasics {
  import opened Wrappers
  import opened JsValues
  import opened JsText
  import opened Schema
  import opened Zod

  /** A property of an object input; anything that is not an object has none. */
  function F(v: JsValue, k: string): JsValue
  {
    if v.Obj? then Get(v.fields, k) else Undefined
  }

  /** A number `.int()` accepts with `.min(min)`: whole, a safe integer, and at least `min`. */
  predicate SafeWhole(x: JsValue, min: int)
  {
    x.Num? && IsWhole(x.n) && -MaxSafeInteger <= x.n.Floor <= MaxSafeInteger && min <= x.n.Floor
  }

  /** An optional string property as parsed: absent gives `None`, a string gives itself. */
  predicate OptionalText(x: JsValue, o: Option<string>)
  {
    if x.Undefined? then o.None? else o.Some? && x == Str(o.value)
  }

  /** An optional integer property as parsed: absent gives `None`, a number gives its value. */
  predicate OptionalWhole(x: JsValue, o: Option<int>)
  {
    if x.Undefined? then o.None? else o.Some? && x == Num(o.value as real)
  }

  /** An optional enumeration property as parsed: absent gives `None`, otherwise the property is the value's name. */
  predicate OptionalNamed<T>(x: JsValue, o: Option<T>, name: T -> string)
  {
    if x.Undefined? then o.None? else o.Some? && x == Str(name(o.value))
  }

  /** An optional array of strings as parsed: absent gives `None`, otherwise the same strings in order. */
  predicate OptionalTexts(x: JsValue, o: Option<seq<string>>)
  {
    if x.Undefined? then o.None?
    else o.Some? && x.Arr? && |x.items| == |o.value| && forall i :: 0 <= i < |x.items| ==> x.items[i] == Str(o.value[i])
  }

  /** An array whose items are all strings. */
  predicate AllTexts(x: JsValue)
  {
    x.Arr? && forall i :: 0 <= i < |x.items| ==> x.items[i].Str?
  }

  function ZAdFormat(v: JsValue): (r: Option<AdFormat>)
    ensures r.Some? <==> v.Str? && exists f: AdFormat :: f.Name() == v.s
    ensures r.Some? ==> r.value.Name() == v.s
  {
    if v.Str? then ParseAdFormat(v.s) else None
  }

  function ZAdRequestStatus(v: JsValue): (r: Option<AdRequestStatus>)
    ensures r.Some? <==> v.Str? && exists a: AdRequestStatus :: a.Name() == v.s
    ensures r.Some? ==> r.value.Name() == v.s
  {
    if v.Str? then ParseAdRequestStatus(v.s) else None
  }

  function ZCreativeStatus(v: JsValue): (r: Option<CreativeStatus>)
    ensures r.Some? <==> v.Str? && exists c: CreativeStatus :: c.Name() == v.s
    ensures r.Some? ==> r.value.Name() == v.s
  {
    if v.Str? then ParseCreativeStatus(v.s) else None
  }

  function ZDealStatus(v: JsValue): (r: Option<DealStatus>)
    ensures r.Some? <==> v.Str? && exists d: DealStatus :: d.Name() == v.s
    ensures r.Some? ==> r.value.Name() == v.s
  {
    if v.Str? then ParseDealStatus(v.s) else None
  }

  /** `z.string()` with its length bounds, made `.optional()`. */
  function OptText(x: JsValue, min: nat, max: Option<nat>): (r: Option<Option<string>>)
    ensures r.Some? <==> x.Undefined? || (x.Str? && min <= Utf16Length(x.s) && (max.None? || Utf16Length(x.s) <= max.value))
    ensures r.Some? ==> OptionalText(x, r.value)
  {
    ZOptional(x, ZString(x, false, min, max))
  }

  /** `z.number().int().min(min).optional()`. */
  function OptWhole(x: JsValue, min: int): (r: Option<Option<int>>)
    ensures r.Some? <==> x.Undefined? || SafeWhole(x, min)
    ensures r.Some? ==> OptionalWhole(x, r.value)
  {
    ZOptional(x, ZInt(x, Some(min)))
  }

  /** `z.array(z.string()).optional()`. */
  function OptTexts(x: JsValue): (r: Option<Option<seq<string>>>)
    ensures r.Some? <==> x.Undefined? || AllTexts(x)
    ensures r.Some? ==> OptionalTexts(x, r.value)
  {
    ZOptional(x, ZStringArray(x))
  }

  /** The ad format enumeration, made `.optional()`. */
  function OptAdFormat(x: JsValue): (r: Option<Option<AdFormat>>)
    ensures r.Some? <==> x.Undefined? || (x.Str? && ParseAdFormat(x.s).Some?)
    ensures r.Some? ==> OptionalNamed(x, r.value, (f: AdFormat) => f.Name())
  {
    ZOptional(x, ZAdFormat(x))
  }

  /** The ad request status enumeration, made `.optional()`. */
  function OptAdRequestStatus(x: JsValue): (r: Option<Option<AdRequestStatus>>)
    ensures r.Some? <==> x.Undefined? || (x.Str? && ParseAdRequestStatus(x.s).Some?)
    ensures r.Some? ==> OptionalNamed(x, r.value, (a: AdRequestStatus) => a.Name())
  {
    ZOptional(x, ZAdRequestStatus(x))
  }

  /** The creative status enumeration, made `.optional()`. */
  function OptCreativeStatus(x: JsValue): (r: Option<Option<CreativeStatus>>)
    ensures r.Some? <==> x.Undefined? || (x.Str? && ParseCreativeStatus(x.s).Some?)
    ensures r.Some? ==> OptionalNamed(x, r.value, (c: CreativeStatus) => c.Name())
  {
    ZOptional(x, ZCreativeStatus(x))
  }

  /** The deal status enumeration, made `.optional()`. */
  function OptDealStatus(x: JsValue): (r: Option<Option<DealStatus>>)
    ensures r.Some? <==> x.Undefined? || (x.Str? && ParseDealStatus(x.s).Some?)
    ensures r.Some? ==> OptionalNamed(x, r.value, (d: DealStatus) => d.Name())
  {
    ZOptional(x, ZDealStatus(x))
  }
}

module AdsValidators {
  import opened Wrappers
  import opened JsValues
  import opened JsText
  import opened Schema
  import opened Zod
  import opened ValidatorBasics

  datatype CreateAdRequestParam = CreateAdRequestParam(
    title: string, description: Option<string>, budget: int, minSubscribers: int,
    language: Option<string>, deadline: string, adFormat: AdFormat, contentGuidelines: Option<string>)

  /** `z.number().int().min(0).default(d)`. */
  function ZCountDefault(v: JsValue, d: int): (r: Option<int>)
    ensures v.Undefined? ==> r == Some(d)
    ensures !v.Undefined? ==> r == ZInt(v, Some(0))
  {
    if v.Undefined? then Some(d) else ZInt(v, Some(0))
  }

  /** `CreateAdRequestSchema`. */
  function ParseCreateAdRequest(v: JsValue): (r: Option<CreateAdRequestParam>)
    ensures !v.Obj? ==> r.None?
    ensures r.Some? ==> F(v, "title") == Str(r.value.title) && 1 <= Utf16Length(r.value.title) <= 200
    ensures r.Some? ==> F(v, "deadline") == Str(r.value.deadline)
    ensures r.Some? ==> r.value.budget >= 0 && r.value.minSubscribers >= 0
    ensures r.Some? && F(v, "budget").Undefined? ==> r.value.budget == 0
    ensures r.Some? && F(v, "minSubscribers").Undefined? ==> r.value.minSubscribers == 0
    ensures r.Some? && F(v, "adFormat").Undefined? ==> r.value.adFormat == Post
    ensures r.Some? && !F(v, "adFormat").Undefined? ==> F(v, "adFormat") == Str(r.value.adFormat.Name())
    ensures !F(v, "title").Str? || !F(v, "deadline").Str? ==> r.None?
    ensures r.Some? <==> v.Obj? && F(v, "title").Str? && 1 <= Utf16Length(F(v, "title").s) <= 200
                         && (F(v, "description").Undefined? || F(v, "description").Str?)
                         && (F(v, "budget").Undefined? || SafeWhole(F(v, "budget"), 0))
                         && (F(v, "minSubscribers").Undefined? || SafeWhole(F(v, "minSubscribers"), 0))
                         && (F(v, "language").Undefined? || F(v, "language").Str?)
                         && F(v, "deadline").Str?
                         && (F(v, "adFormat").Undefined? || (F(v, "adFormat").Str? && ParseAdFormat(F(v, "adFormat").s).Some?))
                         && (F(v, "contentGuidelines").Undefined? || F(v, "contentGuidelines").Str?)
    ensures r.Some? ==>
              OptionalText(F(v, "description"), r.value.description)
              && OptionalText(F(v, "language"), r.value.language)
              && OptionalText(F(v, "contentGuidelines"), r.value.contentGuidelines)
              && (!F(v, "budget").Undefined? ==> F(v, "budget") == Num(r.value.budget as real))
              && (!F(v, "minSubscribers").Undefined? ==> F(v, "minSubscribers") == Num(r.value.minSubscribers as real))
  {
    if !v.Obj? then None
    else
      var title := ZString(F(v, "title"), false, 1, Some(200));
      var description := OptText(F(v, "description"), 0, None);
      var budget := ZCountDefault(F(v, "budget"), 0);
      var minSubscribers := ZCountDefault(F(v, "minSubscribers"), 0);
      var language := OptText(F(v, "language"), 0, None);
      var deadline := ZString(F(v, "deadline"), false, 0, None);
      var adFormat := if F(v, "adFormat").Undefined? then Some(Post) else ZAdFormat(F(v, "adFormat"));
      var guidelines := OptText(F(v, "contentGuidelines"), 0, None);
      if title.Some? && description.Some? && budget.Some? && minSubscribers.Some? && language.Some?
         && deadline.Some? && adFormat.Some? && guidelines.Some?
      then Some(CreateAdRequestParam(title.value, description.value, budget.value, minSubscribers.value,
                                     language.value, deadline.value, adFormat.value, guidelines.value))
      else None
  }

  /** A body with only a valid title and a deadline string is accepted with every default filled in. */
  lemma CreateAdRequestDefaults(title: string, deadline: string)
    requires 1 <= Utf16Length(title) <= 200
    ensures ParseCreateAdRequest(Obj([("title", Str(title)), ("deadline", Str(deadline))]))
            == Some(CreateAdRequestParam(title, None, 0, 0, None, deadline, Post, None))
  {
    var v := Obj([("title", Str(title)), ("deadline", Str(deadline))]);
    forall k ensures F(v, k) == if k == "title" then Str(title) else if k == "deadline" then Str(deadline) else Undefined {
      TwoFields(v.fields, k);
    }
    ParseCreateAdRequestOf(v, title, deadline);
  }

  /** An object with a valid title, a deadline string and nothing else parses with every default filled in. */
  lemma ParseCreateAdRequestOf(v: JsValue, title: string, deadline: string)
    requires v.Obj? && 1 <= Utf16Length(title) <= 200
    requires F(v, "title") == Str(title) && F(v, "deadline") == Str(deadline)
    requires F(v, "description").Undefined? && F(v, "budget").Undefined? && F(v, "minSubscribers").Undefined?
    requires F(v, "language").Undefined? && F(v, "adFormat").Undefined? && F(v, "contentGuidelines").Undefined?
    ensures ParseCreateAdRequest(v) == Some(CreateAdRequestParam(title, None, 0, 0, None, deadline, Post, None))
  {
  }

  datatype UpdateAdRequestParam = UpdateAdRequestParam(
    title: Option<string>, description: Option<string>, budget: Option<int>, minSubscribers: Option<int>,
    language: Option<string>, deadline: Option<string>, adFormat: Option<AdFormat>,
    contentGuidelines: Option<string>, status: Option<AdRequestStatus>)

  const EmptyUpdate := UpdateAdRequestParam(None, None, None, None, None, None, None, None, None)

  /** `UpdateAdRequestSchema`: every field optional, with the bounds of the create schema and the four statuses. */
  function ParseUpdateAdRequest(v: JsValue): (r: Option<UpdateAdRequestParam>)
    ensures !v.Obj? ==> r.None?
    ensures r.Some? ==> (r.value.title.Some? <==> !F(v, "title").Undefined?)
    ensures r.Some? && r.value.title.Some? ==> 1 <= Utf16Length(r.value.title.value) <= 200
    ensures r.Some? && r.value.budget.Some? ==> r.value.budget.value >= 0
    ensures r.Some? && r.value.minSubscribers.Some? ==> r.value.minSubscribers.value >= 0
    ensures r.Some? ==> (r.value.status.Some? <==> !F(v, "status").Undefined?)
    ensures r.Some? && r.value.status.Some? ==> F(v, "status") == Str(r.value.status.value.Name())
    ensures r.Some? <==> v.Obj?
                         && (F(v, "title").Undefined? || (F(v, "title").Str? && 1 <= Utf16Length(F(v, "title").s) <= 200))
                         && (F(v, "description").Undefined? || F(v, "description").Str?)
                         && (F(v, "budget").Undefined? || SafeWhole(F(v, "budget"), 0))
                         && (F(v, "minSubscribers").Undefined? || SafeWhole(F(v, "minSubscribers"), 0))
                         && (F(v, "language").Undefined? || F(v, "language").Str?)
                         && (F(v, "deadline").Undefined? || F(v, "deadline").Str?)
                         && (F(v, "adFormat").Undefined? || (F(v, "adFormat").Str? && ParseAdFormat(F(v, "adFormat").s).Some?))
                         && (F(v, "contentGuidelines").Undefined? || F(v, "contentGuidelines").Str?)
                         && (F(v, "status").Undefined? || (F(v, "status").Str? && ParseAdRequestStatus(F(v, "status").s).Some?))
    ensures r.Some? ==>
              OptionalText(F(v, "title"), r.value.title)
              && OptionalText(F(v, "description"), r.value.description)
              && OptionalWhole(F(v, "budget"), r.value.budget)
              && OptionalWhole(F(v, "minSubscribers"), r.value.minSubscribers)
              && OptionalText(F(v, "language"), r.value.language)
              && OptionalText(F(v, "deadline"), r.value.deadline)
              && OptionalNamed(F(v, "adFormat"), r.value.adFormat, (f: AdFormat) => f.Name())
              && OptionalText(F(v, "contentGuidelines"), r.value.contentGuidelines)
              && OptionalNamed(F(v, "status"), r.value.status, (a: AdRequestStatus) => a.Name())
  {
    if !v.Obj? then None
    else
      var title := OptText(F(v, "title"), 1, Some(200));
      var description := OptText(F(v, "description"), 0, None);
      var budget := OptWhole(F(v, "budget"), 0);
      var minSubscribers := OptWhole(F(v, "minSubscribers"), 0);
      var language := OptText(F(v, "language"), 0, None);
      var deadline := OptText(F(v, "deadline"), 0, None);
      var adFormat := OptAdFormat(F(v, "adFormat"));
      var guidelines := OptText(F(v, "contentGuidelines"), 0, None);
      var status := OptAdRequestStatus(F(v, "status"));
      if title.Some? && description.Some? && budget.Some? && minSubscribers.Some? && language.Some?
         && deadline.Some? && adFormat.Some? && guidelines.Some? && status.Some?
      then Some(UpdateAdRequestParam(title.value, description.value, budget.value, minSubscribers.value,
                                     language.value, deadline.value, adFormat.value, guidelines.value, status.value))
      else None
  }

  /** The empty object is a valid update that changes nothing. */
  lemma UpdateAdRequestEmpty()
    ensures ParseUpdateAdRequest(Obj([])) == Some(EmptyUpdate)
  {
  }

  /** `ApplyToAdRequestSchema`: a positive integer `channelId`. */
  function ParseApplyToAdRequest(v: JsValue): (r: Option<int>)
    ensures r.Some? <==> v.Obj? && F(v, "channelId").Num? && IsWhole(F(v, "channelId").n)
                         && 1 <= F(v, "channelId").n.Floor <= MaxSafeInteger
    ensures r.Some? ==> r.value >= 1 && F(v, "channelId") == Num(r.value as real)
  {
    if v.Obj? then ZInt(F(v, "channelId"), Some(1)) else None
  }

  datatype AdRequestsQuery = AdRequestsQuery(
    status: Option<AdRequestStatus>, minBudget: Option<int>, maxBudget: Option<int>,
    language: Option<string>, adFormat: Option<AdFormat>)

  /** A query-string parameter: present with its text, or absent. */
  function QueryParam(query: map<string, string>, k: string): JsValue
  {
    if k in query then Str(query[k]) else Undefined
  }

  /** An optional coerced budget parameter. */
  function BudgetParam(query: map<string, string>, k: string): (r: Option<Option<int>>)
    ensures k !in query ==> r == Some(None)
    ensures k in query ==> (r.Some? <==> ZCoercePositiveInt(query[k]).Some?)
    ensures r.Some? && r.value.Some? ==> k in query && r.value.value >= 1
    ensures k in query && r.Some? ==> r.value == ZCoercePositiveInt(query[k])
  {
    if k !in query then Some(None)
    else
      var n := ZCoercePositiveInt(query[k]);
      if n.Some? then Some(n) else None
  }

  /** `GetAdRequestsQuerySchema` over the query parameters. */
  function ParseAdRequestsQuery(query: map<string, string>): (r: Option<AdRequestsQuery>)
    ensures r.Some? && r.value.minBudget.Some? ==> r.value.minBudget.value >= 1
    ensures r.Some? && r.value.maxBudget.Some? ==> r.value.maxBudget.value >= 1
    ensures r.Some? && r.value.language.Some? ==> r.value.language.value != ""
    ensures "language" in query && query["language"] == "" ==> r.None?
    ensures "minBudget" in query && ZCoercePositiveInt(query["minBudget"]).None? ==> r.None?
    ensures r.Some? <==> ("status" !in query || ParseAdRequestStatus(query["status"]).Some?)
                         && ("minBudget" !in query || ZCoercePositiveInt(query["minBudget"]).Some?)
                         && ("maxBudget" !in query || ZCoercePositiveInt(query["maxBudget"]).Some?)
                         && ("language" !in query || 1 <= Utf16Length(query["language"]))
                         && ("adFormat" !in query || ParseAdFormat(query["adFormat"]).Some?)
    ensures r.Some? ==>
              r.value.minBudget == (if "minBudget" in query then ZCoercePositiveInt(query["minBudget"]) else None)
              && r.value.maxBudget == (if "maxBudget" in query then ZCoercePositiveInt(query["maxBudget"]) else None)
              && r.value.language == (if "language" in query then Some(query["language"]) else None)
              && (r.value.status.Some? <==> "status" in query)
              && (r.value.status.Some? ==> r.value.status.value.Name() == query["status"])
              && (r.value.adFormat.Some? <==> "adFormat" in query)
              && (r.value.adFormat.Some? ==> r.value.adFormat.value.Name() == query["adFormat"])
  {
    var status := ZOptional(QueryParam(query, "status"), ZAdRequestStatus(QueryParam(query, "status")));
    var minBudget := BudgetParam(query, "minBudget");
    var maxBudget := BudgetParam(query, "maxBudget");
    var language := ZOptional(QueryParam(query, "language"), ZString(QueryParam(query, "language"), false, 1, None));
    var adFormat := ZOptional(QueryParam(query, "adFormat"), ZAdFormat(QueryParam(query, "adFormat")));
    if status.Some? && minBudget.Some? && maxBudget.Some? && language.Some? && adFormat.Some?
    then Some(AdRequestsQuery(status.value, minBudget.value, maxBudget.value, language.value, adFormat.value))
    else None
  }
}

module CreativesValidators {
  import opened Wrappers
  import opened JsValues
  import opened JsText
  import opened Schema
  import opened Zod
  import opened ValidatorBasics

  datatype CreateCreativeParam = CreateCreativeParam(content: string, mediaUrls: Option<seq<string>>)

  /** `CreateCreativeSchema`: non-empty `content` and an optional array of strings. */
  function ParseCreateCreative(v: JsValue): (r: Option<CreateCreativeParam>)
    ensures r.Some? ==> v.Obj? && F(v, "content") == Str(r.value.content) && r.value.content != ""
    ensures r.Some? ==> (r.value.mediaUrls.None? <==> F(v, "mediaUrls").Undefined?)
    ensures r.Some? && r.value.mediaUrls.Some? ==>
              var urls := r.value.mediaUrls.value;
              F(v, "mediaUrls").Arr? && |F(v, "mediaUrls").items| == |urls|
              && forall i :: 0 <= i < |urls| ==> F(v, "mediaUrls").items[i] == Str(urls[i])
    ensures !F(v, "content").Str? || F(v, "content").s == "" ==> r.None?
    ensures r.Some? <==> v.Obj? && F(v, "content").Str? && 1 <= Utf16Length(F(v, "content").s)
                         && (F(v, "mediaUrls").Undefined? || AllTexts(F(v, "mediaUrls")))
  {
    if !v.Obj? then None
    else
      var content := ZString(F(v, "content"), false, 1, None);
      var mediaUrls := OptTexts(F(v, "mediaUrls"));
      if content.Some? && mediaUrls.Some? then Some(CreateCreativeParam(content.value, mediaUrls.value)) else None
  }

  datatype UpdateCreativeParam = UpdateCreativeParam(
    content: Option<string>, mediaUrls: Option<seq<string>>, status: Option<CreativeStatus>, reviewNote: Option<string>)

  /** `UpdateCreativeSchema`: every field optional; a present `content` is non-empty. */
  function ParseUpdateCreative(v: JsValue): (r: Option<UpdateCreativeParam>)
    ensures !v.Obj? ==> r.None?
    ensures r.Some? && r.value.content.Some? ==> r.value.content.value != "" && F(v, "content") == Str(r.value.content.value)
    ensures r.Some? ==> (r.value.content.Some? <==> !F(v, "content").Undefined?)
    ensures r.Some? ==> (r.value.status.Some? <==> !F(v, "status").Undefined?)
    ensures r.Some? && r.value.status.Some? ==> F(v, "status") == Str(r.value.status.value.Name())
    ensures r.Some? ==> (r.value.reviewNote.Some? <==> !F(v, "reviewNote").Undefined?)
    ensures r.Some? ==> (r.value.mediaUrls.Some? <==> !F(v, "mediaUrls").Undefined?)
    ensures r.Some? <==> v.Obj?
                         && (F(v, "content").Undefined? || (F(v, "content").Str? && 1 <= Utf16Length(F(v, "content").s)))
                         && (F(v, "mediaUrls").Undefined? || AllTexts(F(v, "mediaUrls")))
                         && (F(v, "status").Undefined? || (F(v, "status").Str? && ParseCreativeStatus(F(v, "status").s).Some?))
                         && (F(v, "reviewNote").Undefined? || F(v, "reviewNote").Str?)
    ensures r.Some? ==>
              OptionalText(F(v, "content"), r.value.content)
              && OptionalTexts(F(v, "mediaUrls"), r.value.mediaUrls)
              && OptionalNamed(F(v, "status"), r.value.status, (c: CreativeStatus) => c.Name())
              && OptionalText(F(v, "reviewNote"), r.value.reviewNote)
  {
    if !v.Obj? then None
    else
      var content := OptText(F(v, "content"), 1, None);
      var mediaUrls := OptTexts(F(v, "mediaUrls"));
      var status := OptCreativeStatus(F(v, "status"));
      var reviewNote := OptText(F(v, "reviewNote"), 0, None);
      if content.Some? && mediaUrls.Some? && status.Some? && reviewNote.Some?
      then Some(UpdateCreativeParam(content.value, mediaUrls.value, status.value, reviewNote.value))
      else None
  }

  /** `{}` is a valid update, and an unknown status is not. */
  lemma UpdateCreativeExamples()
    ensures ParseUpdateCreative(Obj([])) == Some(UpdateCreativeParam(None, None, None, None))
    ensures ParseUpdateCreative(Obj([("status", Str("published"))])).None?
  {
    assert F(Obj([("status", Str("published"))]), "status") == Str("published");
  }
}

module DealsValidators {
  import opened Wrappers
  import opened JsValues
  import opened JsText
  import opened Schema
  import opened Zod
  import opened ValidatorBasics

  datatype UpdateDealParam = UpdateDealParam(
    status: Option<DealStatus>, scheduledPostAt: Option<string>, minPostDurationHours: Option<int>)

  /** `UpdateDealSchema`: every field optional; a status among the seven, a UTC date-time, a positive duration. */
  function ParseUpdateDeal(v: JsValue): (r: Option<UpdateDealParam>)
    ensures !v.Obj? ==> r.None?
    ensures r.Some? && r.value.status.Some? ==> F(v, "status") == Str(r.value.status.value.Name())
    ensures r.Some? && r.value.scheduledPostAt.Some? ==> IsIsoDateTime(r.value.scheduledPostAt.value)
    ensures r.Some? && r.value.minPostDurationHours.Some? ==> r.value.minPostDurationHours.value >= 1
    ensures r.Some? ==> (r.value.status.None? <==> F(v, "status").Undefined?)
    ensures r.Some? <==> v.Obj?
                         && (F(v, "status").Undefined? || (F(v, "status").Str? && ParseDealStatus(F(v, "status").s).Some?))
                         && (F(v, "scheduledPostAt").Undefined?
                             || (F(v, "scheduledPostAt").Str? && IsIsoDateTime(F(v, "scheduledPostAt").s)))
                         && (F(v, "minPostDurationHours").Undefined? || SafeWhole(F(v, "minPostDurationHours"), 1))
    ensures r.Some? ==>
              OptionalNamed(F(v, "status"), r.value.status, (d: DealStatus) => d.Name())
              && OptionalText(F(v, "scheduledPostAt"), r.value.scheduledPostAt)
              && OptionalWhole(F(v, "minPostDurationHours"), r.value.minPostDurationHours)
  {
    if !v.Obj? then None
    else
      var status := OptDealStatus(F(v, "status"));
      var at := ZOptional(F(v, "scheduledPostAt"), ZDateTime(F(v, "scheduledPostAt")));
      var hours := OptWhole(F(v, "minPostDurationHours"), 1);
      if status.Some? && at.Some? && hours.Some? then Some(UpdateDealParam(status.value, at.value, hours.value)) else None
  }

  lemma UpdateDealEmpty()
    ensures ParseUpdateDeal(Obj([])) == Some(UpdateDealParam(None, None, None))
  {
  }

  /** `GetWalletForDealSchema`: `userWallet` is a string of at least 10 characters. */
  function ParseGetWalletForDeal(v: JsValue): (r: Option<string>)
    ensures r.Some? <==> v.Obj? && F(v, "userWallet").Str? && Utf16Length(F(v, "userWallet").s) >= 10
    ensures r.Some? ==> F(v, "userWallet") == Str(r.value)
  {
    if v.Obj? then ZString(F(v, "userWallet"), false, 10, None) else None
  }
}

module SaccountsValidators {
  import opened Wrappers
  import opened JsValues
  import opened JsText
  import opened Zod
  import opened ValidatorBasics

  /** `FlowIdParam` over the path parameters. */
  function ParseFlowIdParam(params: map<string, string>): (r: Option<string>)
    ensures r.Some? <==> "flowId" in params && IsUuid(params["flowId"])
    ensures r.Some? ==> r.value == params["flowId"]
  {
    if "flowId" in params && IsUuid(params["flowId"]) then Some(params["flowId"]) else None
  }

  /** `StartFlowBody`: the trimmed phone has 6 to 32 characters. */
  function ParseStartFlowBody(v: JsValue): (r: Option<string>)
    ensures r.Some? <==> v.Obj? && F(v, "phone").Str? && 6 <= Utf16Length(Trim(F(v, "phone").s)) <= 32
    ensures r.Some? ==> r.value == Trim(F(v, "phone").s)
  {
    if v.Obj? then ZString(F(v, "phone"), true, 6, Some(32)) else None
  }

  /** `SubmitCodeBody`: the trimmed code has 3 to 10 characters. */
  function ParseSubmitCodeBody(v: JsValue): (r: Option<string>)
    ensures r.Some? <==> v.Obj? && F(v, "code").Str? && 3 <= Utf16Length(Trim(F(v, "code").s)) <= 10
    ensures r.Some? ==> r.value == Trim(F(v, "code").s)
  {
    if v.Obj? then ZString(F(v, "code"), true, 3, Some(10)) else None
  }

  /** A code surrounded by spaces is accepted as its trimmed form, and sending that form again gives the same code. */
  lemma SubmitCodeTrimmed(code: string)
    requires 3 <= Utf16Length(Trim(code)) <= 10
    ensures ParseSubmitCodeBody(Obj([("code", Str(code))])) == Some(Trim(code))
    ensures ParseSubmitCodeBody(Obj([("code", Str(Trim(code)))])) == Some(Trim(code))
  {
    assert F(Obj([("code", Str(code))]), "code") == Str(code);
    TrimIdempotent(code);
    assert F(Obj([("code", Str(Trim(code)))]), "code") == Str(Trim(code));
  }

  /** `SubmitPasswordBody`: a non-empty password, not trimmed. */
  function ParseSubmitPasswordBody(v: JsValue): (r: Option<string>)
    ensures r.Some? <==> v.Obj? && F(v, "password").Str? && F(v, "password").s != ""
    ensures r.Some? ==> r.value == F(v, "password").s
  {
    if v.Obj? then ZString(F(v, "password"), false, 1, None) else None
  }

  /** `FinalizeBody`: an optional label of 1 to 64 characters after trimming. */
  function ParseFinalizeBody(v: JsValue): (r: Option<Option<string>>)
    ensures v.Obj? && F(v, "label").Undefined? ==> r == Some(None)
    ensures r.Some? && r.value.Some? ==> 1 <= Utf16Length(r.value.value) <= 64 && Trim(r.value.value) == r.value.value
    ensures !v.Obj? ==> r.None?
    ensures r.Some? <==> v.Obj? && (F(v, "label").Undefined?
                                    || (F(v, "label").Str? && 1 <= Utf16Length(Trim(F(v, "label").s)) <= 64))
    ensures r.Some? && r.value.Some? ==> F(v, "label").Str? && r.value.value == Trim(F(v, "label").s)
  {
    if !v.Obj? then None
    else
      var given := F(v, "label");
      if given.Undefined? then Some(None)
      else if given.Str? && 1 <= Utf16Length(Trim(given.s)) <= 64 then
        TrimIdempotent(given.s);
        Some(Some(Trim(given.s)))
      else None
  }

  datatype Me = Me(id: real, firstName: string, lastName: Option<string>, username: Option<string>)

  /** `z.string().nullable()`: `null` or a string; `undefined` is refused. */
  function ZNullableString(v: JsValue): (r: Option<Option<string>>)
    ensures r.Some? <==> v.Null? || v.Str?
    ensures r == Some(None) <==> v.Null?
    ensures v.Str? ==> r == Some(Some(v.s))
  {
    if v.Null? then Some(None) else if v.Str? then Some(Some(v.s)) else None
  }

  /** `MeDto`. */
  function ParseMe(v: JsValue): (r: Option<Me>)
    ensures r.Some? <==> v.Obj? && F(v, "id").Num? && F(v, "firstName").Str?
                         && ZNullableString(F(v, "lastName")).Some? && ZNullableString(F(v, "username")).Some?
    ensures r.Some? ==> F(v, "id") == Num(r.value.id) && F(v, "firstName") == Str(r.value.firstName)
  {
    if v.Obj? && F(v, "id").Num? && F(v, "firstName").Str? then
      var last := ZNullableString(F(v, "lastName"));
      var user := ZNullableString(F(v, "username"));
      if last.Some? && user.Some? then Some(Me(F(v, "id").n, F(v, "firstName").s, last.value, user.value)) else None
    else None
  }

  /** An object whose four properties read as a `MeDto` parses to that account summary. */
  lemma ParseMeOf(v: JsValue, me: Me)
    requires v.Obj? && F(v, "id") == Num(me.id) && F(v, "firstName") == Str(me.firstName)
    requires ZNullableString(F(v, "lastName")) == Some(me.lastName)
    requires ZNullableString(F(v, "username")) == Some(me.username)
    ensures ParseMe(v) == Some(me)
  {
  }

  datatype SubmitCodeResponse = EnterPassword | CodeDone(me: Me)

  /** `SubmitCodeResponse`: the union discriminated by `step`. */
  function ParseSubmitCodeResponse(v: JsValue): (r: Option<SubmitCodeResponse>)
    ensures r == Some(EnterPassword) <==> v.Obj? && F(v, "step") == Str("enter_password")
    ensures r.Some? && r.value.CodeDone? <==> v.Obj? && F(v, "step") == Str("done") && ParseMe(F(v, "me")).Some?
    ensures r.Some? && r.value.CodeDone? ==> Some(r.value.me) == ParseMe(F(v, "me"))
  {
    if !v.Obj? then None
    else if F(v, "step") == Str("enter_password") then Some(EnterPassword)
    else if F(v, "step") == Str("done") then
      var me := ParseMe(F(v, "me"));
      if me.Some? then Some(CodeDone(me.value)) else None
    else None
  }

  /** `SubmitPasswordResponse`: only the `done` step. */
  function ParseSubmitPasswordResponse(v: JsValue): (r: Option<Me>)
    ensures r.Some? <==> v.Obj? && F(v, "step") == Str("done") && ParseMe(F(v, "me")).Some?
    ensures r.Some? ==> ParseSubmitCodeResponse(v) == Some(CodeDone(r.value))
  {
    if v.Obj? && F(v, "step") == Str("done") then ParseMe(F(v, "me")) else None
  }

  /** `StartFlowResponse`. */
  function ParseStartFlowResponse(v: JsValue): (r: Option<(string, string)>)
    ensures r.Some? <==> v.Obj? && ZUuid(F(v, "flowId")).Some? && F(v, "step") == Str("enter_code")
                         && ZDateTime(F(v, "expiresAt")).Some?
    ensures r.Some? ==> IsUuid(r.value.0) && IsIsoDateTime(r.value.1)
    ensures r.Some? ==> F(v, "flowId") == Str(r.value.0) && F(v, "expiresAt") == Str(r.value.1)
  {
    if v.Obj? && ZUuid(F(v, "flowId")).Some? && F(v, "step") == Str("enter_code") && ZDateTime(F(v, "expiresAt")).Some?
    then Some((F(v, "flowId").s, F(v, "expiresAt").s))
    else None
  }

  /** `FinalizeResponse`. */
  function ParseFinalizeResponse(v: JsValue): (r: Option<string>)
    ensures r.Some? <==> v.Obj? && F(v, "sessionId").Str? && IsUuid(F(v, "sessionId").s)
    ensures r.Some? ==> F(v, "sessionId") == Str(r.value)
  {
    if v.Obj? then ZUuid(F(v, "sessionId")) else None
  }
}

module FeedbackValidators {
  import opened Wrappers
  import opened JsValues
  import opened JsText
  import opened Zod
  import opened ValidatorBasics

  /** `SendFeedbackSchema`: a message of 1 to 1000 characters. */
  function ParseSendFeedback(v: JsValue): (r: Option<string>)
    ensures r.Some? <==> v.Obj? && F(v, "message").Str? && 1 <= Utf16Length(F(v, "message").s) <= 1000
    ensures r.Some? ==> r.value == F(v, "message").s
  {
    if v.Obj? then ZString(F(v, "message"), false, 1, Some(1000)) else None
  }

  /** The bounds are inclusive: the empty message and a 1001-character one are refused, one of 1000 is not. */
  lemma FeedbackBounds(c: char)
    requires c as int <= 0xFFFF
    ensures ParseSendFeedback(Obj([("message", Str(""))])).None?
    ensures ParseSendFeedback(Obj([("message", Str(seq(1000, _ => c)))])).Some?
    ensures ParseSendFeedback(Obj([("message", Str(seq(1001, _ => c)))])).None?
    ensures ParseSendFeedback(Obj([])).None?
  {
    var long := seq(1001, _ => c);
    var ok := seq(1000, _ => c);
    Utf16LengthOfBmp(long);
    Utf16LengthOfBmp(ok);
    assert F(Obj([("message", Str(long))]), "message") == Str(long);
    assert F(Obj([("message", Str(ok))]), "message") == Str(ok);
    assert F(Obj([("message", Str(""))]), "message") == Str("");
  }
}

module ChannelsValidators {
  import opened Wrappers
  import opened JsValues
  import opened Zod
  import opened ValidatorBasics

  /** `SubmitChannelParam`: `channelId` must be a bigint; a plain number is refused. */
  function ParseSubmitChannel(v: JsValue): (r: Option<int>)
    ensures r.Some? <==> v.Obj? && F(v, "channelId").BigInt?
    ensures r.Some? ==> F(v, "channelId") == BigInt(r.value)
  {
    if v.Obj? && F(v, "channelId").BigInt? then Some(F(v, "channelId").i) else None
  }

  /** `VerifyChannelParam`: a string `channelId` and a UUID `accountId`. */
  function ParseVerifyChannel(v: JsValue): (r: Option<(string, string)>)
    ensures r.Some? <==> v.Obj? && F(v, "channelId").Str? && ZUuid(F(v, "accountId")).Some?
    ensures r.Some? ==> F(v, "channelId") == Str(r.value.0) && IsUuid(r.value.1)
    ensures r.Some? ==> F(v, "accountId") == Str(r.value.1)
  {
    if v.Obj? && F(v, "channelId").Str? && ZUuid(F(v, "accountId")).Some? then
      Some((F(v, "channelId").s, F(v, "accountId").s))
    else None
  }

  /** A JSON body can only carry a number, so the bigint schema refuses every channel id that JSON can send. */
  lemma SubmitChannelRefusesNumbers(n: real)
    ensures ParseSubmitChannel(Obj([("channelId", Num(n))])).None?
    ensures ParseSubmitChannel(Obj([])).None?
  {
    assert F(Obj([("channelId", Num(n))]), "channelId") == Num(n);
  }
}

module UsersValidators {
  import opened Wrappers
  import opened JsValues
  import opened JsText
  import opened Zod
  import opened ValidatorBasics

  /** `AuthBodySchema`: `initData` is a string of at least 10 characters, with no upper bound. */
  function ParseAuthBody(v: JsValue): (r: Option<string>)
    ensures r.Some? <==> v.Obj? && F(v, "initData").Str? && Utf16Length(F(v, "initData").s) >= 10
    ensures r.Some? ==> r.value == F(v, "initData").s
  {
    if v.Obj? then ZString(F(v, "initData"), false, 10, None) else None
  }

  /** Appending to accepted init data keeps it accepted: there is no maximum length. */
  lemma AuthBodyNoUpperBound(s: string, more: string)
    requires ParseAuthBody(Obj([("initData", Str(s))])).Some?
    ensures ParseAuthBody(Obj([("initData", Str(s + more))])).Some?
  {
    assert F(Obj([("initData", Str(s))]), "initData") == Str(s);
    assert F(Obj([("initData", Str(s + more))]), "initData") == Str(s + more);
    Utf16LengthAppend(s, more);
  }
}
