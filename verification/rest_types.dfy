/** The reply models: the access token, the account identity, the listing
    upload report item, the acknowledgement and the shallow item statistics
    with their day/week/month accessors. Each model has a decoder (lenient:
    declared defaults fill absent fields) and the object form the API sends
    it in, which decodes back to the same value. */
module RestTypes {
  import opened Wrappers
  import opened Json
  import opened Exceptions
  import opened Fields
  import opened Dates

  // ------------------------------------------------------------ AccessToken

  datatype AccessToken = AccessToken(accessToken: string, expiresIn: int, tokenType: string)

  /** All three fields are required. */
  function DecodeAccessToken(d: map<string, Json>): (r: Result<AccessToken, Exception>)
    ensures r.Success? <==>
      && "access_token" in d && d["access_token"].JStr?
      && "expires_in" in d && d["expires_in"].JInt?
      && "token_type" in d && d["token_type"].JStr?
    ensures r.Success? ==> r.value == AccessToken(d["access_token"].s, d["expires_in"].i, d["token_type"].s)
    ensures r.Failure? ==> r.error == ValidationError
  {
    var accessToken :- Field(d, "access_token", None, AsStr);
    var expiresIn :- Field(d, "expires_in", None, AsInt);
    var tokenType :- Field(d, "token_type", None, AsStr);
    Success(AccessToken(accessToken, expiresIn, tokenType))
  }

  function EncodeAccessToken(t: AccessToken): (d: map<string, Json>)
    ensures d.Keys == {"access_token", "expires_in", "token_type"}
  {
    map["access_token" := JStr(t.accessToken), "expires_in" := JInt(t.expiresIn), "token_type" := JStr(t.tokenType)]
  }

  lemma AccessTokenRoundTrip(t: AccessToken)
    ensures DecodeAccessToken(EncodeAccessToken(t)) == Success(t)
  {
  }

  // ----------------------------------------------------------- UserInfoSelf

  datatype UserInfoSelf = UserInfoSelf(email: string, id: int, name: string, phone: string, profileUrl: string)

  /** Every field has a default ('' or 0); decoding fails only on a field of the wrong type. */
  function DecodeUserInfoSelf(d: map<string, Json>): (r: Result<UserInfoSelf, Exception>)
    ensures r.Success? <==>
      Fits(d, "email", AsStr) && Fits(d, "id", AsInt) && Fits(d, "name", AsStr) &&
      Fits(d, "phone", AsStr) && Fits(d, "profile_url", AsStr)
    ensures r.Success? ==>
      && r.value.email == (if "email" in d then d["email"].s else "")
      && r.value.id == (if "id" in d then d["id"].i else 0)
      && r.value.name == (if "name" in d then d["name"].s else "")
      && r.value.phone == (if "phone" in d then d["phone"].s else "")
      && r.value.profileUrl == (if "profile_url" in d then d["profile_url"].s else "")
    ensures r.Failure? ==> r.error == ValidationError
  {
    var email :- Field(d, "email", Some(""), AsStr);
    var id :- Field(d, "id", Some(0), AsInt);
    var name :- Field(d, "name", Some(""), AsStr);
    var phone :- Field(d, "phone", Some(""), AsStr);
    var profileUrl :- Field(d, "profile_url", Some(""), AsStr);
    Success(UserInfoSelf(email, id, name, phone, profileUrl))
  }

  function EncodeUserInfoSelf(u: UserInfoSelf): (d: map<string, Json>)
    ensures d.Keys == {"email", "id", "name", "phone", "profile_url"}
  {
    map["email" := JStr(u.email), "id" := JInt(u.id), "name" := JStr(u.name),
        "phone" := JStr(u.phone), "profile_url" := JStr(u.profileUrl)]
  }

  lemma UserInfoSelfRoundTrip(u: UserInfoSelf)
    ensures DecodeUserInfoSelf(EncodeUserInfoSelf(u)) == Success(u)
  {
  }

  // ------------------------------------------------------- AutoloadItemInfo

  /** How the listing was paid for; `amount` and `packageId` are absent unless sent. */
  datatype FeeInfo = FeeInfo(amount: Option<int>, packageId: Option<int>, paymentType: string)

  /** An error or warning about a listing; `updatedAt` is date-time text, kept unparsed. */
  datatype Message = Message(code: Option<int>, description: string, title: string, messageType: string, updatedAt: Option<string>)

  /** The report section the listing is in. */
  datatype Section = Section(slug: string, title: string)

  /** One listing of an upload report; the date-time fields are kept as unparsed text. */
  datatype AutoloadItemInfo = AutoloadItemInfo(
    adId: string,
    avitoDateEnd: Option<string>,
    avitoId: Option<int>,
    avitoStatus: string,
    feeInfo: FeeInfo,
    messages: seq<Message>,
    processingTime: Option<string>,
    section: Section,
    url: string)

  function DecodeFeeInfo(d: map<string, Json>): (r: Result<FeeInfo, Exception>)
    ensures r.Success? <==> Fits(d, "amount", AsInt) && Fits(d, "package_id", AsInt) && Fits(d, "type", AsStr)
    ensures r.Success? ==> r.value.amount == (if "amount" in d then Some(d["amount"].i) else None)
    ensures r.Success? ==> r.value.packageId == (if "package_id" in d then Some(d["package_id"].i) else None)
    ensures r.Success? ==> r.value.paymentType == (if "type" in d then d["type"].s else "")
    ensures r.Failure? ==> r.error == ValidationError
  {
    var amount :- OptionalField(d, "amount", AsInt);
    var packageId :- OptionalField(d, "package_id", AsInt);
    var paymentType :- Field(d, "type", Some(""), AsStr);
    Success(FeeInfo(amount, packageId, paymentType))
  }

  function DecodeMessage(d: map<string, Json>): (r: Result<Message, Exception>)
    ensures r.Success? <==>
      Fits(d, "code", AsInt) && Fits(d, "description", AsStr) && Fits(d, "title", AsStr) &&
      Fits(d, "type", AsStr) && Fits(d, "updated_at", AsStr)
    ensures r.Success? ==> r.value.code == (if "code" in d then Some(d["code"].i) else None)
    ensures r.Success? ==> r.value.description == (if "description" in d then d["description"].s else "")
    ensures r.Success? ==> r.value.title == (if "title" in d then d["title"].s else "")
    ensures r.Success? ==> r.value.messageType == (if "type" in d then d["type"].s else "")
    ensures r.Success? ==> r.value.updatedAt == (if "updated_at" in d then Some(d["updated_at"].s) else None)
    ensures r.Failure? ==> r.error == ValidationError
  {
    var code :- OptionalField(d, "code", AsInt);
    var description :- Field(d, "description", Some(""), AsStr);
    var title :- Field(d, "title", Some(""), AsStr);
    var messageType :- Field(d, "type", Some(""), AsStr);
    var updatedAt :- OptionalField(d, "updated_at", AsStr);
    Success(Message(code, description, title, messageType, updatedAt))
  }

  function DecodeSection(d: map<string, Json>): (r: Result<Section, Exception>)
    ensures r.Success? <==> Fits(d, "slug", AsStr) && Fits(d, "title", AsStr)
    ensures r.Success? ==> r.value.slug == (if "slug" in d then d["slug"].s else "")
    ensures r.Success? ==> r.value.title == (if "title" in d then d["title"].s else "")
    ensures r.Failure? ==> r.error == ValidationError
  {
    var slug :- Field(d, "slug", Some(""), AsStr);
    var title :- Field(d, "title", Some(""), AsStr);
    Success(Section(slug, title))
  }

  /** The defaults of the nested fields: the sub-models decoded from `{}`. */
  const EmptyFeeInfo := FeeInfo(None, None, "")
  const EmptySection := Section("", "")

  function ParseMessage(j: Json): Result<Message, Exception> {
    ParseObj(j, DecodeMessage)
  }

  /** Only `ad_id` is required. */
  function DecodeAutoloadItemInfo(d: map<string, Json>): (r: Result<AutoloadItemInfo, Exception>)
    ensures r.Success? <==>
      && "ad_id" in d && d["ad_id"].JStr?
      && Fits(d, "avito_date_end", AsStr) && Fits(d, "avito_id", AsInt) && Fits(d, "avito_status", AsStr)
      && ModelFits(d, "fee_info", DecodeFeeInfo) && ListFits(d, "messages", ParseMessage)
      && Fits(d, "processing_time", AsStr) && ModelFits(d, "section", DecodeSection) && Fits(d, "url", AsStr)
    ensures r.Success? ==> r.value.adId == d["ad_id"].s
    ensures r.Success? ==> r.value.avitoDateEnd == (if "avito_date_end" in d then Some(d["avito_date_end"].s) else None)
    ensures r.Success? ==> r.value.avitoId == (if "avito_id" in d then Some(d["avito_id"].i) else None)
    ensures r.Success? ==> r.value.avitoStatus == (if "avito_status" in d then d["avito_status"].s else "")
    ensures r.Success? ==> r.value.feeInfo == (if "fee_info" in d then DecodeFeeInfo(d["fee_info"].fields).value else EmptyFeeInfo)
    ensures r.Success? ==> r.value.messages == (if "messages" in d then DecodeEach(d["messages"].items, ParseMessage).value else [])
    ensures r.Success? ==> r.value.processingTime == (if "processing_time" in d then Some(d["processing_time"].s) else None)
    ensures r.Success? ==> r.value.section == (if "section" in d then DecodeSection(d["section"].fields).value else EmptySection)
    ensures r.Success? ==> r.value.url == (if "url" in d then d["url"].s else "")
    ensures r.Failure? ==> r.error == ValidationError
  {
    var adId :- Field(d, "ad_id", None, AsStr);
    var avitoDateEnd :- OptionalField(d, "avito_date_end", AsStr);
    var avitoId :- OptionalField(d, "avito_id", AsInt);
    var avitoStatus :- Field(d, "avito_status", Some(""), AsStr);
    var feeInfo :- ModelField(d, "fee_info", DecodeFeeInfo, EmptyFeeInfo);
    var messages :- ListField(d, "messages", ParseMessage);
    var processingTime :- OptionalField(d, "processing_time", AsStr);
    var section :- ModelField(d, "section", DecodeSection, EmptySection);
    var url :- Field(d, "url", Some(""), AsStr);
    Success(AutoloadItemInfo(adId, avitoDateEnd, avitoId, avitoStatus, feeInfo, messages, processingTime, section, url))
  }

  /** `AutoloadItemInfo.parse_obj(item)`. */
  function ParseAutoloadItemInfo(j: Json): (r: Result<AutoloadItemInfo, Exception>)
    ensures j.JObj? ==> r == DecodeAutoloadItemInfo(j.fields)
    ensures !j.JObj? ==> r == Failure(ValidationError)
  {
    ParseObj(j, DecodeAutoloadItemInfo)
  }

  /** The nested defaults are what decoding an empty object gives. */
  lemma NestedDefaultsAreEmptyObjects()
    ensures DecodeFeeInfo(map[]) == Success(EmptyFeeInfo)
    ensures DecodeSection(map[]) == Success(EmptySection)
  {
  }

  /** An object holding only `ad_id` decodes, with every other field at its default. */
  lemma AutoloadItemInfoOnlyAdIdRequired(adId: string)
    ensures DecodeAutoloadItemInfo(map["ad_id" := JStr(adId)]) ==
      Success(AutoloadItemInfo(adId, None, None, "", EmptyFeeInfo, [], None, EmptySection, ""))
  {
  }

  /** Without `ad_id` nothing decodes. */
  lemma AutoloadItemInfoNeedsAdId(d: map<string, Json>)
    requires "ad_id" !in d
    ensures DecodeAutoloadItemInfo(d) == Failure(ValidationError)
  {
  }

  function OptionalInt(d: map<string, Json>, key: string, v: Option<int>): map<string, Json> {
    if v.Some? then d[key := JInt(v.value)] else d
  }

  function OptionalStr(d: map<string, Json>, key: string, v: Option<string>): map<string, Json> {
    if v.Some? then d[key := JStr(v.value)] else d
  }

  function EncodeFeeInfo(f: FeeInfo): map<string, Json> {
    OptionalInt(OptionalInt(map["type" := JStr(f.paymentType)], "amount", f.amount), "package_id", f.packageId)
  }

  function EncodeMessage(m: Message): map<string, Json> {
    OptionalStr(
      OptionalInt(map["description" := JStr(m.description), "title" := JStr(m.title), "type" := JStr(m.messageType)],
        "code", m.code),
      "updated_at", m.updatedAt)
  }

  function EncodeSection(s: Section): map<string, Json> {
    map["slug" := JStr(s.slug), "title" := JStr(s.title)]
  }

  function EncodeMessages(ms: seq<Message>): (j: seq<Json>)
    ensures |j| == |ms| && forall i | 0 <= i < |ms| :: j[i] == JObj(EncodeMessage(ms[i]))
  {
    seq(|ms|, i requires 0 <= i < |ms| => JObj(EncodeMessage(ms[i])))
  }

  function EncodeAutoloadItemInfo(a: AutoloadItemInfo): map<string, Json> {
    var d := map[
      "ad_id" := JStr(a.adId),
      "avito_status" := JStr(a.avitoStatus),
      "fee_info" := JObj(EncodeFeeInfo(a.feeInfo)),
      "messages" := JArr(EncodeMessages(a.messages)),
      "section" := JObj(EncodeSection(a.section)),
      "url" := JStr(a.url)];
    OptionalStr(OptionalStr(OptionalInt(d, "avito_id", a.avitoId), "avito_date_end", a.avitoDateEnd),
      "processing_time", a.processingTime)
  }

  lemma FeeInfoRoundTrip(f: FeeInfo)
    ensures DecodeFeeInfo(EncodeFeeInfo(f)) == Success(f)
  {
  }

  lemma SectionRoundTrip(sec: Section)
    ensures DecodeSection(EncodeSection(sec)) == Success(sec)
  {
  }

  lemma MessageRoundTrip(m: Message)
    ensures DecodeMessage(EncodeMessage(m)) == Success(m)
  {
  }

  lemma MessagesRoundTrip(ms: seq<Message>)
    ensures DecodeEach(EncodeMessages(ms), ParseMessage) == Success(ms)
  {
    var xs := EncodeMessages(ms);
    forall i | 0 <= i < |xs|
      ensures ParseMessage(xs[i]) == Success(ms[i])
    {
      MessageRoundTrip(ms[i]);
    }
    var r := DecodeEach(xs, ParseMessage);
    assert r.Success?;
    assert forall i | 0 <= i < |ms| :: r.value[i] == ms[i];
    assert r.value == ms;
  }

  /** Where each field of a listing is in its object form. */
  lemma EncodedAutoloadItemInfo(a: AutoloadItemInfo)
    ensures var d := EncodeAutoloadItemInfo(a);
      && d["ad_id"] == JStr(a.adId)
      && ("avito_date_end" in d <==> a.avitoDateEnd.Some?)
      && (a.avitoDateEnd.Some? ==> d["avito_date_end"] == JStr(a.avitoDateEnd.value))
      && ("avito_id" in d <==> a.avitoId.Some?)
      && (a.avitoId.Some? ==> d["avito_id"] == JInt(a.avitoId.value))
      && d["avito_status"] == JStr(a.avitoStatus)
      && d["fee_info"] == JObj(EncodeFeeInfo(a.feeInfo))
      && d["messages"] == JArr(EncodeMessages(a.messages))
      && ("processing_time" in d <==> a.processingTime.Some?)
      && (a.processingTime.Some? ==> d["processing_time"] == JStr(a.processingTime.value))
      && d["section"] == JObj(EncodeSection(a.section))
      && d["url"] == JStr(a.url)
  {
  }

  /** Every listing, with all its fields, survives encoding and decoding. */
  lemma AutoloadItemInfoRoundTrip(a: AutoloadItemInfo)
    ensures DecodeAutoloadItemInfo(EncodeAutoloadItemInfo(a)) == Success(a)
  {
    var d := EncodeAutoloadItemInfo(a);
    EncodedAutoloadItemInfo(a);
    FeeInfoRoundTrip(a.feeInfo);
    MessagesRoundTrip(a.messages);
    assert Field(d, "ad_id", None, AsStr) == Success(a.adId);
    assert OptionalField(d, "avito_date_end", AsStr) == Success(a.avitoDateEnd);
    assert OptionalField(d, "avito_id", AsInt) == Success(a.avitoId);
    assert Field(d, "avito_status", Some(""), AsStr) == Success(a.avitoStatus);
    assert ModelField(d, "fee_info", DecodeFeeInfo, EmptyFeeInfo) == Success(a.feeInfo);
    assert ListField(d, "messages", ParseMessage) == Success(a.messages);
    assert OptionalField(d, "processing_time", AsStr) == Success(a.processingTime);
    assert ModelField(d, "section", DecodeSection, EmptySection) == Success(a.section);
    assert Field(d, "url", Some(""), AsStr) == Success(a.url);
  }

  // --------------------------------------------------------------------- Ok

  datatype Ok = Ok(ok: bool)

  /** `ok` is required. */
  function DecodeOk(d: map<string, Json>): (r: Result<Ok, Exception>)
    ensures r.Success? <==> "ok" in d && d["ok"].JBool?
    ensures r.Success? ==> r.value.ok == d["ok"].b
    ensures r.Failure? ==> r.error == ValidationError
  {
    var ok :- Field(d, "ok", None, AsBool);
    Success(Ok(ok))
  }

  function EncodeOk(o: Ok): (d: map<string, Json>)
    ensures d.Keys == {"ok"}
  {
    map["ok" := JBool(o.ok)]
  }

  lemma OkRoundTrip(o: Ok)
    ensures DecodeOk(EncodeOk(o)) == Success(o)
  {
  }

  /** A listing given only its id and status: every other field at its default. */
  lemma ListingWithStatus(adId: string, status: string)
    ensures DecodeAutoloadItemInfo(map["ad_id" := JStr(adId), "avito_status" := JStr(status)]) ==
      Success(AutoloadItemInfo(adId, None, None, status, EmptyFeeInfo, [], None, EmptySection, ""))
  {
  }

  // -------------------------------------------------------- ItemStatsShallow

  /** The three counters a statistics point carries. */
  datatype Counter = UniqViews | UniqContacts | UniqFavorites

  /** One statistics point: a date and its three counters. */
  datatype Stat = Stat(date: ValidDate, uniqViews: int, uniqContacts: int, uniqFavorites: int) {
    function Count(c: Counter): int {
      match c
      case UniqViews => uniqViews
      case UniqContacts => uniqContacts
      case UniqFavorites => uniqFavorites
    }
  }

  /** The grouping a statistics request asks for; it picks the variant of the items. */
  datatype Grouping = ByDay | ByWeek | ByMonth

  /** The statistics of one listing. The three variants share their fields
      and differ only in which accessors they offer. */
  datatype ItemStatsShallow =
    | Day(itemId: int, stats: seq<Stat>)
    | Week(itemId: int, stats: seq<Stat>)
    | Month(itemId: int, stats: seq<Stat>)
  {
    /** `get_all_uniq_*`: the counter summed over every point. */
    function GetAllUniq(c: Counter): (r: int)
      requires Day?
      ensures r == Total(stats, c)
      ensures stats == [] ==> r == 0
    {
      Total(stats, c)
    }

    /** `get_last_day_uniq_*`: the final point's counter when that point is dated today, else 0. */
    function GetLastDayUniq(c: Counter, today: ValidDate): (r: int)
      requires Day?
      ensures OnDay(stats, today) ==> r == stats[|stats| - 1].Count(c)
      ensures !OnDay(stats, today) ==> r == 0
    {
      if stats != [] && stats[|stats| - 1].date == today then stats[|stats| - 1].Count(c) else 0
    }

    /** `get_last_week_uniq_*`: the final point's counter when it is dated no
        earlier than seven days before today, else 0. Going seven days back
        from a date in the first week of year 1 overflows. */
    function GetLastWeekUniq(c: Counter, today: ValidDate): (r: Result<int, Exception>)
      requires Week?
      ensures stats == [] ==> r == Success(0)
      ensures stats != [] && ToOrdinal(today) <= 7 ==> r == Failure(OverflowError)
      ensures stats != [] && ToOrdinal(today) > 7 ==>
        r == Success(if InWindow(stats, today, 7) then stats[|stats| - 1].Count(c) else 0)
    {
      LastWithin(stats, c, today, 7)
    }

    /** `get_last_month_uniq_*`: as the week accessor, with 31 days. */
    function GetLastMonthUniq(c: Counter, today: ValidDate): (r: Result<int, Exception>)
      requires Month?
      ensures stats == [] ==> r == Success(0)
      ensures stats != [] && ToOrdinal(today) <= 31 ==> r == Failure(OverflowError)
      ensures stats != [] && ToOrdinal(today) > 31 ==>
        r == Success(if InWindow(stats, today, 31) then stats[|stats| - 1].Count(c) else 0)
    {
      LastWithin(stats, c, today, 31)
    }
  }

  /** Python's `sum` of one counter over the points, first to last. */
  function Total(points: seq<Stat>, c: Counter): int {
    if points == [] then 0 else Total(points[..|points| - 1], c) + points[|points| - 1].Count(c)
  }

  /** The final point is dated today. */
  predicate OnDay(points: seq<Stat>, today: ValidDate) {
    points != [] && points[|points| - 1].date == today
  }

  /** The final point is dated no earlier than `days` days before today.
      Python compares dates field by field; by OrdinalOrder that is the
      order of their ordinals. */
  predicate InWindow(points: seq<Stat>, today: ValidDate, days: int) {
    points != [] && ToOrdinal(points[|points| - 1].date) >= ToOrdinal(today) - days
  }

  /** `s[-1].count if s and s[-1].date >= today - timedelta(days) else 0`;
      `today - timedelta(days)` is only computed when `s` is not empty and
      raises when it falls before day 1. */
  function LastWithin(points: seq<Stat>, c: Counter, today: ValidDate, days: int): Result<int, Exception> {
    if points == [] then Success(0)
    else if ToOrdinal(today) - days < 1 then Failure(OverflowError)
    else if InWindow(points, today, days) then Success(points[|points| - 1].Count(c))
    else Success(0)
  }

  /** Totals add up over consecutive runs of points. */
  lemma {:induction false} TotalAppend(a: seq<Stat>, b: seq<Stat>, c: Counter)
    ensures Total(a + b, c) == Total(a, c) + Total(b, c)
    decreases |b|
  {
    if b == [] {
      assert a + b == a;
    } else {
      var b' := b[..|b| - 1];
      assert (a + b)[..|a + b| - 1] == a + b';
      TotalAppend(a, b', c);
    }
  }

  /** The total over one point is that point's counter. */
  lemma TotalSingle(p: Stat, c: Counter)
    ensures Total([p], c) == p.Count(c)
  {
    assert [p][..0] == [];
  }

  /** With no negative counters, the last-day figure never exceeds the total. */
  lemma {:induction false} LastDayWithinTotal(item: ItemStatsShallow, c: Counter, today: ValidDate)
    requires item.Day?
    requires forall i | 0 <= i < |item.stats| :: item.stats[i].Count(c) >= 0
    ensures 0 <= item.GetLastDayUniq(c, today) <= item.GetAllUniq(c)
  {
    if item.stats != [] {
      TotalNonNegative(item.stats[..|item.stats| - 1], c);
    }
  }

  lemma {:induction false} TotalNonNegative(points: seq<Stat>, c: Counter)
    requires forall i | 0 <= i < |points| :: points[i].Count(c) >= 0
    ensures Total(points, c) >= 0
    decreases |points|
  {
    if points != [] {
      TotalNonNegative(points[..|points| - 1], c);
    }
  }

  /** A point dated today lies in the week window, and the week window lies in the month window. */
  lemma WindowNesting(points: seq<Stat>, today: ValidDate)
    ensures OnDay(points, today) ==> InWindow(points, today, 7)
    ensures InWindow(points, today, 7) ==> InWindow(points, today, 31)
  {
  }

  /** Where the windows hold, the day, week and month accessors report the same figure. */
  lemma WindowAccessorsAgree(id: int, points: seq<Stat>, c: Counter, today: ValidDate)
    requires ToOrdinal(today) > 31
    ensures OnDay(points, today) ==>
      Week(id, points).GetLastWeekUniq(c, today) == Success(Day(id, points).GetLastDayUniq(c, today)) &&
      Month(id, points).GetLastMonthUniq(c, today) == Success(Day(id, points).GetLastDayUniq(c, today))
    ensures InWindow(points, today, 7) ==>
      Month(id, points).GetLastMonthUniq(c, today) == Week(id, points).GetLastWeekUniq(c, today)
  {
  }

  /** The last-period accessors read only the final point: the earlier points never matter. */
  lemma LastAccessorsReadOnlyFinalPoint(id: int, a: seq<Stat>, b: seq<Stat>, p: Stat, c: Counter, today: ValidDate)
    ensures Day(id, a + [p]).GetLastDayUniq(c, today) == Day(id, b + [p]).GetLastDayUniq(c, today)
    ensures Week(id, a + [p]).GetLastWeekUniq(c, today) == Week(id, b + [p]).GetLastWeekUniq(c, today)
    ensures Month(id, a + [p]).GetLastMonthUniq(c, today) == Month(id, b + [p]).GetLastMonthUniq(c, today)
  {
    assert (a + [p])[|a + [p]| - 1] == p;
    assert (b + [p])[|b + [p]| - 1] == p;
  }

  /** A final point dated before today (yesterday, say) is not "today": the day accessor reads 0. */
  lemma EarlierFinalPointGivesZero(item: ItemStatsShallow, c: Counter, today: ValidDate)
    requires item.Day? && item.stats != []
    requires Before(item.stats[|item.stats| - 1].date, today)
    ensures item.GetLastDayUniq(c, today) == 0
  {
  }

  function DecodeStat(d: map<string, Json>): (r: Result<Stat, Exception>)
    ensures r.Success? <==>
      && "date" in d && d["date"].JStr? && ParseDate(d["date"].s).Some?
      && Fits(d, "uniqViews", AsInt) && Fits(d, "uniqContacts", AsInt) && Fits(d, "uniqFavorites", AsInt)
    ensures r.Success? ==> Some(r.value.date) == ParseDate(d["date"].s)
    ensures r.Success? ==>
      && r.value.uniqViews == (if "uniqViews" in d then d["uniqViews"].i else 0)
      && r.value.uniqContacts == (if "uniqContacts" in d then d["uniqContacts"].i else 0)
      && r.value.uniqFavorites == (if "uniqFavorites" in d then d["uniqFavorites"].i else 0)
    ensures r.Failure? ==> r.error == ValidationError
  {
    var text :- Field(d, "date", None, AsStr);
    var date :- if ParseDate(text).Some? then Success(ParseDate(text).value) else Failure(ValidationError);
    var uniqViews :- Field(d, "uniqViews", Some(0), AsInt);
    var uniqContacts :- Field(d, "uniqContacts", Some(0), AsInt);
    var uniqFavorites :- Field(d, "uniqFavorites", Some(0), AsInt);
    Success(Stat(date, uniqViews, uniqContacts, uniqFavorites))
  }

  function ParseStat(j: Json): Result<Stat, Exception> {
    ParseObj(j, DecodeStat)
  }

  /** The variant of the given grouping; `itemId` is required, `stats` defaults to []. */
  function DecodeItemStats(g: Grouping, d: map<string, Json>): (r: Result<ItemStatsShallow, Exception>)
    ensures r.Success? <==> "itemId" in d && d["itemId"].JInt? && ListFits(d, "stats", ParseStat)
    ensures r.Success? ==> r.value.itemId == d["itemId"].i
    ensures r.Success? ==> (r.value.Day? <==> g == ByDay) && (r.value.Week? <==> g == ByWeek) && (r.value.Month? <==> g == ByMonth)
    ensures r.Success? ==> r.value.stats == (if "stats" in d then DecodeEach(d["stats"].items, ParseStat).value else [])
    ensures r.Failure? ==> r.error == ValidationError
  {
    var itemId :- Field(d, "itemId", None, AsInt);
    var stats :- ListField(d, "stats", ParseStat);
    match g
    case ByDay => Success(Day(itemId, stats))
    case ByWeek => Success(Week(itemId, stats))
    case ByMonth => Success(Month(itemId, stats))
  }

  /** `ItemStatsShallowDay/Week/Month.parse_obj(item)`. */
  function ParseItemStats(g: Grouping, j: Json): (r: Result<ItemStatsShallow, Exception>)
    ensures j.JObj? ==> r == DecodeItemStats(g, j.fields)
    ensures !j.JObj? ==> r == Failure(ValidationError)
  {
    ParseObj(j, d => DecodeItemStats(g, d))
  }

  /** A point needs only its date: the counters default to 0. */
  lemma StatCountersDefault(date: ValidDate)
    ensures DecodeStat(map["date" := JStr(FormatDate(date))]) == Success(Stat(date, 0, 0, 0))
  {
    ParseFormatDate(date);
  }

  /** Without `itemId` no statistics item decodes, and without `date` no point does. */
  lemma ItemStatsRequiredFields(g: Grouping, d: map<string, Json>)
    ensures "itemId" !in d ==> DecodeItemStats(g, d) == Failure(ValidationError)
    ensures "date" !in d ==> DecodeStat(d) == Failure(ValidationError)
  {
  }

  function EncodeStat(p: Stat): map<string, Json> {
    map["date" := JStr(FormatDate(p.date)), "uniqViews" := JInt(p.uniqViews),
        "uniqContacts" := JInt(p.uniqContacts), "uniqFavorites" := JInt(p.uniqFavorites)]
  }

  function EncodeItemStats(item: ItemStatsShallow): map<string, Json> {
    map["itemId" := JInt(item.itemId),
        "stats" := JArr(seq(|item.stats|, i requires 0 <= i < |item.stats| => JObj(EncodeStat(item.stats[i]))))]
  }

  lemma StatRoundTrip(p: Stat)
    ensures DecodeStat(EncodeStat(p)) == Success(p)
  {
    ParseFormatDate(p.date);
  }

  /** A statistics item, with all its points, survives encoding and decoding under its own grouping. */
  lemma ItemStatsRoundTrip(g: Grouping, item: ItemStatsShallow)
    requires item.Day? <==> g == ByDay
    requires item.Week? <==> g == ByWeek
    ensures DecodeItemStats(g, EncodeItemStats(item)) == Success(item)
  {
    var d := EncodeItemStats(item);
    var xs := d["stats"].items;
    forall i | 0 <= i < |xs|
      ensures ParseStat(xs[i]) == Success(item.stats[i])
    {
      StatRoundTrip(item.stats[i]);
    }
    var r := DecodeEach(xs, ParseStat);
    assert r.value == item.stats;
  }
}
