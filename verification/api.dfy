/** The client session and its operations. The network is a function from
    the request sent to the JSON body received; everything the client does
    with a request's inputs and with a reply body is modelled. */
module Api {
  import opened Wrappers
  import opened Json
  import opened Exceptions
  import opened Fields
  import opened Text
  import opened Dates
  import opened RestTypes

  /** The requests the client sends. URLs and headers are constants of each
      kind; the bearer is the token the session obtained. */
  datatype Request =
    | TokenRequest(form: string)
    | UserInfoSelfRequest(bearer: string)
    | AutoloadItemsRequest(bearer: string, query: string)
    | ItemStatsRequest(bearer: string, accountId: int, body: map<string, Json>)
    | WebhookRequest(bearer: string, body: map<string, Json>)
    | WebhookUnsubscribeRequest(bearer: string, body: map<string, Json>)

  /** The remote API: the reply body it gives to each request. */
  type Server = Request -> Json

  // ------------------------------------------------------- request building

  /** The form body of the client-credentials grant (section 4.4 of RFC 6749),
      built by plain concatenation: the credentials are not escaped. */
  function TokenForm(clientId: string, clientSecret: string): (form: string)
    ensures form == Join(["grant_type=client_credentials", "client_id=" + clientId, "client_secret=" + clientSecret], '&')
  {
    var grant, id, secret := "grant_type=client_credentials", "client_id=" + clientId, "client_secret=" + clientSecret;
    assert Join([grant, id, secret], '&') == grant + "&" + (id + "&" + secret) by {
      assert [grant, id, secret][1..] == [id, secret];
      assert [id, secret][1..] == [secret];
      assert Join([secret], '&') == secret;
      assert Join([id, secret], '&') == id + ['&'] + secret;
      assert Join([grant, id, secret], '&') == grant + ['&'] + (id + ['&'] + secret);
    }
    grant + "&" + id + "&" + secret
  }

  /** Credentials free of '&' come back out of the form as its three parameters. */
  lemma TokenFormFields(clientId: string, clientSecret: string)
    requires '&' !in clientId && '&' !in clientSecret
    ensures Split(TokenForm(clientId, clientSecret), '&') ==
      ["grant_type=client_credentials", "client_id=" + clientId, "client_secret=" + clientSecret]
  {
    var parts := ["grant_type=client_credentials", "client_id=" + clientId, "client_secret=" + clientSecret];
    assert '&' !in parts[1] by { assert parts[1] == "client_id=" + clientId; }
    assert '&' !in parts[2] by { assert parts[2] == "client_secret=" + clientSecret; }
    SplitJoin(parts, '&');
  }

  /** The `query` parameter of the listing report: the ids joined with ','. */
  function ListingQuery(ids: seq<string>): (query: string)
    ensures ids == [] ==> query == ""
    ensures |ids| == 1 ==> query == ids[0]
  {
    Join(ids, ',')
  }

  /** Splitting the query on ',' gives back a non-empty list of comma-free ids. */
  lemma ListingQueryRoundTrip(ids: seq<string>)
    requires ids != []
    requires forall i | 0 <= i < |ids| :: ',' !in ids[i]
    ensures Split(ListingQuery(ids), ',') == ids
  {
    SplitJoin(ids, ',');
  }

  /** The fields the statistics request asks for when the caller names none. */
  const DefaultFields: seq<string> := ["uniqViews", "uniqContacts", "uniqFavorites"]

  /** The JSON body of the statistics request. */
  function StatsBody(dateFrom: string, dateTo: string, itemIds: seq<int>, fields: Option<seq<string>>, grouping: string): (body: map<string, Json>)
    ensures body.Keys == {"dateFrom", "dateTo", "fields", "itemIds", "periodGrouping"}
    ensures body["dateFrom"] == JStr(dateFrom) && body["dateTo"] == JStr(dateTo)
    ensures body["itemIds"] == IntArray(itemIds)
    ensures body["periodGrouping"] == JStr(grouping)
    ensures fields.None? ==> body["fields"] == JArr([JStr("uniqViews"), JStr("uniqContacts"), JStr("uniqFavorites")])
    ensures fields.Some? ==> body["fields"] == StrArray(fields.value)
  {
    var fieldList := if fields.None? then DefaultFields else fields.value;
    map["dateFrom" := JStr(dateFrom), "dateTo" := JStr(dateTo), "fields" := StrArray(fieldList),
        "itemIds" := IntArray(itemIds), "periodGrouping" := JStr(grouping)]
  }

  /** The statistics body for calendar dates: each date is sent as `YYYY-MM-DD`
      text that reads back as that date. */
  function StatsBodyForDates(dateFrom: ValidDate, dateTo: ValidDate, itemIds: seq<int>, fields: Option<seq<string>>, grouping: string): (body: map<string, Json>)
    ensures body.Keys == {"dateFrom", "dateTo", "fields", "itemIds", "periodGrouping"}
    ensures body["dateFrom"].JStr? && ParseDate(body["dateFrom"].s) == Some(dateFrom)
    ensures body["dateTo"].JStr? && ParseDate(body["dateTo"].s) == Some(dateTo)
  {
    ParseFormatDate(dateFrom);
    ParseFormatDate(dateTo);
    StatsBody(FormatDate(dateFrom), FormatDate(dateTo), itemIds, fields, grouping)
  }

  /** The body of both webhook requests. */
  function WebhookBody(url: string): (body: map<string, Json>)
    ensures body.Keys == {"url"} && body["url"] == JStr(url)
  {
    map["url" := JStr(url)]
  }

  // ---------------------------------------------------- reply interpretation

  /** `data.get(...)` needs a dict. */
  function AsDict(j: Json): Result<map<string, Json>, Exception> {
    if j.JObj? then Success(j.fields) else Failure(AttributeError)
  }

  /** The elements a `for item in value` loop visits when its body is
      `Model.parse_obj(item)`, or the exception that loop raises: a list
      gives its elements; an empty dict or string gives none; any other
      dict or string yields strings, the first of which the body rejects;
      null, numbers and booleans are not iterable. */
  function LoopItems(j: Json): (r: Result<seq<Json>, Exception>)
    ensures r.Success? <==> j.JArr? || j == JObj(map[]) || j == JStr("")
    ensures r.Success? ==> r.value == (if j.JArr? then j.items else [])
    ensures r.Failure? ==> r.error == (if j.JObj? || j.JStr? then ValidationError else TypeError)
  {
    match j
    case JArr(items) => Success(items)
    case JObj(fields) => if fields == map[] then Success([]) else Failure(ValidationError)
    case JStr(s) => if s == "" then Success([]) else Failure(ValidationError)
    case _ => Failure(TypeError)
  }

  /** The token reply: a truthy top-level `error` raises
      `Error(error, error_description)` (the error response of section 5.2
      of RFC 6749) with '' for a missing description, and nothing is
      decoded; otherwise the body is decoded as an AccessToken. */
  function TokenOutcome(data: Json): (r: Result<AccessToken, Exception>)
    ensures !data.JObj? ==> r == Failure(AttributeError)
    ensures data.JObj? && Truthy(Get(data.fields, "error", JNull)) ==>
      r == Failure(AvitoError([data.fields["error"], Get(data.fields, "error_description", JStr(""))]))
    ensures data.JObj? && !Truthy(Get(data.fields, "error", JNull)) ==> r == DecodeAccessToken(data.fields)
  {
    var d :- AsDict(data);
    if Truthy(Get(d, "error", JNull)) then
      Failure(AvitoError([Get(d, "error", JStr("")), Get(d, "error_description", JStr(""))]))
    else
      DecodeAccessToken(d)
  }

  /** The nested error check of the other endpoints: a truthy `error`
      raises `Error(error.code, error.message)`, each None when absent;
      an `error` that is not an object cannot be read. */
  function NestedError(d: map<string, Json>): (r: Option<Exception>)
    ensures r.None? <==> !Truthy(Get(d, "error", JNull))
    ensures r.Some? && d["error"].JObj? ==>
      r.value == AvitoError([Get(d["error"].fields, "code", JNull), Get(d["error"].fields, "message", JNull)])
    ensures r.Some? && !d["error"].JObj? ==> r.value == AttributeError
  {
    var e := Get(d, "error", JNull);
    if !Truthy(e) then None
    else if e.JObj? then Some(AvitoError([Get(e.fields, "code", JNull), Get(e.fields, "message", JNull)]))
    else Some(AttributeError)
  }

  /** The identity reply: the nested error check, then lenient decoding. */
  function UserInfoSelfOutcome(data: Json): (r: Result<UserInfoSelf, Exception>)
    ensures !data.JObj? ==> r == Failure(AttributeError)
    ensures data.JObj? && NestedError(data.fields).Some? ==> r == Failure(NestedError(data.fields).value)
    ensures data.JObj? && NestedError(data.fields).None? ==> r == DecodeUserInfoSelf(data.fields)
  {
    var d :- AsDict(data);
    match NestedError(d)
    case Some(e) => Failure(e)
    case None => DecodeUserInfoSelf(d)
  }

  /** The listing report reply: the nested error check, then one listing per
      element of `items` (none when `items` is absent), in order. */
  function AutoloadItemsOutcome(data: Json): (r: Result<seq<AutoloadItemInfo>, Exception>)
    ensures !data.JObj? ==> r == Failure(AttributeError)
    ensures data.JObj? && NestedError(data.fields).Some? ==> r == Failure(NestedError(data.fields).value)
    ensures data.JObj? && NestedError(data.fields).None? ==>
      r == (match LoopItems(Get(data.fields, "items", JArr([])))
            case Failure(e) => Failure(e)
            case Success(items) => DecodeEach(items, ParseAutoloadItemInfo))
  {
    var d :- AsDict(data);
    match NestedError(d)
    case Some(e) => Failure(e)
    case None =>
      var items :- LoopItems(Get(d, "items", JArr([])));
      DecodeEach(items, ParseAutoloadItemInfo)
  }

  /** The grouping names the client knows. */
  function ParseGrouping(grouping: string): (g: Option<Grouping>)
    ensures g == Some(ByDay) <==> grouping == "day"
    ensures g == Some(ByWeek) <==> grouping == "week"
    ensures g == Some(ByMonth) <==> grouping == "month"
  {
    if grouping == "day" then Some(ByDay)
    else if grouping == "week" then Some(ByWeek)
    else if grouping == "month" then Some(ByMonth)
    else None
  }

  /** `ItemStatsShallowDay/Week/Month.parse_obj` for the grouping's variant. */
  function StatsDecoder(g: Grouping): Json -> Result<ItemStatsShallow, Exception> {
    j => ParseItemStats(g, j)
  }

  /** The statistics reply: no error check; `result.items` decoded into the
      grouping's variant, in order; an unknown grouping reads nothing and
      gives no items. */
  function ItemsStatsOutcome(data: Json, grouping: string): (r: Result<seq<ItemStatsShallow>, Exception>)
    ensures ParseGrouping(grouping).None? ==> r == Success([])
    ensures ParseGrouping(grouping).Some? && !data.JObj? ==> r == Failure(AttributeError)
    ensures ParseGrouping(grouping).Some? && data.JObj? && !Get(data.fields, "result", JObj(map[])).JObj? ==>
      r == Failure(AttributeError)
    ensures ParseGrouping(grouping).Some? && data.JObj? && Get(data.fields, "result", JObj(map[])).JObj? ==>
      r == (match LoopItems(Get(Get(data.fields, "result", JObj(map[])).fields, "items", JArr([])))
            case Failure(e) => Failure(e)
            case Success(items) => DecodeEach(items, StatsDecoder(ParseGrouping(grouping).value)))
    ensures r.Failure? ==> !r.error.AvitoError?
  {
    match ParseGrouping(grouping)
    case None => Success([])
    case Some(g) =>
      var d :- AsDict(data);
      var result :- AsDict(Get(d, "result", JObj(map[])));
      var items :- LoopItems(Get(result, "items", JArr([])));
      DecodeEach(items, StatsDecoder(g))
  }

  /** The webhook replies: decoded straight into Ok, with no error check. */
  function WebhookOutcome(data: Json): (r: Result<Ok, Exception>)
    ensures r.Success? <==> data.JObj? && "ok" in data.fields && data.fields["ok"].JBool?
    ensures r.Success? ==> r.value.ok == data.fields["ok"].b
    ensures r.Failure? ==> r.error == ValidationError
  {
    ParseObj(data, DecodeOk)
  }

  /** Construction: the token first, then the identity, fetched with that token. */
  function Session(clientId: string, clientSecret: string, server: Server): (r: Result<(AccessToken, UserInfoSelf), Exception>)
    ensures r.Success? ==>
      && TokenOutcome(server(TokenRequest(TokenForm(clientId, clientSecret)))) == Success(r.value.0)
      && UserInfoSelfOutcome(server(UserInfoSelfRequest(r.value.0.accessToken))) == Success(r.value.1)
    ensures TokenOutcome(server(TokenRequest(TokenForm(clientId, clientSecret)))).Failure? ==>
      r == Failure(TokenOutcome(server(TokenRequest(TokenForm(clientId, clientSecret)))).error)
    ensures var t := TokenOutcome(server(TokenRequest(TokenForm(clientId, clientSecret))));
      t.Success? ==>
        r == match UserInfoSelfOutcome(server(UserInfoSelfRequest(t.value.accessToken)))
             case Success(u) => Success((t.value, u))
             case Failure(e) => Failure(e)
  {
    var token :- TokenOutcome(server(TokenRequest(TokenForm(clientId, clientSecret))));
    var identity :- UserInfoSelfOutcome(server(UserInfoSelfRequest(token.accessToken)));
    Success((token, identity))
  }

  class AvitoApi {
    const clientId: string
    const clientSecret: string
    var accessToken: AccessToken    // the decoded token reply
    var bearer: string              // the token string sent with every later request; never exposed
    var userInfoSelf: UserInfoSelf
    var email: string
    var id: int
    var name: string
    var phone: string
    var profileUrl: string

    /** The credentials are stored before anything is requested. */
    constructor(clientId: string, clientSecret: string)
      ensures this.clientId == clientId && this.clientSecret == clientSecret
    {
      this.clientId := clientId;
      this.clientSecret := clientSecret;
    }

    /** The rest of construction, step by step: the token, then the identity
        fetched with it, then the identity's fields. A failure leaves the
        later fields as they were. */
    method Initialise(server: Server) returns (raised: Option<Exception>)
      modifies this
      ensures var t := TokenOutcome(server(TokenRequest(TokenForm(clientId, clientSecret))));
        if t.Failure? then
          raised == Some(t.error) && unchanged(this)
        else
          && accessToken == t.value && bearer == t.value.accessToken
          && var u := UserInfoSelfOutcome(server(UserInfoSelfRequest(t.value.accessToken)));
             if u.Failure? then
               && raised == Some(u.error)
               && userInfoSelf == old(userInfoSelf) && email == old(email) && id == old(id)
               && name == old(name) && phone == old(phone) && profileUrl == old(profileUrl)
             else
               && raised == None && userInfoSelf == u.value
               && email == u.value.email && id == u.value.id && name == u.value.name
               && phone == u.value.phone && profileUrl == u.value.profileUrl
    {
      var t := GetAccessToken(server);
      if t.Failure? {
        return Some(t.error);
      }
      accessToken := t.value;
      bearer := accessToken.accessToken;
      var u := GetUserInfoSelf(server);
      if u.Failure? {
        return Some(u.error);
      }
      userInfoSelf := u.value;
      email := userInfoSelf.email;
      id := userInfoSelf.id;
      name := userInfoSelf.name;
      phone := userInfoSelf.phone;
      profileUrl := userInfoSelf.profileUrl;
      raised := None;
    }

    /** Creating a session: either a fully initialised session or the
        exception construction raised; no half-built session escapes. */
    static method Connect(clientId: string, clientSecret: string, server: Server) returns (r: Result<AvitoApi, Exception>)
      ensures var s := Session(clientId, clientSecret, server);
        && (r.Success? <==> s.Success?)
        && (r.Failure? ==> r.error == s.error)
        && (r.Success? ==>
              && fresh(r.value)
              && r.value.clientId == clientId && r.value.clientSecret == clientSecret
              && r.value.accessToken == s.value.0 && r.value.bearer == s.value.0.accessToken
              && r.value.userInfoSelf == s.value.1
              && r.value.email == s.value.1.email && r.value.id == s.value.1.id
              && r.value.name == s.value.1.name && r.value.phone == s.value.1.phone
              && r.value.profileUrl == s.value.1.profileUrl)
    {
      var api := new AvitoApi(clientId, clientSecret);
      var raised := api.Initialise(server);
      if raised.Some? {
        return Failure(raised.value);
      }
      return Success(api);
    }

    function GetAccessToken(server: Server): (r: Result<AccessToken, Exception>)
      ensures r == TokenOutcome(server(TokenRequest(TokenForm(clientId, clientSecret))))
    {
      TokenOutcome(server(TokenRequest(TokenForm(clientId, clientSecret))))
    }

    function GetUserInfoSelf(server: Server): (r: Result<UserInfoSelf, Exception>)
      reads this
      ensures r == UserInfoSelfOutcome(server(UserInfoSelfRequest(bearer)))
    {
      UserInfoSelfOutcome(server(UserInfoSelfRequest(bearer)))
    }

    /** The listing report for `ids`, decoded item by item. */
    method GetAutoloadItemsInfoV2(ids: seq<string>, server: Server) returns (r: Result<seq<AutoloadItemInfo>, Exception>)
      ensures r == AutoloadItemsOutcome(server(AutoloadItemsRequest(bearer, ListingQuery(ids))))
    {
      var query := ListingQuery(ids);
      var data := server(AutoloadItemsRequest(bearer, query));
      var d :- AsDict(data);
      var e := NestedError(d);
      if e.Some? {
        return Failure(e.value);
      }
      var items :- LoopItems(Get(d, "items", JArr([])));
      var infos: seq<AutoloadItemInfo> := [];
      var i := 0;
      while i < |items|
        invariant 0 <= i <= |items|
        invariant DecodeEach(items[..i], ParseAutoloadItemInfo) == Success(infos)
      {
        var info := ParseAutoloadItemInfo(items[i]);
        if info.Failure? {
          DecodeEachFirstFailure(items, ParseAutoloadItemInfo, i);
          return Failure(info.error);
        }
        DecodeEachExtend(items, ParseAutoloadItemInfo, i, infos);
        infos := infos + [info.value];
        i := i + 1;
      }
      assert items[..i] == items;
      return Success(infos);
    }

    /** Shallow statistics of `itemIds` between two dates, as the variant
        `grouping` names. */
    method ItemsStatsShallow(dateFrom: ValidDate, dateTo: ValidDate, itemIds: seq<int>, fields: Option<seq<string>>,
                             grouping: string, server: Server) returns (r: Result<seq<ItemStatsShallow>, Exception>)
      ensures r == ItemsStatsOutcome(server(ItemStatsRequest(bearer, id, StatsBodyForDates(dateFrom, dateTo, itemIds, fields, grouping))), grouping)
    {
      var data := server(ItemStatsRequest(bearer, id, StatsBodyForDates(dateFrom, dateTo, itemIds, fields, grouping)));
      var g := ParseGrouping(grouping);
      if g.None? {
        return Success([]);
      }
      var d :- AsDict(data);
      var result :- AsDict(Get(d, "result", JObj(map[])));
      var items :- LoopItems(Get(result, "items", JArr([])));
      var decode := StatsDecoder(g.value);
      var out: seq<ItemStatsShallow> := [];
      var i := 0;
      while i < |items|
        invariant 0 <= i <= |items|
        invariant DecodeEach(items[..i], decode) == Success(out)
      {
        var item := decode(items[i]);
        if item.Failure? {
          DecodeEachFirstFailure(items, decode, i);
          return Failure(item.error);
        }
        DecodeEachExtend(items, decode, i, out);
        out := out + [item.value];
        i := i + 1;
      }
      assert items[..i] == items;
      return Success(out);
    }

    method ItemsStatsShallowDay(dateFrom: ValidDate, dateTo: ValidDate, itemIds: seq<int>, fields: Option<seq<string>>,
                                server: Server) returns (r: Result<seq<ItemStatsShallow>, Exception>)
      ensures r == ItemsStatsOutcome(server(ItemStatsRequest(bearer, id, StatsBodyForDates(dateFrom, dateTo, itemIds, fields, "day"))), "day")
      ensures r.Success? ==> forall i | 0 <= i < |r.value| :: r.value[i].Day?
    {
      r := ItemsStatsShallow(dateFrom, dateTo, itemIds, fields, "day", server);
      StatsVariantMatchesGrouping(server(ItemStatsRequest(bearer, id, StatsBodyForDates(dateFrom, dateTo, itemIds, fields, "day"))), "day");
    }

    method ItemsStatsShallowWeek(dateFrom: ValidDate, dateTo: ValidDate, itemIds: seq<int>, fields: Option<seq<string>>,
                                 server: Server) returns (r: Result<seq<ItemStatsShallow>, Exception>)
      ensures r == ItemsStatsOutcome(server(ItemStatsRequest(bearer, id, StatsBodyForDates(dateFrom, dateTo, itemIds, fields, "week"))), "week")
      ensures r.Success? ==> forall i | 0 <= i < |r.value| :: r.value[i].Week?
    {
      r := ItemsStatsShallow(dateFrom, dateTo, itemIds, fields, "week", server);
      StatsVariantMatchesGrouping(server(ItemStatsRequest(bearer, id, StatsBodyForDates(dateFrom, dateTo, itemIds, fields, "week"))), "week");
    }

    method ItemsStatsShallowMonth(dateFrom: ValidDate, dateTo: ValidDate, itemIds: seq<int>, fields: Option<seq<string>>,
                                  server: Server) returns (r: Result<seq<ItemStatsShallow>, Exception>)
      ensures r == ItemsStatsOutcome(server(ItemStatsRequest(bearer, id, StatsBodyForDates(dateFrom, dateTo, itemIds, fields, "month"))), "month")
      ensures r.Success? ==> forall i | 0 <= i < |r.value| :: r.value[i].Month?
    {
      r := ItemsStatsShallow(dateFrom, dateTo, itemIds, fields, "month", server);
      StatsVariantMatchesGrouping(server(ItemStatsRequest(bearer, id, StatsBodyForDates(dateFrom, dateTo, itemIds, fields, "month"))), "month");
    }

    function PostWebhookV2(url: string, server: Server): (r: Result<Ok, Exception>)
      reads this
      ensures r == WebhookOutcome(server(WebhookRequest(bearer, WebhookBody(url))))
    {
      WebhookOutcome(server(WebhookRequest(bearer, WebhookBody(url))))
    }

    function PostWebhookUnsubscribe(url: string, server: Server): (r: Result<Ok, Exception>)
      reads this
      ensures r == WebhookOutcome(server(WebhookUnsubscribeRequest(bearer, WebhookBody(url))))
    {
      WebhookOutcome(server(WebhookUnsubscribeRequest(bearer, WebhookBody(url))))
    }
  }

  // ------------------------------------------------------------------ lemmas

  /** Statistics items come out one per element of `result.items`, in order. */
  lemma StatsFollowItems(d: map<string, Json>, grouping: string, items: seq<Json>)
    requires ParseGrouping(grouping).Some?
    requires "result" in d && d["result"].JObj?
    requires "items" in d["result"].fields && d["result"].fields["items"] == JArr(items)
    ensures var r := ItemsStatsOutcome(JObj(d), grouping);
      r.Success? <==> forall i | 0 <= i < |items| :: ParseItemStats(ParseGrouping(grouping).value, items[i]).Success?
    ensures var r := ItemsStatsOutcome(JObj(d), grouping);
      r.Success? ==> (|r.value| == |items| &&
        forall i | 0 <= i < |items| :: ParseItemStats(ParseGrouping(grouping).value, items[i]) == Success(r.value[i]))
  {
    var g := ParseGrouping(grouping).value;
    assert ItemsStatsOutcome(JObj(d), grouping) == DecodeEach(items, StatsDecoder(g));
    assert forall i | 0 <= i < |items| :: StatsDecoder(g)(items[i]) == ParseItemStats(g, items[i]);
  }

  /** Every statistics item is of the variant the grouping names. */
  lemma StatsVariantMatchesGrouping(data: Json, grouping: string)
    ensures var r := ItemsStatsOutcome(data, grouping);
      r.Success? ==> forall i | 0 <= i < |r.value| ::
        && (r.value[i].Day? <==> grouping == "day")
        && (r.value[i].Week? <==> grouping == "week")
        && (r.value[i].Month? <==> grouping == "month")
  {
  }

  /** A reply without `result`, or with `result` lacking `items`, gives no statistics. */
  lemma StatsMissingResultIsEmpty(d: map<string, Json>, grouping: string)
    requires "result" !in d || (d["result"].JObj? && "items" !in d["result"].fields)
    ensures ItemsStatsOutcome(JObj(d), grouping) == Success([])
  {
  }

  /** The listing report gives one listing per element of `items`, in order,
      and none when `items` is absent. */
  lemma ListingsFollowItems(d: map<string, Json>)
    requires NestedError(d).None?
    ensures "items" !in d ==> AutoloadItemsOutcome(JObj(d)) == Success([])
    ensures "items" in d && d["items"].JArr? ==>
      var r := AutoloadItemsOutcome(JObj(d));
      var items := d["items"].items;
      r.Success? ==> |r.value| == |items| && forall i | 0 <= i < |items| :: ParseAutoloadItemInfo(items[i]) == Success(r.value[i])
  {
  }

  /** Listings sent in their object form come back exactly. */
  lemma ListingsRoundTrip(listings: seq<AutoloadItemInfo>)
    ensures AutoloadItemsOutcome(JObj(map["items" := JArr(seq(|listings|, i requires 0 <= i < |listings| => JObj(EncodeAutoloadItemInfo(listings[i]))))]))
      == Success(listings)
  {
    var xs := seq(|listings|, i requires 0 <= i < |listings| => JObj(EncodeAutoloadItemInfo(listings[i])));
    var d := map["items" := JArr(xs)];
    assert NestedError(d).None?;
    forall i | 0 <= i < |xs|
      ensures ParseAutoloadItemInfo(xs[i]) == Success(listings[i])
    {
      AutoloadItemInfoRoundTrip(listings[i]);
    }
    var r := DecodeEach(xs, ParseAutoloadItemInfo);
    assert r.value == listings;
  }

  /** A truthy error outranks any token fields: nothing is decoded, and the
      error carries the reply's `error` and `error_description` verbatim. */
  lemma TokenErrorWins(t: AccessToken, error: string, description: Json)
    requires error != ""
    ensures TokenOutcome(JObj(EncodeAccessToken(t)["error" := JStr(error)]["error_description" := description]))
      == Failure(AvitoError([JStr(error), description]))
    ensures TokenOutcome(JObj(EncodeAccessToken(t)["error" := JStr(error)]))
      == Failure(AvitoError([JStr(error), JStr("")]))
  {
  }

  /** A token reply without an error decodes to the token it describes;
      one missing a token field fails to decode. */
  lemma TokenReplyDecodes(t: AccessToken, key: string)
    ensures TokenOutcome(JObj(EncodeAccessToken(t))) == Success(t)
    ensures key in {"access_token", "expires_in", "token_type"} ==>
      TokenOutcome(JObj(EncodeAccessToken(t) - {key})) == Failure(ValidationError)
  {
    AccessTokenRoundTrip(t);
  }

  /** A truthy nested error outranks any identity fields. */
  lemma IdentityErrorWins(u: UserInfoSelf, code: Json, message: Json)
    ensures var d := EncodeUserInfoSelf(u)["error" := JObj(map["code" := code, "message" := message])];
      UserInfoSelfOutcome(JObj(d)) == Failure(AvitoError([code, message]))
  {
    var e := map["code" := code, "message" := message];
    assert "code" in e;
  }

  /** The webhook replies are never checked for an error: an error object
      alongside `ok` is ignored, and an error object without `ok` fails to
      decode instead of raising Error. */
  lemma WebhookIgnoresErrors(ok: bool, error: Json)
    ensures WebhookOutcome(JObj(map["ok" := JBool(ok), "error" := error])) == Success(Ok(ok))
    ensures WebhookOutcome(JObj(map["error" := error])) == Failure(ValidationError)
  {
  }

  /** A failed token exchange ends construction: the identity reply is never consulted. */
  lemma TokenFailureSkipsIdentity(clientId: string, clientSecret: string, s1: Server, s2: Server)
    requires s1(TokenRequest(TokenForm(clientId, clientSecret))) == s2(TokenRequest(TokenForm(clientId, clientSecret)))
    requires TokenOutcome(s1(TokenRequest(TokenForm(clientId, clientSecret)))).Failure?
    ensures Session(clientId, clientSecret, s1) == Session(clientId, clientSecret, s2)
  {
  }

  /** The identity is fetched with the token just obtained: servers that agree
      on the token reply and on the identity reply for that token build the
      same session, whatever they answer to other tokens. */
  lemma IdentityUsesNewToken(clientId: string, clientSecret: string, s1: Server, s2: Server)
    requires s1(TokenRequest(TokenForm(clientId, clientSecret))) == s2(TokenRequest(TokenForm(clientId, clientSecret)))
    requires var t := TokenOutcome(s1(TokenRequest(TokenForm(clientId, clientSecret))));
      t.Success? ==> s1(UserInfoSelfRequest(t.value.accessToken)) == s2(UserInfoSelfRequest(t.value.accessToken))
    ensures Session(clientId, clientSecret, s1) == Session(clientId, clientSecret, s2)
  {
  }
}
