/** The library's unit tests and a few end-to-end examples, each
    stated over a fresh client: what the call returns and, when a request
    goes out, what that request is. */
module OutboundScenarios {
  import opened Php
  import opened Outbound

  /** An outcome for calls that never reach the network. */
  const Unused := Received("", None)

  /** `reset()` after `init`, then `identify(1)`: the guard throws. */
  method InitEnforcement() returns (r: Response)
    ensures r == NotSent(InitError)
  {
    var c := new Client();
    c.Init("APIKEY");
    c.Reset();
    r := c.Identify(Int(1), None, Unused);
  }

  /** A request, if one went out, carries the configured key in its headers
      and the configured timeouts. */
  predicate CarriesConfiguration(r: Response, key: string, connect: int, total: int) {
    r.Sent? ==> r.request.headers == Headers(key) && r.request.connectTimeout == connect && r.request.timeout == total
  }

  /** `init($key, $connect, $total)`, then each operation with any arguments:
      every request made is configured by that `init`, and with a falsy key
      no operation makes one. */
  method ConfigurationCarried(key: string, connect: int, total: int, userId: PhpValue, userInfo: Option<Entries>,
                              event: PhpValue, properties: Option<Entries>, timestamp: PhpValue, now: int,
                              platform: string, token: PhpValue, outcome: TransportOutcome)
    returns (identified: Response, tracked: Response, registered: Response, disabled: Response)
    ensures CarriesConfiguration(identified, key, connect, total)
    ensures CarriesConfiguration(tracked, key, connect, total)
    ensures CarriesConfiguration(registered, key, connect, total)
    ensures CarriesConfiguration(disabled, key, connect, total)
    ensures key == "" || key == "0" ==>
      identified == tracked == registered == disabled == NotSent(InitError)
  {
    var c := new Client();
    c.Init(key, connect, total);
    identified := c.Identify(userId, userInfo, outcome);
    tracked := c.Track(userId, event, properties, timestamp, now, outcome);
    registered := c.RegisterToken(platform, userId, token, outcome);
    disabled := c.DisableToken(platform, userId, token, outcome);
  }

  /** `init("0")` stores a falsy key: the guard throws before the invalid id
      and event are looked at. */
  method FalsyKeyGuard() returns (r: Response)
    ensures r == NotSent(InitError)
  {
    var c := new Client();
    c.Init("0");
    r := c.Track(Arr([]), Int(9), None, Null, 0, Unused);
  }

  /** `identify(array('user_id'))`: the id is an array. */
  method UserIdForIdentify() returns (r: Response)
    ensures r == NotSent(UserIdError(Arr([(IntKey(0), Str("user_id"))])))
  {
    var c := new Client();
    c.Init("APIKEY");
    r := c.Identify(Arr([(IntKey(0), Str("user_id"))]), None, Unused);
  }

  /** `track(array('user_id'), 'event')`: the id is checked first. */
  method UserIdForTrack() returns (r: Response)
    ensures r == NotSent(UserIdError(Arr([(IntKey(0), Str("user_id"))])))
  {
    var c := new Client();
    c.Init("APIKEY");
    r := c.Track(Arr([(IntKey(0), Str("user_id"))]), Str("event"), None, Null, 0, Unused);
  }

  /** `track('user_id', 9)`: the event is not a string. */
  method EventNameForTrack() returns (r: Response)
    ensures r == NotSent(EventError(Int(9)))
  {
    var c := new Client();
    c.Init("APIKEY");
    r := c.Track(Str("user_id"), Int(9), None, Null, 0, Unused);
  }

  /** `register_token('platform', 'user_id', 'token')`: unknown platform. */
  method PlatformForRegister() returns (r: Response)
    ensures r == NotSent(PlatformError("platform"))
  {
    var c := new Client();
    c.Init("APIKEY");
    r := c.RegisterToken("platform", Str("user_id"), Str("token"), Unused);
  }

  /** `register_token(APNS, array('user_id'), 'token')`: the id is an array. */
  method UserIdForRegister() returns (r: Response)
    ensures r == NotSent(UserIdError(Arr([(IntKey(0), Str("user_id"))])))
  {
    var c := new Client();
    c.Init("APIKEY");
    r := c.RegisterToken(Apns, Arr([(IntKey(0), Str("user_id"))]), Str("token"), Unused);
  }

  /** `register_token(APNS, 'user_id', 9)`: the token is not a string. */
  method TokenForRegister() returns (r: Response)
    ensures r == NotSent(TokenError(Int(9)))
  {
    var c := new Client();
    c.Init("APIKEY");
    r := c.RegisterToken(Apns, Str("user_id"), Int(9), Unused);
  }

  /** The endpoint spelled out. */
  lemma TrackUrl()
    ensures UrlRoot + "/track" == "https://api.outbound.io/v2/track"
  {
  }

  /** The payload of the signup event, spelled out. */
  lemma SignupPayload(now: int)
    ensures EventPayload(Str("signup"), Int(42), Some([(StrKey("plan"), Str("pro"))]), Int(now)) == [
      (StrKey("event"), Str("signup")),
      (StrKey("user_id"), Int(42)),
      (StrKey("properties"), Arr([(StrKey("plan"), Str("pro"))])),
      (StrKey("timestamp"), Int(now))
    ]
  {
  }

  /** `init("KEY")`, then `track(42, "signup", {plan: "pro"})` at time `now`:
      the request that goes out, and an empty body is success. */
  method SignupTracked(now: int) returns (r: Response)
    ensures r.Sent? && r.status == Success
    ensures r.request.url == "https://api.outbound.io/v2/track"
    ensures r.request.headers == Headers("KEY")
    ensures r.request.connectTimeout == 5 && r.request.timeout == 30
    ensures r.request.payload == [
      (StrKey("event"), Str("signup")),
      (StrKey("user_id"), Int(42)),
      (StrKey("properties"), Arr([(StrKey("plan"), Str("pro"))])),
      (StrKey("timestamp"), Int(now))
    ]
  {
    var c := new Client();
    c.Init("KEY");
    r := c.Track(Int(42), Str("signup"), Some([(StrKey("plan"), Str("pro"))]), Null, now, Received("", None));
    TrackUrl();
    SignupPayload(now);
  }

  /** The server's answer to a request with a wrong key. */
  const BadKeyBody := "{\"error\":{\"Message\":\"bad key\",\"Code\":401}}"

  /** That answer, decoded, is an API error with the server's message and code. */
  lemma BadKeyStatus()
    ensures Translate(Received(BadKeyBody, Some(ApiErrorBody("bad key", 401)))) == Failure(Error(Api, "bad key", 401))
  {
    assert BadKeyBody[0] == '{';
  }

  /** The same call answered by an error body: the same request goes out,
      and the call ends with an API error carrying the server's message and
      code. */
  method SignupRejected(now: int) returns (r: Response)
    ensures r.Sent? && r.status == Failure(Error(Api, "bad key", 401))
    ensures r.request.url == "https://api.outbound.io/v2/track"
    ensures r.request.payload == [
      (StrKey("event"), Str("signup")),
      (StrKey("user_id"), Int(42)),
      (StrKey("properties"), Arr([(StrKey("plan"), Str("pro"))])),
      (StrKey("timestamp"), Int(now))
    ]
  {
    var c := new Client();
    c.Init("KEY");
    r := c.Track(Int(42), Str("signup"), Some([(StrKey("plan"), Str("pro"))]), Null, now,
                 Received(BadKeyBody, Some(ApiErrorBody("bad key", 401))));
    assert r.Sent? && r.status == Translate(Received(BadKeyBody, Some(ApiErrorBody("bad key", 401))));
    assert r.request.url == UrlRoot + "/track";
    assert r.request.payload == EventPayload(Str("signup"), Int(42), Some([(StrKey("plan"), Str("pro"))]), Int(now));
    BadKeyStatus();
    TrackUrl();
    SignupPayload(now);
  }

  /** The endpoint spelled out. */
  lemma ApnsRegisterUrl()
    ensures UrlRoot + "/apns/register" == "https://api.outbound.io/v2/apns/register"
  {
  }

  /** `register_token("apns", "u1", "tok123")` posts `{token, user_id}` to the
      APNs registration endpoint. */
  method ApnsRegistration() returns (r: Response)
    ensures r.Sent? && r.status == Success
    ensures r.request.url == "https://api.outbound.io/v2/apns/register"
    ensures r.request.payload == [(StrKey("token"), Str("tok123")), (StrKey("user_id"), Str("u1"))]
  {
    var c := new Client();
    c.Init("APIKEY");
    r := c.RegisterToken(Apns, Str("u1"), Str("tok123"), Received("\n", None));
    ApnsRegisterUrl();
  }

  /** Shaping three whitelisted entries, the middle one alone non-empty. */
  lemma ShapeMiddleKept(userId: PhpValue, a: (PhpKey, PhpValue), b: (PhpKey, PhpValue), c: (PhpKey, PhpValue))
    requires !IsEmpty(userId)
    requires IsUserField(a.0) && IsUserField(b.0) && IsUserField(c.0)
    requires IsEmpty(a.1) && !IsEmpty(b.1) && IsEmpty(c.1)
    ensures ShapeUser(userId, [a, b, c]) == [b, (UserIdKey, userId)]
  {
    var id := (UserIdKey, userId);
    var info := [a, b, c];
    assert info == [a] + ([b] + [c]);
    IntersectKeysOne(a);
    IntersectKeysOne(b);
    IntersectKeysOne(c);
    IntersectKeysAppend([b], [c]);
    IntersectKeysAppend([a], [b] + [c]);
    assert IntersectKeys(info) == info;
    AssignUserId(info, userId);
    var withId := [a] + ([b] + ([c] + [id]));
    assert Assign(info, UserIdKey, userId) == withId;
    FilterNonEmptyOne(a);
    FilterNonEmptyOne(b);
    FilterNonEmptyOne(c);
    FilterNonEmptyOne(id);
    FilterNonEmptyAppend([c], [id]);
    assert FilterNonEmpty([c] + [id]) == [id];
    FilterNonEmptyAppend([b], [c] + [id]);
    assert FilterNonEmpty([b] + ([c] + [id])) == [b, id];
    FilterNonEmptyAppend([a], [b] + ([c] + [id]));
    assert FilterNonEmpty(withId) == [b, id];
  }

  /** Shaping a whitelisted entry followed by an unknown one. */
  lemma ShapeUnknownDropped(userId: PhpValue, a: (PhpKey, PhpValue), b: (PhpKey, PhpValue))
    requires !IsEmpty(userId)
    requires IsUserField(a.0) && !IsUserField(b.0) && !IsEmpty(a.1)
    ensures ShapeUser(userId, [a, b]) == [a, (UserIdKey, userId)]
  {
    var none: Entries := [];
    var id := (UserIdKey, userId);
    assert [a, b][1..] == [b] && [b][1..] == none;
    assert IntersectKeys([b]) == none;
    assert IntersectKeys([a, b]) == [a];
    AssignUserId([a], userId);
    assert [a] + [id] == [a, id] && [a, id][1..] == [id] && [id][1..] == none;
    assert FilterNonEmpty([id]) == [id];
  }

  /** Empty values are dropped: `{first_name: "", last_name: "Smith",
      attributes: {}}` keeps only `last_name`, then `user_id`. */
  lemma EmptyFieldsDropped()
    ensures BuildUser(Str("u1"), Some([
      (StrKey("first_name"), Str("")),
      (StrKey("last_name"), Str("Smith")),
      (StrKey("attributes"), Arr([]))
    ])) == Ok([(StrKey("last_name"), Str("Smith")), (StrKey("user_id"), Str("u1"))])
  {
    var none: Entries := [];
    ShapeMiddleKept(Str("u1"), (StrKey("first_name"), Str("")), (StrKey("last_name"), Str("Smith")), (StrKey("attributes"), Arr(none)));
  }

  /** Unknown keys are dropped: `{first_name: "A", nickname: "Z"}` keeps
      `first_name`, then `user_id`. */
  lemma UnknownKeysDropped()
    ensures BuildUser(Int(7), Some([(StrKey("first_name"), Str("A")), (StrKey("nickname"), Str("Z"))]))
      == Ok([(StrKey("first_name"), Str("A")), (StrKey("user_id"), Int(7))])
  {
    ShapeUnknownDropped(Int(7), (StrKey("first_name"), Str("A")), (StrKey("nickname"), Str("Z")));
  }

  /** With no user info, an empty id leaves nothing to send. */
  lemma ShapeEmptyId(userId: PhpValue)
    requires IsEmpty(userId)
    ensures ShapeUser(userId, []) == []
  {
    var none: Entries := [];
    assert IntersectKeys(none) == none;
    assert Assign(none, UserIdKey, userId) == [(UserIdKey, userId)];
    assert [(UserIdKey, userId)][1..] == none;
    assert FilterNonEmpty(none) == none;
    assert FilterNonEmpty([(UserIdKey, userId)]) == none;
  }

  /** The payload of an event for an empty id, spelled out. */
  lemma FalsyIdPayload(now: int)
    ensures EventPayload(Str("e"), Null, None, Int(now)) ==
      [(StrKey("event"), Str("e")), (StrKey("user_id"), Null), (StrKey("timestamp"), Int(now))]
  {
  }

  /** The filter applies to `user_id` too: `identify(0)` sends an empty
      payload. */
  method FalsyIdIdentified() returns (r: Response)
    ensures r.Sent? && r.request.payload == []
  {
    var c := new Client();
    c.Init("APIKEY");
    r := c.Identify(Int(0), None, Unused);
    ShapeEmptyId(Int(0));
  }

  /** ... and `track(0, "e")` at time `now` sends `user_id` as null. */
  method FalsyIdTracked(now: int) returns (r: Response)
    ensures r.Sent? && r.request.payload ==
      [(StrKey("event"), Str("e")), (StrKey("user_id"), Null), (StrKey("timestamp"), Int(now))]
  {
    var c := new Client();
    c.Init("APIKEY");
    r := c.Track(Int(0), Str("e"), None, Int(0), now, Unused);
    FalsyIdPayload(now);
  }
}
