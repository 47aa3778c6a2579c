/** The Outbound client: configuration, the guard, argument validation,
    payload shaping, URL routing, request headers and the translation of the
    HTTP outcome into a result. The HTTP exchange itself is an input. */
module Outbound {
  import opened Php
  import opened Text

  const Version := "2.0.0"

  /** The call codes `_execute` and `_build_url` take. */
  const CallTrack := 1
  const CallIdentify := 2
  const CallRegisterApns := 3
  const CallRegisterGcm := 4
  const CallDisableApns := 5
  const CallDisableGcm := 6

  const Apns := "apns"
  const Gcm := "gcm"

  const UrlRoot := "https://api.outbound.io/v2"

  /** The keys `_build_user` keeps from the caller's user info. */
  const UserFields: set<string> := {
    "first_name", "last_name", "email", "phone_number", "apns", "gcm",
    "group_id", "group_attributes", "previous_id", "attributes"
  }

  const UserIdKey := StrKey("user_id")
  const EventKey := StrKey("event")
  const PropertiesKey := StrKey("properties")
  const TimestampKey := StrKey("timestamp")
  const TokenKey := StrKey("token")

  /** The exception classes the client throws: `Configuration` and `Internal`
      are plain `Exception`s, `Data`, `Connection` and `Api` are
      `OutboundDataException`, `OutboundConnectionException` and
      `OutboundApiException`. `Protocol` stands for a non-empty response body
      that does not decode to an error object. */
  datatype ErrorKind = Configuration | Data | Connection | Api | Internal | Protocol

  /** An exception: its class, its message and its code. */
  datatype Error = Error(kind: ErrorKind, message: string, code: int)

  datatype Result<+T> = Ok(value: T) | Err(error: Error)

  /** Outcome of a check that either passes or throws. */
  datatype Check = Pass | Fail(error: Error)

  /** What the client hands to cURL: URL, header lines, the two timeouts in
      seconds, and the array that is JSON-encoded as the POST body. */
  datatype Request = Request(url: string, headers: seq<string>, connectTimeout: int, timeout: int, payload: Entries)

  /** `error.Message` and `error.Code` of a decoded error response. */
  datatype ApiErrorBody = ApiErrorBody(message: string, code: int)

  /** What `curl_exec` produced: a failure with cURL's error number and text,
      or a response body together with what `json_decode` makes of its error
      object (`None` when the body is not such an object). */
  datatype TransportOutcome =
    | TransportFailed(errno: int, reason: string)
    | Received(body: string, decoded: Option<ApiErrorBody>)

  /** Whether the call succeeded once the request went out. */
  datatype Status = Success | Failure(error: Error)

  /** A public operation either throws before any request is made, or makes
      exactly one request and ends with a status. */
  datatype Response = NotSent(error: Error) | Sent(request: Request, status: Status)

  const InitError := Error(Configuration, "init() must be called before anything else.", 0)

  /** The messages of the client's other exceptions. */
  function UserIdError(userId: PhpValue): Error {
    Error(Data, "User ID must be string or integer. Received " + TypeName(userId) + ".", 0)
  }

  function EventError(event: PhpValue): Error {
    Error(Data, "Event must be a string. Received " + TypeName(event) + ".", 0)
  }

  function PlatformError(platform: string): Error {
    Error(Data, "Invalid platform (" + platform + ").", 0)
  }

  function TokenError(token: PhpValue): Error {
    Error(Data, "Token must be a string. Received " + TypeName(token) + ".", 0)
  }

  function UnsupportedCallError(call: int): Error {
    Error(Internal, "Unsupported API call (" + IntToDecimal(call) + ") given.", 0)
  }

  function ConnectionError(errno: int, reason: string): Error {
    Error(Connection, "Unknown cURL error: " + IntToDecimal(errno) + " - " + reason, 0)
  }

  /** Each data message tells apart what it reports: the type name of the
      rejected id, event or token, or the rejected platform. */
  lemma DataErrorsInjective(a: PhpValue, b: PhpValue, p: string, q: string)
    ensures UserIdError(a) == UserIdError(b) <==> TypeName(a) == TypeName(b)
    ensures EventError(a) == EventError(b) <==> TypeName(a) == TypeName(b)
    ensures TokenError(a) == TokenError(b) <==> TypeName(a) == TypeName(b)
    ensures PlatformError(p) == PlatformError(q) <==> p == q
  {
    MiddleDetermined("User ID must be string or integer. Received ", TypeName(a), TypeName(b), ".");
    MiddleDetermined("Event must be a string. Received ", TypeName(a), TypeName(b), ".");
    MiddleDetermined("Token must be a string. Received ", TypeName(a), TypeName(b), ".");
    MiddleDetermined("Invalid platform (", p, q, ").");
  }

  /** Distinct call codes give distinct "Unsupported API call" messages. */
  lemma UnsupportedCallErrorInjective(a: int, b: int)
    ensures UnsupportedCallError(a) == UnsupportedCallError(b) <==> a == b
  {
    var prefix := "Unsupported API call (";
    var da, db := IntToDecimal(a), IntToDecimal(b);
    if UnsupportedCallError(a) == UnsupportedCallError(b) {
      assert prefix + da + ") given." == prefix + db + ") given.";
      assert da + ") given." == db + ") given." by {
        assert da + ") given." == (prefix + da + ") given.")[|prefix|..];
        assert db + ") given." == (prefix + db + ") given.")[|prefix|..];
      }
      IntToDecimalChars(a);
      IntToDecimalChars(b);
      SplitAtDelimiter(da, ") given.", db, ") given.", ')');
      IntToDecimalInjective(a, b);
    }
  }

  /** The connection message determines both the cURL error number and its
      text. */
  lemma ConnectionErrorInjective(e1: int, r1: string, e2: int, r2: string)
    ensures ConnectionError(e1, r1) == ConnectionError(e2, r2) <==> e1 == e2 && r1 == r2
  {
    var prefix := "Unknown cURL error: ";
    var d1, d2 := IntToDecimal(e1), IntToDecimal(e2);
    if ConnectionError(e1, r1) == ConnectionError(e2, r2) {
      var m1, m2 := prefix + d1 + " - " + r1, prefix + d2 + " - " + r2;
      assert m1 == m2;
      assert d1 + (" - " + r1) == d2 + (" - " + r2) by {
        assert d1 + (" - " + r1) == m1[|prefix|..];
        assert d2 + (" - " + r2) == m2[|prefix|..];
      }
      IntToDecimalChars(e1);
      IntToDecimalChars(e2);
      SplitAtDelimiter(d1, " - " + r1, d2, " - " + r2, ' ');
      IntToDecimalInjective(e1, e2);
      assert r1 == (" - " + r1)[3..] && r2 == (" - " + r2)[3..];
    }
  }

  /** `_ensure_init`: the stored key must be truthy. */
  function EnsureInit(apiKey: Option<string>): (c: Check)
    ensures c.Pass? <==> apiKey.Some? && apiKey.value != "" && apiKey.value != "0"
    ensures c.Fail? ==> c.error == InitError
  {
    if apiKey.None? || IsEmpty(Str(apiKey.value)) then Fail(InitError) else Pass
  }

  /** `_validate_user_id`: strings and numbers pass (`is_numeric` of a
      non-string holds exactly for integers and floats). */
  function ValidateUserId(userId: PhpValue): (c: Check)
    ensures c.Fail? <==> userId.Null? || userId.Bool? || userId.Arr? || userId.Object? || userId.Closure?
    ensures c.Fail? ==> c.error == UserIdError(userId)
  {
    if userId.Str? || userId.Int? || userId.Float? then Pass
    else Fail(UserIdError(userId))
  }

  /** The rejection message names the value's type, and only these names can
      occur in it. */
  lemma UserIdRejectionNamesType(userId: PhpValue)
    ensures ValidateUserId(userId).Fail? <==> TypeName(userId) in {"NULL", "boolean", "array", "object", "function"}
    ensures ValidateUserId(userId).Fail? ==> UserIdError(userId).kind == Data
  {
  }

  predicate IsUserField(k: PhpKey) {
    k.StrKey? && k.name in UserFields
  }

  /** `array_intersect_key($es, <the whitelist>)`: the entries whose key is a
      user field, in their order. */
  function IntersectKeys(es: Entries): Entries {
    if es == [] then []
    else if IsUserField(es[0].0) then [es[0]] + IntersectKeys(es[1..])
    else IntersectKeys(es[1..])
  }

  /** `array_filter($es, function($v) { return !empty($v); })`: the entries
      whose value is not empty, in their order. */
  function FilterNonEmpty(es: Entries): Entries {
    if es == [] then []
    else if !IsEmpty(es[0].1) then [es[0]] + FilterNonEmpty(es[1..])
    else FilterNonEmpty(es[1..])
  }

  /** The whitelist keeps exactly the entries whose key is a user field, and
      a PHP array stays one. */
  lemma {:induction false} IntersectKeysMembers(es: Entries)
    ensures forall e :: e in IntersectKeys(es) <==> e in es && IsUserField(e.0)
    ensures DistinctKeys(es) ==> DistinctKeys(IntersectKeys(es))
  {
    if es != [] {
      IntersectKeysMembers(es[1..]);
      assert es == [es[0]] + es[1..];
      assert DistinctKeys(es) ==> forall e :: e in es[1..] ==> e.0 != es[0].0;
    }
  }

  /** The filter keeps exactly the entries whose value is not empty, and a
      PHP array stays one. */
  lemma {:induction false} FilterNonEmptyMembers(es: Entries)
    ensures forall e :: e in FilterNonEmpty(es) <==> e in es && !IsEmpty(e.1)
    ensures DistinctKeys(es) ==> DistinctKeys(FilterNonEmpty(es))
  {
    if es != [] {
      FilterNonEmptyMembers(es[1..]);
      assert es == [es[0]] + es[1..];
      assert DistinctKeys(es) ==> forall e :: e in es[1..] ==> e.0 != es[0].0;
    }
  }

  /** The caller's user info; an omitted array reads as an empty one. */
  function Given(userInfo: Option<Entries>): Entries {
    match userInfo
    case None => []
    case Some(info) => info
  }

  /** The shaping half of `_build_user`: keep the whitelisted fields, add
      `user_id` (never a whitelisted key, so it is appended), then drop every
      empty value, `user_id` included. */
  function ShapeUser(userId: PhpValue, info: Entries): Entries {
    var kept := IntersectKeys(if !IsEmpty(Arr(info)) then info else []);
    FilterNonEmpty(Assign(kept, UserIdKey, userId))
  }

  /** Adding `user_id` to whitelisted entries appends it. */
  lemma AssignUserId(fields: Entries, userId: PhpValue)
    requires forall e :: e in fields ==> IsUserField(e.0)
    ensures Assign(fields, UserIdKey, userId) == fields + [(UserIdKey, userId)]
  {
    assert !HasKey(fields, UserIdKey) by {
      assert forall i :: 0 <= i < |fields| ==> fields[i] in fields;
    }
  }

  /** `_build_user`: validate the id, then shape the payload. */
  function BuildUser(userId: PhpValue, userInfo: Option<Entries>): (r: Result<Entries>)
    ensures r.Err? <==> ValidateUserId(userId).Fail?
    ensures r.Err? ==> r.error == UserIdError(userId)
  {
    var check := ValidateUserId(userId);
    if check.Fail? then Err(check.error) else Ok(ShapeUser(userId, Given(userInfo)))
  }

  /** What the shaped user payload keeps of the user info: only whitelisted
      keys and `user_id`, only non-empty values, every other entry unchanged
      from the input, and every non-empty whitelisted input entry; a PHP array
      stays one. */
  lemma ShapeUserFields(userId: PhpValue, info: Entries)
    ensures var out := ShapeUser(userId, info);
      && (forall e :: e in out ==> IsUserField(e.0) || e.0 == UserIdKey)
      && (forall e :: e in out ==> !IsEmpty(e.1))
      && (forall e :: e in out && e.0 != UserIdKey ==> e in info)
      && (forall e :: e in info && IsUserField(e.0) && !IsEmpty(e.1) ==> e in out)
      && (DistinctKeys(info) ==> DistinctKeys(out))
  {
    var given := if !IsEmpty(Arr(info)) then info else [];
    var kept := IntersectKeys(given);
    IntersectKeysMembers(given);
    AssignUserId(kept, userId);
    FilterNonEmptyMembers(kept + [(UserIdKey, userId)]);
    assert DistinctKeys(info) ==> DistinctKeys(kept + [(UserIdKey, userId)]) by {
      assert forall i :: 0 <= i < |kept| ==> kept[i] in kept;
    }
  }

  /** `user_id` in the shaped payload carries the given id, and is there
      exactly when that id is not empty. */
  lemma ShapeUserId(userId: PhpValue, info: Entries)
    ensures var out := ShapeUser(userId, info);
      && (forall v :: (UserIdKey, v) in out ==> v == userId)
      && ((UserIdKey, userId) in out <==> !IsEmpty(userId))
  {
    var given := if !IsEmpty(Arr(info)) then info else [];
    var kept := IntersectKeys(given);
    IntersectKeysMembers(given);
    AssignUserId(kept, userId);
    FilterNonEmptyMembers(kept + [(UserIdKey, userId)]);
  }

  lemma {:induction false} FilterNonEmptyAppend(a: Entries, b: Entries)
    ensures FilterNonEmpty(a + b) == FilterNonEmpty(a) + FilterNonEmpty(b)
  {
    if a == [] {
      assert a + b == b;
    } else {
      assert (a + b)[0] == a[0] && (a + b)[1..] == a[1..] + b;
      FilterNonEmptyAppend(a[1..], b);
    }
  }

  /** Filtering an already filtered array changes nothing. */
  lemma {:induction false} FilterNonEmptyIdempotent(a: Entries)
    ensures FilterNonEmpty(FilterNonEmpty(a)) == FilterNonEmpty(a)
  {
    if a != [] {
      FilterNonEmptyIdempotent(a[1..]);
      if !IsEmpty(a[0].1) {
        assert ([a[0]] + FilterNonEmpty(a[1..]))[1..] == FilterNonEmpty(a[1..]);
      }
    }
  }

  lemma {:induction false} IntersectKeysAppend(a: Entries, b: Entries)
    ensures IntersectKeys(a + b) == IntersectKeys(a) + IntersectKeys(b)
  {
    if a == [] {
      assert a + b == b;
    } else {
      assert (a + b)[0] == a[0] && (a + b)[1..] == a[1..] + b;
      IntersectKeysAppend(a[1..], b);
    }
  }

  /** The filters on a one-entry array. */
  lemma FilterNonEmptyOne(e: (PhpKey, PhpValue))
    ensures FilterNonEmpty([e]) == if IsEmpty(e.1) then [] else [e]
  {
    var none: Entries := [];
    assert [e][1..] == none;
  }

  lemma IntersectKeysOne(e: (PhpKey, PhpValue))
    ensures IntersectKeys([e]) == if IsUserField(e.0) then [e] else []
  {
    var none: Entries := [];
    assert [e][1..] == none;
  }

  /** An array whose keys are all user fields passes the whitelist unchanged. */
  lemma {:induction false} IntersectKeysOfFields(a: Entries)
    requires forall e :: e in a ==> IsUserField(e.0)
    ensures IntersectKeys(a) == a
  {
    if a != [] {
      assert forall e :: e in a[1..] ==> e in a;
      IntersectKeysOfFields(a[1..]);
      assert IsUserField(a[0].0) by { assert a[0] in a; }
      assert a == [a[0]] + a[1..];
    }
  }

  /** Shaping an already shaped payload again, with the same id, changes
      nothing. */
  lemma ShapeUserFixedPoint(userId: PhpValue, info: Entries)
    ensures ShapeUser(userId, ShapeUser(userId, info)) == ShapeUser(userId, info)
  {
    var given := if !IsEmpty(Arr(info)) then info else [];
    var kept := IntersectKeys(given);
    var idEntry := [(UserIdKey, userId)];
    IntersectKeysMembers(given);
    AssignUserId(kept, userId);
    FilterNonEmptyAppend(kept, idEntry);
    var fields := FilterNonEmpty(kept);
    var tail := FilterNonEmpty(idEntry);
    var out := fields + tail;
    assert ShapeUser(userId, info) == out;
    // Feeding `out` back: the whitelist keeps exactly `fields`.
    IntersectKeysAppend(fields, tail);
    FilterNonEmptyMembers(kept);
    IntersectKeysOfFields(fields);
    FilterNonEmptyOne((UserIdKey, userId));
    IntersectKeysOne((UserIdKey, userId));
    assert IntersectKeys(tail) == [];
    assert IntersectKeys(if !IsEmpty(Arr(out)) then out else []) == fields;
    AssignUserId(fields, userId);
    FilterNonEmptyAppend(fields, idEntry);
    FilterNonEmptyIdempotent(kept);
  }

  /** A shaped user payload is a fixed point of `_build_user`: feeding it back
      as the user info, with the same id, gives the same payload. */
  lemma BuildUserFixedPoint(userId: PhpValue, userInfo: Option<Entries>)
    requires ValidateUserId(userId).Pass?
    ensures BuildUser(userId, Some(BuildUser(userId, userInfo).value)) == BuildUser(userId, userInfo)
  {
    ShapeUserFixedPoint(userId, Given(userInfo));
  }

  /** `_build_url`: the endpoint of each call code; any other code throws. */
  function BuildUrl(call: int): (r: Result<string>)
    ensures r.Ok? <==> CallTrack <= call <= CallDisableGcm
    ensures r.Err? ==> r.error == UnsupportedCallError(call)
  {
    if call == CallTrack then Ok(UrlRoot + "/track")
    else if call == CallIdentify then Ok(UrlRoot + "/identify")
    else if call == CallRegisterApns then Ok(UrlRoot + "/apns/register")
    else if call == CallRegisterGcm then Ok(UrlRoot + "/gcm/register")
    else if call == CallDisableApns then Ok(UrlRoot + "/apns/disable")
    else if call == CallDisableGcm then Ok(UrlRoot + "/gcm/disable")
    else Err(UnsupportedCallError(call))
  }

  /** Every endpoint lies under the API root. */
  lemma BuildUrlUnderRoot(call: int)
    requires BuildUrl(call).Ok?
    ensures var url := BuildUrl(call).value; |UrlRoot| < |url| && url[..|UrlRoot|] == UrlRoot
  {
  }

  /** Distinct call codes reach distinct endpoints. */
  lemma BuildUrlInjective(a: int, b: int)
    requires BuildUrl(a).Ok? && BuildUrl(b).Ok?
    ensures BuildUrl(a) == BuildUrl(b) ==> a == b
  {
    var n := |UrlRoot|;
    var ua, ub := BuildUrl(a).value, BuildUrl(b).value;
    BuildUrlUnderRoot(a);
    BuildUrlUnderRoot(b);
    if ua == ub {
      assert ua[n..] == ub[n..];
    }
  }

  /** The header lines sent with every request. */
  function Headers(apiKey: string): (h: seq<string>)
    ensures |h| == 3
  {
    [
      "Content-type: application/json",
      "X-Outbound-Key: " + apiKey,
      "X-Outbound-Client: PHP/" + Version
    ]
  }

  /** The key can be read back from the headers, and the client header names
      this library's version. */
  lemma HeadersCarryKey(apiKey: string)
    ensures Headers(apiKey)[0] == "Content-type: application/json"
    ensures Headers(apiKey)[1] == "X-Outbound-Key: " + apiKey
    ensures Headers(apiKey)[1][|"X-Outbound-Key: "|..] == apiKey
    ensures Headers(apiKey)[2] == "X-Outbound-Client: PHP/2.0.0"
    ensures forall other :: Headers(other) == Headers(apiKey) ==> other == apiKey
  {
    forall other | Headers(other) == Headers(apiKey) ensures other == apiKey {
      assert Headers(other)[1][|"X-Outbound-Key: "|..] == other;
    }
  }

  /** The tail of `_execute`: a cURL failure becomes a connection error; a body
      that trims to nothing is success; any other body becomes an API error
      with the decoded message and code. */
  function Translate(outcome: TransportOutcome): (s: Status)
    ensures s.Success? <==> outcome.Received? && AllTrimSpace(outcome.body)
    ensures outcome.TransportFailed? ==>
      s == Failure(ConnectionError(outcome.errno, outcome.reason))
    ensures outcome.Received? && !AllTrimSpace(outcome.body) && outcome.decoded.Some? ==>
      s == Failure(Error(Api, outcome.decoded.value.message, outcome.decoded.value.code))
    ensures outcome.Received? && !AllTrimSpace(outcome.body) && outcome.decoded.None? ==>
      s.Failure? && s.error.kind == Protocol
  {
    match outcome
    case TransportFailed(errno, reason) =>
      Failure(ConnectionError(errno, reason))
    case Received(body, decoded) =>
      TrimEmptyIff(body);
      var text := Trim(body);
      if text == "" then Success
      else
        match decoded
        case Some(err) => Failure(Error(Api, err.message, err.code))
        case None => Failure(Error(Protocol, text, 0))
  }

  /** `if ($properties)` on an optional array. */
  predicate HasProperties(properties: Option<Entries>) {
    properties.Some? && !IsEmpty(Arr(properties.value))
  }

  /** The checks `register_token` and `disable_token` make after the guard, in
      their order, and the payload both send. */
  function TokenData(platform: string, userId: PhpValue, token: PhpValue): (r: Result<Entries>)
    ensures ValidateUserId(userId).Fail? ==> r == Err(UserIdError(userId))
    ensures ValidateUserId(userId).Pass? && platform != Apns && platform != Gcm ==>
      r == Err(PlatformError(platform))
    ensures ValidateUserId(userId).Pass? && (platform == Apns || platform == Gcm) && !token.Str? ==>
      r == Err(TokenError(token))
    ensures r.Ok? <==> ValidateUserId(userId).Pass? && (platform == Apns || platform == Gcm) && token.Str?
  {
    var check := ValidateUserId(userId);
    if check.Fail? then Err(check.error)
    else if platform !in [Apns, Gcm] then Err(PlatformError(platform))
    else if !token.Str? then Err(TokenError(token))
    else Ok([(TokenKey, token), (UserIdKey, userId)])
  }

  /** The token payload holds the token, then the user id as given. */
  lemma TokenDataFields(platform: string, userId: PhpValue, token: PhpValue)
    requires TokenData(platform, userId, token).Ok?
    ensures var p := TokenData(platform, userId, token).value;
      && Keys(p) == [TokenKey, UserIdKey]
      && Lookup(p, TokenKey) == Some(token) && Lookup(p, UserIdKey) == Some(userId)
  {
  }

  /** `track` reads `user_id` back from the shaped user: the id itself, or
      null when the emptiness filter dropped it (ids `0`, `""`, `"0"`, and
      floats equal to zero). */
  lemma TrackUserId(userId: PhpValue)
    requires ValidateUserId(userId).Pass?
    ensures ReadIndex(BuildUser(userId, None).value, UserIdKey) == if IsEmpty(userId) then Null else userId
  {
    var user := BuildUser(userId, None).value;
    ShapeUserId(userId, []);
    if !IsEmpty(userId) {
      assert HasKey(user, UserIdKey) by {
        var i :| 0 <= i < |user| && user[i] == (UserIdKey, userId);
      }
    } else {
      assert !HasKey(user, UserIdKey) by {
        assert forall i :: 0 <= i < |user| ==> user[i] in user;
      }
    }
  }

  /** The array `track` sends, written out: event, user id, the properties
      when there are any, and the timestamp. */
  function EventPayload(event: PhpValue, id: PhpValue, properties: Option<Entries>, stamp: PhpValue): Entries {
    [(EventKey, event), (UserIdKey, id)]
      + (if HasProperties(properties) then [(PropertiesKey, Arr(properties.value))] else [])
      + [(TimestampKey, stamp)]
  }

  /** The keys of the event payload come in the order `track` assigns them,
      each once. */
  lemma EventPayloadKeys(event: PhpValue, id: PhpValue, properties: Option<Entries>, stamp: PhpValue)
    ensures var p := EventPayload(event, id, properties, stamp);
      && Keys(p) == [EventKey, UserIdKey] + (if HasProperties(properties) then [PropertiesKey] else []) + [TimestampKey]
      && DistinctKeys(p)
  {
    var p := EventPayload(event, id, properties, stamp);
    if HasProperties(properties) {
      assert p == [(EventKey, event), (UserIdKey, id), (PropertiesKey, Arr(properties.value)), (TimestampKey, stamp)];
    } else {
      assert p == [(EventKey, event), (UserIdKey, id), (TimestampKey, stamp)];
    }
  }

  /** Each field of the event payload reads back as written. */
  lemma EventPayloadFields(event: PhpValue, id: PhpValue, properties: Option<Entries>, stamp: PhpValue)
    ensures var p := EventPayload(event, id, properties, stamp);
      && Lookup(p, EventKey) == Some(event)
      && Lookup(p, UserIdKey) == Some(id)
      && Lookup(p, PropertiesKey) == (if HasProperties(properties) then Some(Arr(properties.value)) else None)
      && Lookup(p, TimestampKey) == Some(stamp)
  {
    var p := EventPayload(event, id, properties, stamp);
    EventPayloadKeys(event, id, properties, stamp);
    assert p[0] == (EventKey, event) && p[1] == (UserIdKey, id) && p[|p| - 1] == (TimestampKey, stamp);
    if HasProperties(properties) {
      assert p[2] == (PropertiesKey, Arr(properties.value));
    } else {
      assert Keys(p) == [EventKey, UserIdKey, TimestampKey];
      assert !HasKey(p, PropertiesKey);
    }
  }

  /** `track`'s assignments, starting from `event` and `user_id`, build the
      event payload. */
  lemma TrackAssigns(event: PhpValue, id: PhpValue, properties: Option<Entries>, stamp: PhpValue)
    ensures var base: Entries := [(EventKey, event), (UserIdKey, id)];
      var withProperties := if HasProperties(properties) then Assign(base, PropertiesKey, Arr(properties.value)) else base;
      Assign(withProperties, TimestampKey, stamp) == EventPayload(event, id, properties, stamp)
  {
    var base: Entries := [(EventKey, event), (UserIdKey, id)];
    assert !HasKey(base, PropertiesKey) && !HasKey(base, TimestampKey);
    if HasProperties(properties) {
      var withProperties := Assign(base, PropertiesKey, Arr(properties.value));
      assert !HasKey(withProperties, TimestampKey);
    }
  }

  /** The process-wide configuration of the `Outbound` class and its public
      operations. Each operation takes the transport outcome the HTTP exchange
      would produce; `track` takes the clock reading as `now`. */
  class Client {
    var apiKey: Option<string>
    var connectTimeout: Option<int>
    var timeout: Option<int>

    /** `init` writes all three fields and `reset` only clears the key, so a
        stored key always comes with stored timeouts. */
    ghost predicate Valid()
      reads this
    {
      apiKey.Some? ==> connectTimeout.Some? && timeout.Some?
    }

    /** The guard of every public operation passes. */
    predicate Initialized()
      reads this
    {
      EnsureInit(apiKey).Pass?
    }

    /** The static fields before any `init`: all null. */
    constructor ()
      ensures Valid() && !Initialized()
      ensures apiKey == None && connectTimeout == None && timeout == None
    {
      apiKey, connectTimeout, timeout := None, None, None;
    }

    /** `init($api_key, $connect_timeout=5, $timeout=30)`. */
    method Init(key: string, connect: int := 5, total: int := 30)
      modifies this
      ensures Valid()
      ensures apiKey == Some(key) && connectTimeout == Some(connect) && timeout == Some(total)
      ensures Initialized() <==> key != "" && key != "0"
    {
      apiKey := Some(key);
      connectTimeout := Some(connect);
      timeout := Some(total);
    }

    /** `reset()`: clears the key and leaves the timeouts. */
    method Reset()
      requires Valid()
      modifies this`apiKey
      ensures Valid() && !Initialized()
      ensures apiKey == None
    {
      apiKey := None;
    }

    /** The request `_execute` makes for a URL and payload under the stored
        configuration. */
    function RequestTo(url: string, payload: Entries): Request
      reads this
      requires Valid() && Initialized()
    {
      Request(url, Headers(apiKey.value), connectTimeout.value, timeout.value, payload)
    }

    /** `_execute`: route the call code, send the payload with the configured
        headers and timeouts, translate the outcome. */
    method Execute(call: int, data: Entries, outcome: TransportOutcome) returns (r: Response)
      requires Valid() && Initialized()
      ensures BuildUrl(call).Err? ==> r == NotSent(BuildUrl(call).error)
      ensures BuildUrl(call).Ok? ==> r == Sent(RequestTo(BuildUrl(call).value, data), Translate(outcome))
    {
      var url := BuildUrl(call);
      if url.Err? {
        return NotSent(url.error);
      }
      r := Sent(RequestTo(url.value, data), Translate(outcome));
    }

    /** `identify($user_id, $user_info=null)`. */
    method Identify(userId: PhpValue, userInfo: Option<Entries>, outcome: TransportOutcome) returns (r: Response)
      requires Valid()
      ensures !Initialized() ==> r == NotSent(InitError)
      ensures Initialized() && ValidateUserId(userId).Fail? ==> r == NotSent(UserIdError(userId))
      ensures r.Sent? <==> Initialized() && ValidateUserId(userId).Pass?
      ensures r.Sent? ==> r.request == RequestTo(UrlRoot + "/identify", BuildUser(userId, userInfo).value)
      ensures r.Sent? ==> r.status == Translate(outcome)
    {
      var guard := EnsureInit(apiKey);
      if guard.Fail? {
        return NotSent(guard.error);
      }
      var user := BuildUser(userId, userInfo);
      if user.Err? {
        return NotSent(user.error);
      }
      r := Execute(CallIdentify, user.value, outcome);
    }

    /** `track($user_id, $event, $properties=null, $timestamp=null)`, with the
        clock reading `time()` passed in as `now`. */
    method Track(userId: PhpValue, event: PhpValue, properties: Option<Entries>, timestamp: PhpValue, now: int,
                 outcome: TransportOutcome) returns (r: Response)
      requires Valid()
      ensures !Initialized() ==> r == NotSent(InitError)
      ensures Initialized() && ValidateUserId(userId).Fail? ==> r == NotSent(UserIdError(userId))
      ensures Initialized() && ValidateUserId(userId).Pass? && !event.Str? ==>
        r == NotSent(EventError(event))
      ensures r.Sent? <==> Initialized() && ValidateUserId(userId).Pass? && event.Str?
      ensures r.Sent? ==> r.request == RequestTo(UrlRoot + "/track",
        EventPayload(event, if IsEmpty(userId) then Null else userId, properties, if IsEmpty(timestamp) then Int(now) else timestamp))
      ensures r.Sent? ==> r.status == Translate(outcome)
    {
      var guard := EnsureInit(apiKey);
      if guard.Fail? {
        return NotSent(guard.error);
      }
      var user := BuildUser(userId, None);
      if user.Err? {
        return NotSent(user.error);
      }
      if !event.Str? {
        return NotSent(EventError(event));
      }
      // `$user['user_id']` is undefined, hence null, when the filter dropped it.
      var id := ReadIndex(user.value, UserIdKey);
      var data: Entries := [(EventKey, event), (UserIdKey, id)];
      TrackAssigns(event, id, properties, if IsEmpty(timestamp) then Int(now) else timestamp);
      if HasProperties(properties) {
        data := Assign(data, PropertiesKey, Arr(properties.value));
      }
      if IsEmpty(timestamp) {
        data := Assign(data, TimestampKey, Int(now));
      } else {
        data := Assign(data, TimestampKey, timestamp);
      }
      TrackUserId(userId);
      r := Execute(CallTrack, data, outcome);
    }

    /** `register_token($platform, $user_id, $token)`. */
    method RegisterToken(platform: string, userId: PhpValue, token: PhpValue, outcome: TransportOutcome)
      returns (r: Response)
      requires Valid()
      ensures !Initialized() ==> r == NotSent(InitError)
      ensures Initialized() && TokenData(platform, userId, token).Err? ==> r == NotSent(TokenData(platform, userId, token).error)
      ensures r.Sent? <==> Initialized() && TokenData(platform, userId, token).Ok?
      ensures r.Sent? ==> (r.request ==
        RequestTo(UrlRoot + (if platform == Apns then "/apns/register" else "/gcm/register"), TokenData(platform, userId, token).value))
      ensures r.Sent? ==> r.status == Translate(outcome)
    {
      var guard := EnsureInit(apiKey);
      if guard.Fail? {
        return NotSent(guard.error);
      }
      var data := TokenData(platform, userId, token);
      if data.Err? {
        return NotSent(data.error);
      }
      var call := if platform == Apns then CallRegisterApns else CallRegisterGcm;
      assert BuildUrl(call) == Ok(UrlRoot + (if platform == Apns then "/apns/register" else "/gcm/register"));
      r := Execute(call, data.value, outcome);
    }

    /** `disable_token($platform, $user_id, $token)`. */
    method DisableToken(platform: string, userId: PhpValue, token: PhpValue, outcome: TransportOutcome)
      returns (r: Response)
      requires Valid()
      ensures !Initialized() ==> r == NotSent(InitError)
      ensures Initialized() && TokenData(platform, userId, token).Err? ==> r == NotSent(TokenData(platform, userId, token).error)
      ensures r.Sent? <==> Initialized() && TokenData(platform, userId, token).Ok?
      ensures r.Sent? ==> (r.request ==
        RequestTo(UrlRoot + (if platform == Apns then "/apns/disable" else "/gcm/disable"), TokenData(platform, userId, token).value))
      ensures r.Sent? ==> r.status == Translate(outcome)
    {
      var guard := EnsureInit(apiKey);
      if guard.Fail? {
        return NotSent(guard.error);
      }
      var data := TokenData(platform, userId, token);
      if data.Err? {
        return NotSent(data.error);
      }
      var call := if platform == Apns then CallDisableApns else CallDisableGcm;
      assert BuildUrl(call) == Ok(UrlRoot + (if platform == Apns then "/apns/disable" else "/gcm/disable"));
      r := Execute(call, data.value, outcome);
    }
  }
}
