/** The `X-API-Key` dependency every data endpoint runs first: a missing key
    is refused, the demo key is let through without touching the table, and
    any other key must match an active row, whose usage it records. */
module Auth {
  import opened Common
  import opened ApiKeys
  import opened KeyLifecycle

  const API_KEY_NAME: string := "X-API-Key"
  /** The configured demo key (the settings default). */
  const DEMO_API_KEY: string := "nwsl-demo-key-2024"

  const KEY_REQUIRED: string := "API key required. Get one at /register"
  const KEY_INVALID: string := "Invalid API key"

  /** Who a request is served for: the fixed demo user, or the key row's info. */
  datatype Identity =
    | Demo(name: string, email: string)
    | Member(info: KeyInfo)

  const DEMO_USER: Identity := Demo("Demo User", "demo@nwsl-api.com")

  /** `verify_api_key` on the table `t`, given the header value (absent when
      the request has no `X-API-Key` header). */
  function Gate(t: Table, header: Option<string>, now: int): (r: (Table, Result<Identity, HttpError>))
    ensures !TextGiven(header) ==> r == (t, Err(Http(403, KEY_REQUIRED)))
    ensures header == Some(DEMO_API_KEY) ==> r == (t, Ok(DEMO_USER))
    ensures r.1.Ok? && r.1.value.Demo? ==> header == Some(DEMO_API_KEY)
    ensures TextGiven(header) && header.value != DEMO_API_KEY
            && !(exists i :: 0 <= i < |t.rows| && Matches(t.rows[i], header.value)) ==>
              r == (t, Err(Http(403, KEY_INVALID)))
    ensures r.1.Err? ==> r.0 == t && r.1.error.Http? && r.1.error.status == 403
    ensures (r.1.Ok? && r.1.value.Member?) <==>
              TextGiven(header) && header.value != DEMO_API_KEY
              && exists i :: 0 <= i < |t.rows| && Matches(t.rows[i], header.value)
    ensures r.1.Ok? && r.1.value.Member? ==>
              (r.0, Some(r.1.value.info)) == ValidateStep(t, header.value, now)
    ensures TableOk(t) ==> TableOk(r.0)
  {
    if !TextGiven(header) then (t, Err(Http(403, KEY_REQUIRED)))
    else if header.value == DEMO_API_KEY then (t, Ok(DEMO_USER))
    else
      var v := ValidateStep(t, header.value, now);
      if v.1.None? then
        ValidateMissChangesNothing(t, header.value, now);
        (t, Err(Http(403, KEY_INVALID)))
      else (v.0, Ok(Member(v.1.value)))
  }

  /** The demo key is not of the issued shape, so it never shadows an issued
      key: an issued key always goes to the table. */
  lemma IssuedKeyIsNotDemo(choices: seq<nat>)
    requires ValidChoices(choices)
    ensures GenerateApiKey(choices) != DEMO_API_KEY
    ensures TextGiven(Some(GenerateApiKey(choices)))
  {
    assert |DEMO_API_KEY| == 18;
  }

  /** Two requests with the same member key: the first is served for the
      row's owner, and the second reports a usage count one higher and the
      same identity otherwise. */
  lemma UsageCountsRequests(t: Table, k: nat, key: string, now1: int, now2: int) returns (info: KeyInfo)
    requires TableOk(t) && k < |t.rows| && Matches(t.rows[k], key)
    requires key != "" && key != DEMO_API_KEY
    ensures Gate(t, Some(key), now1).1 == Ok(Member(info))
    ensures Gate(Gate(t, Some(key), now1).0, Some(key), now2).1 == Ok(Member(info.(usageCount := info.usageCount + 1)))
  {
    ServedAt(t, k, key, now1);
    var row := Touch(t.rows[k], now1);
    var t1 := Table(t.rows[k := row], t.nextId);
    assert TableOk(t1) && t1.rows[k] == row;
    ServedAt(t1, k, key, now2);
    info := InfoOf(row);
    TouchCountsOnce(row, now2);
    assert Gate(t, Some(key), now1).0 == t1;
    assert Gate(t1, Some(key), now2).1 == Ok(Member(InfoOf(Touch(row, now2))));
    assert InfoOf(Touch(row, now2)) == info.(usageCount := info.usageCount + 1);
  }

  /** A request with the key of active row `k` is served for that row's owner,
      and the only change to the table is that row's usage. */
  lemma ServedAt(t: Table, k: nat, key: string, now: int)
    requires TableOk(t) && k < |t.rows| && Matches(t.rows[k], key)
    requires key != "" && key != DEMO_API_KEY
    ensures Gate(t, Some(key), now)
         == (Table(t.rows[k := Touch(t.rows[k], now)], t.nextId), Ok(Member(InfoOf(Touch(t.rows[k], now)))))
  {
    ValidateAt(t, key, now, k);
    GateAccepts(t, key, now);
  }

  /** A non-demo key that validates is served for its row's owner. */
  lemma GateAccepts(t: Table, key: string, now: int)
    requires key != "" && key != DEMO_API_KEY && ValidateStep(t, key, now).1.Some?
    ensures Gate(t, Some(key), now) == (ValidateStep(t, key, now).0, Ok(Member(ValidateStep(t, key, now).1.value)))
  {
  }

  /** One more use adds one to the reported usage count and nothing else. */
  lemma TouchCountsOnce(r: ApiKeyRecord, now: int)
    ensures InfoOf(Touch(r, now)) == InfoOf(r).(usageCount := r.usageCount + 1)
  {
  }

  /** `verify_api_key` against the store. */
  method VerifyApiKey(store: KeyStore, header: Option<string>, now: int) returns (r: Result<Identity, HttpError>)
    requires store.Valid()
    modifies store
    ensures store.Valid()
    ensures (store.State(), r) == Gate(old(store.State()), header, now)
  {
    if header.None? || header.value == "" {
      return Err(Http(403, KEY_REQUIRED));
    }
    if header.value == DEMO_API_KEY {
      return Ok(DEMO_USER);
    }
    ghost var before := store.State();
    var info := store.ValidateApiKey(header.value, now);
    if info.None? {
      ValidateMissChangesNothing(before, header.value, now);
      r := Err(Http(403, KEY_INVALID));
    } else {
      r := Ok(Member(info.value));
    }
  }
}
