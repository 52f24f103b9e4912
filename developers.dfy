/** The developer endpoints: `POST /register` issues a key, `GET
    /keys/{email}` lists an email's keys, `DELETE /keys/{key_id}` revokes one. */
module Developers {
  import opened Common
  import opened ApiKeys
  import opened KeyLifecycle
  import opened Auth

  const CREATED_MESSAGE: string := "API key created successfully"
  const DUPLICATE_DETAIL: string :=
    "You already have an API key with this name. Use a different name or retrieve your existing key."
  const NO_KEYS_DETAIL: string := "No API keys found for this email"
  const NOT_REVOKED_DETAIL: string := "API key not found or you don't have permission to revoke it"
  const REVOKED_MESSAGE: string := "API key has been revoked"

  /** `sub` occurs in `s` starting at index `i`. */
  predicate OccursAt(s: string, sub: string, i: int) {
    0 <= i && i + |sub| <= |s| && s[i..i + |sub|] == sub
  }

  /** Python's `sub in s` on strings. */
  predicate Contains(s: string, sub: string) {
    exists i :: 0 <= i <= |s| - |sub| && OccursAt(s, sub, i)
  }

  datatype Instructions = Instructions(header: string, example: string)
  datatype Registered = Registered(success: bool, message: string, apiKey: string, instructions: Instructions)

  function CurlExample(key: string): string {
    "curl -H 'X-API-Key: " + key + "' https://api.nwsl.com/api/v1/teams/"
  }

  /** The body of `register_for_api_key`, given what `create_api_key` did:
      success yields the key and how to send it; an error naming the
      `unique_email_name` constraint is a 400, any other a 500 carrying the
      error text. */
  function RegisterResponse(c: Result<Created, DbError>): (r: Result<Registered, HttpError>)
    ensures r.Ok? <==> c.Ok?
    ensures r.Ok? ==> r.value.success && r.value.apiKey == c.value.key
                      && r.value.instructions.header == API_KEY_NAME
    ensures r.Err? ==> r.error.Http? && (r.error.status == 400 <==> Contains(c.error.message, UNIQUE_EMAIL_NAME))
    ensures r.Err? && r.error.status == 500 ==> r.error.detail == c.error.message
    ensures r.Err? ==> r.error == (if Contains(c.error.message, UNIQUE_EMAIL_NAME)
                                   then Http(400, DUPLICATE_DETAIL) else Http(500, c.error.message))
  {
    match c
    case Ok(created) =>
      Ok(Registered(true, CREATED_MESSAGE, created.key, Instructions(API_KEY_NAME, CurlExample(created.key))))
    case Err(e) =>
      if Contains(e.message, UNIQUE_EMAIL_NAME) then Err(Http(400, DUPLICATE_DETAIL))
      else Err(Http(500, e.message))
  }

  /** The driver's text for a duplicate (email, name) names the constraint
      the handler looks for. */
  lemma PairViolationNamesConstraint()
    ensures Contains(UniqueViolation(UNIQUE_EMAIL_NAME).message, UNIQUE_EMAIL_NAME)
  {
    var lead := "duplicate key value violates unique constraint \"";
    var m := UniqueViolation(UNIQUE_EMAIL_NAME).message;
    assert m == lead + UNIQUE_EMAIL_NAME + "\"";
    assert m[|lead|..|lead| + |UNIQUE_EMAIL_NAME|] == UNIQUE_EMAIL_NAME;
    assert OccursAt(m, UNIQUE_EMAIL_NAME, |lead|);
  }

  /** Registering a name the email already uses is a 400 with the
      "already have an API key" detail, and stores nothing. */
  lemma DuplicateRegistrationIs400(t: Table, name: string, email: string, choices: seq<nat>, now: int, rateLimit: nat)
    requires ValidChoices(choices) && PairTaken(t.rows, email, name)
    ensures var c := CreateStep(t, name, email, GenerateApiKey(choices), now, rateLimit);
            c.0 == t && RegisterResponse(c.1) == Err(Http(400, DUPLICATE_DETAIL))
  {
    PairViolationNamesConstraint();
  }

  /** A fresh (email, name) pair with an unused key gets its key back. */
  lemma FreshRegistrationSucceeds(t: Table, name: string, email: string, choices: seq<nat>, now: int, rateLimit: nat)
    requires ValidChoices(choices) && !PairTaken(t.rows, email, name) && !KeyTaken(t.rows, GenerateApiKey(choices))
    ensures var c := CreateStep(t, name, email, GenerateApiKey(choices), now, rateLimit);
            RegisterResponse(c.1).Ok? && RegisterResponse(c.1).value.apiKey == GenerateApiKey(choices)
            && WellShaped(RegisterResponse(c.1).value.apiKey)
  {
  }

  datatype MyKeys = MyKeys(email: string, keys: seq<KeyListing>, total: nat)

  /** `get_my_keys`: an email without keys is a 404; otherwise the keys and
      their count. */
  function MyKeysResponse(email: string, keys: seq<KeyListing>): (r: Result<MyKeys, HttpError>)
    ensures r.Err? <==> keys == []
    ensures r.Err? ==> r.error == Http(404, NO_KEYS_DETAIL)
    ensures r.Ok? ==> r.value.email == email && r.value.keys == keys && r.value.total == |r.value.keys|
  {
    if keys == [] then Err(Http(404, NO_KEYS_DETAIL)) else Ok(MyKeys(email, keys, |keys|))
  }

  datatype Revoked = Revoked(success: bool, message: string)

  /** `delete_api_key`: a revocation that matched no row is a 404. */
  function DeleteResponse(ok: bool): (r: Result<Revoked, HttpError>)
    ensures r.Ok? <==> ok
    ensures r.Ok? ==> r.value.success
    ensures r.Err? ==> r.error == Http(404, NOT_REVOKED_DETAIL)
  {
    if ok then Ok(Revoked(true, REVOKED_MESSAGE)) else Err(Http(404, NOT_REVOKED_DETAIL))
  }

  /** Revoking someone else's key id is a 404 and changes nothing. */
  lemma DeleteOthersKeyIs404(t: Table, id: nat, email: string)
    requires TableOk(t)
    requires forall i :: 0 <= i < |t.rows| && t.rows[i].id == id ==> t.rows[i].email != email
    ensures RevokeStep(t, id, email).0 == t
    ensures DeleteResponse(RevokeStep(t, id, email).1) == Err(Http(404, NOT_REVOKED_DETAIL))
  {
    RevokeByOtherEmail(t, id, email);
  }

  /** Revocation is a soft delete: the owner's listing keeps every key, in
      the same order, with only `is_active` possibly cleared. */
  lemma {:induction false} RevokeKeepsListing(rows: seq<ApiKeyRecord>, rows': seq<ApiKeyRecord>, id: nat, email: string, owner: string)
    requires |rows'| == |rows|
    requires forall i :: 0 <= i < |rows| ==>
               rows'[i] == if Owns(rows[i], id, email) then rows[i].(isActive := false) else rows[i]
    ensures |OwnedBy(rows', owner)| == |OwnedBy(rows, owner)|
    ensures forall k :: 0 <= k < |OwnedBy(rows, owner)| ==>
              OwnedBy(rows', owner)[k] == OwnedBy(rows, owner)[k].(isActive := OwnedBy(rows', owner)[k].isActive)
    decreases |rows|
  {
    if rows != [] {
      RevokeKeepsListing(rows[1..], rows'[1..], id, email, owner);
    }
  }

  /** `register_for_api_key` against the store. */
  method Register(store: KeyStore, name: string, email: string, choices: seq<nat>, now: int)
    returns (r: Result<Registered, HttpError>)
    requires store.Valid() && ValidChoices(choices)
    modifies store
    ensures store.Valid()
    ensures var c := CreateStep(old(store.State()), name, email, GenerateApiKey(choices), now, store.defaultRateLimit);
            store.State() == c.0 && r == RegisterResponse(c.1)
  {
    var c := store.CreateApiKey(name, email, choices, now);
    match c {
      case Ok(created) =>
        r := Ok(Registered(true, CREATED_MESSAGE, created.key, Instructions(API_KEY_NAME, CurlExample(created.key))));
      case Err(e) =>
        if Contains(e.message, UNIQUE_EMAIL_NAME) {
          r := Err(Http(400, DUPLICATE_DETAIL));
        } else {
          r := Err(Http(500, e.message));
        }
    }
  }

  /** `get_my_keys` against the store: every key of the email, newest first. */
  method GetMyKeys(store: KeyStore, email: string) returns (r: Result<MyKeys, HttpError>)
    ensures r.Err? <==> OwnedBy(store.rows, email) == []
    ensures r.Err? ==> r.error == Http(404, NO_KEYS_DETAIL)
    ensures r.Ok? ==> r.value.email == email
                      && multiset(r.value.keys) == multiset(OwnedBy(store.rows, email))
                      && NewestFirst(r.value.keys) && r.value.total == |OwnedBy(store.rows, email)|
  {
    var keys := store.UserKeys(email);
    if keys == [] {
      assert |multiset(OwnedBy(store.rows, email))| == 0;
      r := Err(Http(404, NO_KEYS_DETAIL));
    } else {
      assert |multiset(OwnedBy(store.rows, email))| == |keys|;
      r := Ok(MyKeys(email, keys, |keys|));
    }
  }

  /** `delete_api_key` against the store. */
  method DeleteApiKey(store: KeyStore, id: nat, email: string) returns (r: Result<Revoked, HttpError>)
    requires store.Valid()
    modifies store
    ensures store.Valid()
    ensures var s := RevokeStep(old(store.State()), id, email);
            store.State() == s.0 && r == DeleteResponse(s.1)
  {
    var ok := store.RevokeApiKey(id, email);
    if !ok {
      r := Err(Http(404, NOT_REVOKED_DETAIL));
    } else {
      r := Ok(Revoked(true, REVOKED_MESSAGE));
    }
  }
}
