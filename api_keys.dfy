/** The `api_keys` table and its lifecycle: key generation, creation,
    validation (which counts usage), listing by owner and revocation (a soft
    delete).  The table is a sequence of records.  The pure `...Step`
    functions say what each statement does to the table; `KeyStore` is the
    mutable store whose methods are proved to follow them. */
module ApiKeys {
  import opened Common

  // ---------------------------------------------------------------------
  // Key generation
  // ---------------------------------------------------------------------

  const KEY_PREFIX: string := "nwsl_live_"
  const RANDOM_LENGTH: nat := 48
  /** `len(string.ascii_letters + string.digits)` */
  const ALPHABET_SIZE: nat := 62

  predicate IsAlnum(c: char) {
    ('a' <= c <= 'z') || ('A' <= c <= 'Z') || ('0' <= c <= '9')
  }

  /** The i-th symbol of `string.ascii_letters + string.digits`:
      lower-case letters, then upper-case letters, then digits. */
  function AlphabetChar(i: nat): (c: char)
    requires i < ALPHABET_SIZE
    ensures IsAlnum(c)
  {
    if i < 26 then ('a' as int + i) as char
    else if i < 52 then ('A' as int + (i - 26)) as char
    else ('0' as int + (i - 52)) as char
  }

  /** The position of an alphanumeric character in that alphabet. */
  function AlphabetIndex(c: char): (i: nat)
    requires IsAlnum(c)
    ensures i < ALPHABET_SIZE && AlphabetChar(i) == c
  {
    if 'a' <= c <= 'z' then (c as int - 'a' as int)
    else if 'A' <= c <= 'Z' then 26 + (c as int - 'A' as int)
    else 52 + (c as int - '0' as int)
  }

  lemma AlphabetIndexOfChar(i: nat)
    requires i < ALPHABET_SIZE
    ensures AlphabetIndex(AlphabetChar(i)) == i
  {
  }

  /** The outcomes of the 48 calls to `secrets.choice`, as alphabet positions. */
  predicate ValidChoices(choices: seq<nat>) {
    |choices| == RANDOM_LENGTH && forall i :: 0 <= i < |choices| ==> choices[i] < ALPHABET_SIZE
  }

  /** `nwsl_live_` followed by 48 ASCII letters or digits. */
  predicate WellShaped(k: string) {
    && |k| == |KEY_PREFIX| + RANDOM_LENGTH
    && k[..|KEY_PREFIX|] == KEY_PREFIX
    && forall i :: |KEY_PREFIX| <= i < |k| ==> IsAlnum(k[i])
  }

  function GenerateApiKey(choices: seq<nat>): (k: string)
    requires ValidChoices(choices)
    ensures WellShaped(k)
    ensures forall i :: 0 <= i < RANDOM_LENGTH ==> k[|KEY_PREFIX| + i] == AlphabetChar(choices[i])
  {
    KEY_PREFIX + seq(|choices|, i requires 0 <= i < |choices| => AlphabetChar(choices[i]))
  }

  /** The alphabet positions of a run of alphanumeric characters. */
  function Indexes(s: string): (r: seq<nat>)
    requires forall i :: 0 <= i < |s| ==> IsAlnum(s[i])
    ensures |r| == |s|
    ensures forall i :: 0 <= i < |s| ==> r[i] < ALPHABET_SIZE && AlphabetChar(r[i]) == s[i]
  {
    if s == [] then [] else [AlphabetIndex(s[0])] + Indexes(s[1..])
  }

  /** The draws a well-shaped key was generated from. */
  function ChoicesOf(k: string): (choices: seq<nat>)
    requires WellShaped(k)
    ensures ValidChoices(choices)
    ensures forall i :: 0 <= i < RANDOM_LENGTH ==> AlphabetChar(choices[i]) == k[|KEY_PREFIX| + i]
  {
    Indexes(k[|KEY_PREFIX|..])
  }

  /** Every key of the documented shape can be generated, and from exactly
      one sequence of draws: the generator is a bijection onto the shape. */
  lemma GenerateIsBijective(k: string, choices: seq<nat>)
    requires WellShaped(k) && ValidChoices(choices)
    ensures GenerateApiKey(ChoicesOf(k)) == k
    ensures ChoicesOf(GenerateApiKey(choices)) == choices
  {
    var g := GenerateApiKey(ChoicesOf(k));
    assert g[..|KEY_PREFIX|] == KEY_PREFIX == k[..|KEY_PREFIX|];
    forall i | 0 <= i < |k| ensures g[i] == k[i] {
      if i < |KEY_PREFIX| {
        assert g[i] == KEY_PREFIX[i];
        assert k[i] == k[..|KEY_PREFIX|][i];
      }
    }
    var c := ChoicesOf(GenerateApiKey(choices));
    forall i | 0 <= i < RANDOM_LENGTH ensures c[i] == choices[i] {
      AlphabetIndexOfChar(choices[i]);
    }
  }

  // ---------------------------------------------------------------------
  // The table
  // ---------------------------------------------------------------------

  datatype ApiKeyRecord = ApiKeyRecord(
    id: nat, key: string, name: string, email: string, createdAt: int,
    lastUsed: Option<int>, usageCount: nat, isActive: bool, rateLimit: nat)

  datatype Table = Table(rows: seq<ApiKeyRecord>, nextId: nat)

  /** The table's constraints: ids below the id generator and unique, key
      values unique, and the (email, name) pair unique. */
  predicate TableOk(t: Table) {
    && (forall i :: 0 <= i < |t.rows| ==> t.rows[i].id < t.nextId)
    && (forall i, j :: 0 <= i < j < |t.rows| ==>
          && t.rows[i].id != t.rows[j].id
          && t.rows[i].key != t.rows[j].key
          && (t.rows[i].email != t.rows[j].email || t.rows[i].name != t.rows[j].name))
  }

  /** A driver exception; `str(e)` is its message. */
  datatype DbError = DbError(message: string)

  const UNIQUE_EMAIL_NAME: string := "unique_email_name"
  /** The default constraint name of a UNIQUE `key` column of `api_keys`. */
  const UNIQUE_KEY: string := "api_keys_key_key"

  function UniqueViolation(constraint: string): DbError {
    DbError("duplicate key value violates unique constraint \"" + constraint + "\"")
  }

  /** `RETURNING id, key, name, email, created_at` */
  datatype Created = Created(id: nat, key: string, name: string, email: string, createdAt: int)

  predicate PairTaken(rows: seq<ApiKeyRecord>, email: string, name: string) {
    exists i :: 0 <= i < |rows| && rows[i].email == email && rows[i].name == name
  }

  predicate KeyTaken(rows: seq<ApiKeyRecord>, key: string) {
    exists i :: 0 <= i < |rows| && rows[i].key == key
  }

  /** The INSERT: `is_active` TRUE, `usage_count` 0, `last_used` NULL and the
      table's default rate limit. */
  function NewRecord(id: nat, key: string, name: string, email: string, now: int, rateLimit: nat): ApiKeyRecord {
    ApiKeyRecord(id, key, name, email, now, None, 0, true, rateLimit)
  }

  function CreateStep(t: Table, name: string, email: string, key: string, now: int, rateLimit: nat): (r: (Table, Result<Created, DbError>))
    ensures r.1.Ok? <==> !PairTaken(t.rows, email, name) && !KeyTaken(t.rows, key)
    ensures r.1.Ok? ==> r.1.value == Created(t.nextId, key, name, email, now)
    ensures r.1.Ok? ==> r.0 == Table(t.rows + [NewRecord(t.nextId, key, name, email, now, rateLimit)], t.nextId + 1)
    ensures r.1.Err? ==> r.0 == t
    ensures PairTaken(t.rows, email, name) ==> r.1 == Err(UniqueViolation(UNIQUE_EMAIL_NAME))
    ensures TableOk(t) ==> TableOk(r.0)
  {
    if PairTaken(t.rows, email, name) then (t, Err(UniqueViolation(UNIQUE_EMAIL_NAME)))
    else if KeyTaken(t.rows, key) then (t, Err(UniqueViolation(UNIQUE_KEY)))
    else (Table(t.rows + [NewRecord(t.nextId, key, name, email, now, rateLimit)], t.nextId + 1),
          Ok(Created(t.nextId, key, name, email, now)))
  }

  /** `WHERE key = $1 AND is_active = TRUE` */
  predicate Matches(r: ApiKeyRecord, key: string) {
    r.key == key && r.isActive
  }

  /** `SET last_used = $2, usage_count = usage_count + 1` */
  function Touch(r: ApiKeyRecord, now: int): (t: ApiKeyRecord)
    ensures t.usageCount == r.usageCount + 1 && t.lastUsed == Some(now)
    ensures t.(usageCount := r.usageCount, lastUsed := r.lastUsed) == r
  {
    r.(lastUsed := Some(now), usageCount := r.usageCount + 1)
  }

  /** `RETURNING id, name, email, rate_limit, usage_count` */
  datatype KeyInfo = KeyInfo(id: nat, name: string, email: string, rateLimit: nat, usageCount: nat)

  function InfoOf(r: ApiKeyRecord): KeyInfo {
    KeyInfo(r.id, r.name, r.email, r.rateLimit, r.usageCount)
  }

  /** The first row satisfying a WHERE condition: the row an
      UPDATE ... RETURNING hands to `fetchrow`. */
  function IndexWhere(rows: seq<ApiKeyRecord>, cond: ApiKeyRecord -> bool): (r: Option<nat>)
    ensures r.Some? ==> r.value < |rows| && cond(rows[r.value])
    ensures r.Some? ==> forall j :: 0 <= j < r.value ==> !cond(rows[j])
    ensures r.None? <==> forall j :: 0 <= j < |rows| ==> !cond(rows[j])
    decreases |rows|
  {
    if rows == [] then None
    else if cond(rows[0]) then Some(0)
    else
      var rest := IndexWhere(rows[1..], cond);
      if rest.Some? then Some(rest.value + 1) else None
  }

  function FirstMatch(rows: seq<ApiKeyRecord>, key: string): (r: Option<nat>)
    ensures r.Some? ==> r.value < |rows| && Matches(rows[r.value], key)
    ensures r.None? <==> forall j :: 0 <= j < |rows| ==> !Matches(rows[j], key)
  {
    IndexWhere(rows, r => Matches(r, key))
  }

  function ValidateStep(t: Table, key: string, now: int): (r: (Table, Option<KeyInfo>))
    ensures key == "" ==> r == (t, None)
    ensures r.1.Some? <==> key != "" && exists i :: 0 <= i < |t.rows| && Matches(t.rows[i], key)
    ensures r.0.nextId == t.nextId && |r.0.rows| == |t.rows|
    ensures forall i :: 0 <= i < |t.rows| ==>
              r.0.rows[i] == if key != "" && Matches(t.rows[i], key) then Touch(t.rows[i], now) else t.rows[i]
    ensures r.1.Some? ==> exists i :: 0 <= i < |t.rows| && Matches(t.rows[i], key) && r.1.value == InfoOf(Touch(t.rows[i], now))
    ensures TableOk(t) ==> TableOk(r.0)
  {
    if key == "" then (t, None)
    else
      var rows' := TouchMatching(t.rows, key, now);
      var first := FirstMatch(t.rows, key);
      (Table(rows', t.nextId), if first.Some? then Some(InfoOf(rows'[first.value])) else None)
  }

  /** The rows after the UPDATE of `validate_api_key`: every active row with
      this key touched, identity columns untouched. */
  function TouchMatching(rows: seq<ApiKeyRecord>, key: string, now: int): (r: seq<ApiKeyRecord>)
    ensures |r| == |rows|
    ensures forall i :: 0 <= i < |rows| ==>
              r[i] == if Matches(rows[i], key) then Touch(rows[i], now) else rows[i]
    ensures forall i :: 0 <= i < |rows| ==>
              r[i].id == rows[i].id && r[i].key == rows[i].key && r[i].email == rows[i].email && r[i].name == rows[i].name
  {
    seq(|rows|, i requires 0 <= i < |rows| =>
          if Matches(rows[i], key) then Touch(rows[i], now) else rows[i])
  }

  /** `SET is_active = FALSE WHERE id = $1 AND email = $2 RETURNING id` */
  predicate Owns(r: ApiKeyRecord, id: nat, email: string) {
    r.id == id && r.email == email
  }

  function RevokeStep(t: Table, id: nat, email: string): (r: (Table, bool))
    ensures r.1 <==> exists i :: 0 <= i < |t.rows| && Owns(t.rows[i], id, email)
    ensures r.0.nextId == t.nextId && |r.0.rows| == |t.rows|
    ensures forall i :: 0 <= i < |t.rows| ==>
              r.0.rows[i] == if Owns(t.rows[i], id, email) then t.rows[i].(isActive := false) else t.rows[i]
    ensures TableOk(t) ==> TableOk(r.0)
  {
    var rows' := seq(|t.rows|, i requires 0 <= i < |t.rows| =>
                       if Owns(t.rows[i], id, email) then t.rows[i].(isActive := false) else t.rows[i]);
    (Table(rows', t.nextId), exists i :: 0 <= i < |t.rows| && Owns(t.rows[i], id, email))
  }

  // ---------------------------------------------------------------------
  // Listing
  // ---------------------------------------------------------------------

  /** `SELECT id, key, name, created_at, last_used, usage_count, is_active` */
  datatype KeyListing = KeyListing(
    id: nat, key: string, name: string, createdAt: int,
    lastUsed: Option<int>, usageCount: nat, isActive: bool)

  function ListingOf(r: ApiKeyRecord): KeyListing {
    KeyListing(r.id, r.key, r.name, r.createdAt, r.lastUsed, r.usageCount, r.isActive)
  }

  /** `WHERE email = $1`, in table order. */
  function OwnedBy(rows: seq<ApiKeyRecord>, email: string): (r: seq<KeyListing>)
    ensures |r| <= |rows|
    ensures |r| == |rows| ==> forall i :: 0 <= i < |rows| ==> rows[i].email == email
    decreases |rows|
  {
    if rows == [] then []
    else (if rows[0].email == email then [ListingOf(rows[0])] else []) + OwnedBy(rows[1..], email)
  }

  /** A listing belongs to the result exactly when some row of that email lists as it. */
  lemma {:induction false} OwnedByExactly(rows: seq<ApiKeyRecord>, email: string, k: KeyListing)
    ensures k in OwnedBy(rows, email) <==> exists i :: 0 <= i < |rows| && rows[i].email == email && ListingOf(rows[i]) == k
    decreases |rows|
  {
    if rows != [] {
      OwnedByExactly(rows[1..], email, k);
      if k in OwnedBy(rows[1..], email) {
        var i :| 0 <= i < |rows[1..]| && rows[1..][i].email == email && ListingOf(rows[1..][i]) == k;
        assert rows[i + 1] == rows[1..][i];
      }
      if exists i :: 0 <= i < |rows| && rows[i].email == email && ListingOf(rows[i]) == k {
        var i :| 0 <= i < |rows| && rows[i].email == email && ListingOf(rows[i]) == k;
        if i > 0 {
          assert rows[1..][i - 1] == rows[i];
        }
      }
    }
  }

  /** `ORDER BY created_at DESC` */
  predicate NewestFirst(ks: seq<KeyListing>) {
    forall i, j :: 0 <= i < j < |ks| ==> ks[i].createdAt >= ks[j].createdAt
  }

  function InsertByDate(k: KeyListing, ks: seq<KeyListing>): (r: seq<KeyListing>)
    requires NewestFirst(ks)
    ensures NewestFirst(r)
    ensures multiset(r) == multiset(ks) + multiset{k}
    ensures forall x :: x in r ==> x == k || x in ks
    decreases |ks|
  {
    if ks == [] || k.createdAt >= ks[0].createdAt then [k] + ks
    else
      var rest := InsertByDate(k, ks[1..]);
      assert ks == [ks[0]] + ks[1..];
      HeadBoundsRest(k, ks, rest);
      [ks[0]] + rest
  }

  /** The head of a newest-first list is at least as recent as any key
      that comes from its tail or is older than it. */
  lemma HeadBoundsRest(k: KeyListing, ks: seq<KeyListing>, rest: seq<KeyListing>)
    requires NewestFirst(ks) && ks != [] && k.createdAt < ks[0].createdAt
    requires forall x :: x in rest ==> x == k || x in ks[1..]
    ensures forall i :: 0 <= i < |rest| ==> rest[i].createdAt <= ks[0].createdAt
  {
    forall i | 0 <= i < |rest|
      ensures rest[i].createdAt <= ks[0].createdAt
    {
      var x := rest[i];
      assert x in rest;
      if x != k {
        var m :| 0 <= m < |ks[1..]| && ks[1..][m] == x;
        assert ks[m + 1] == x;
      }
    }
  }

  function SortNewestFirst(ks: seq<KeyListing>): (r: seq<KeyListing>)
    ensures NewestFirst(r) && multiset(r) == multiset(ks)
    decreases |ks|
  {
    if ks == [] then []
    else
      assert ks == [ks[0]] + ks[1..];
      InsertByDate(ks[0], SortNewestFirst(ks[1..]))
  }

  // ---------------------------------------------------------------------
  // The mutable store
  // ---------------------------------------------------------------------

  class KeyStore {
    var rows: seq<ApiKeyRecord>
    var nextId: nat
    /** The `rate_limit` column default. */
    const defaultRateLimit: nat

    function State(): Table
      reads this
    {
      Table(rows, nextId)
    }

    ghost predicate Valid()
      reads this
    {
      TableOk(State())
    }

    constructor (defaultRateLimit: nat)
      ensures Valid() && rows == [] && this.defaultRateLimit == defaultRateLimit
    {
      rows := [];
      nextId := 1;
      this.defaultRateLimit := defaultRateLimit;
    }

    /** `create_api_key`: generate a key and INSERT it. */
    method CreateApiKey(name: string, email: string, choices: seq<nat>, now: int) returns (r: Result<Created, DbError>)
      requires Valid() && ValidChoices(choices)
      modifies this
      ensures Valid()
      ensures (State(), r) == CreateStep(old(State()), name, email, GenerateApiKey(choices), now, defaultRateLimit)
      ensures r.Ok? ==> r.value.key == GenerateApiKey(choices) && r.value.name == name && r.value.email == email
      ensures r.Ok? ==> rows == old(rows) + [NewRecord(r.value.id, r.value.key, name, email, now, defaultRateLimit)]
    {
      var key := GenerateApiKey(choices);
      if PairTaken(rows, email, name) {
        r := Err(UniqueViolation(UNIQUE_EMAIL_NAME));
      } else if KeyTaken(rows, key) {
        r := Err(UniqueViolation(UNIQUE_KEY));
      } else {
        rows := rows + [NewRecord(nextId, key, name, email, now, defaultRateLimit)];
        r := Ok(Created(nextId, key, name, email, now));
        nextId := nextId + 1;
      }
    }

    /** `validate_api_key`: touch the one active row holding `key`. */
    method ValidateApiKey(key: string, now: int) returns (info: Option<KeyInfo>)
      requires Valid()
      modifies this
      ensures Valid()
      ensures (State(), info) == ValidateStep(old(State()), key, now)
    {
      if key == "" {
        return None;
      }
      ghost var spec := ValidateStep(State(), key, now);
      var i := FirstMatch(rows, key);
      if i.Some? {
        ghost var before := rows;
        rows := rows[i.value := Touch(rows[i.value], now)];
        info := Some(InfoOf(rows[i.value]));
        forall j | 0 <= j < |rows| ensures rows[j] == spec.0.rows[j] {
          if j != i.value {
            assert before[j].key != before[i.value].key;
          }
        }
        assert rows == spec.0.rows;
      } else {
        info := None;
        assert rows == spec.0.rows;
      }
    }

    /** `get_user_keys` */
    method UserKeys(email: string) returns (ks: seq<KeyListing>)
      ensures multiset(ks) == multiset(OwnedBy(rows, email))
      ensures NewestFirst(ks)
    {
      ks := SortNewestFirst(OwnedBy(rows, email));
    }

    /** `revoke_api_key`: soft delete of the row with this id and email. */
    method RevokeApiKey(id: nat, email: string) returns (ok: bool)
      requires Valid()
      modifies this
      ensures Valid()
      ensures (State(), ok) == RevokeStep(old(State()), id, email)
    {
      ghost var spec := RevokeStep(State(), id, email);
      var i := IndexWhere(rows, r => Owns(r, id, email));
      if i.Some? {
        ghost var before := rows;
        rows := rows[i.value := rows[i.value].(isActive := false)];
        ok := true;
        forall j | 0 <= j < |rows| ensures rows[j] == spec.0.rows[j] {
          if j != i.value {
            assert before[j].id != before[i.value].id;
          }
        }
        assert rows == spec.0.rows;
      } else {
        ok := false;
        assert rows == spec.0.rows;
      }
    }
  }
}
