/** Properties of the key table over any sequence of create, validate and
    revoke statements: rows are never removed, `usage_count` never
    decreases, a revoked key never validates again, and an (email, name)
    pair once registered is refused forever. */
module KeyLifecycle {
  import opened Common
  import opened ApiKeys

  datatype KeyOp =
    | CreateOp(name: string, email: string, choices: seq<nat>, now: int)
    | ValidateOp(key: string, now: int)
    | RevokeOp(id: nat, email: string)

  predicate OpOk(op: KeyOp) {
    op.CreateOp? ==> ValidChoices(op.choices)
  }

  predicate OpsOk(ops: seq<KeyOp>) {
    forall i :: 0 <= i < |ops| ==> OpOk(ops[i])
  }

  function Step(t: Table, op: KeyOp, rateLimit: nat): Table
    requires OpOk(op)
  {
    match op
    case CreateOp(name, email, choices, now) => CreateStep(t, name, email, GenerateApiKey(choices), now, rateLimit).0
    case ValidateOp(key, now) => ValidateStep(t, key, now).0
    case RevokeOp(id, email) => RevokeStep(t, id, email).0
  }

  function Run(t: Table, ops: seq<KeyOp>, rateLimit: nat): Table
    requires OpsOk(ops)
    decreases |ops|
  {
    if ops == [] then t else Run(Step(t, ops[0], rateLimit), ops[1..], rateLimit)
  }

  /** Row `y` is a later version of row `x`: same identity and owner, a usage
      count no smaller, and still inactive if `x` was. */
  predicate Successor(x: ApiKeyRecord, y: ApiKeyRecord) {
    && y.id == x.id && y.key == x.key && y.name == x.name && y.email == x.email
    && y.createdAt == x.createdAt && y.rateLimit == x.rateLimit
    && y.usageCount >= x.usageCount
    && (!x.isActive ==> !y.isActive)
  }

  predicate Evolves(a: Table, b: Table) {
    && |a.rows| <= |b.rows|
    && a.nextId <= b.nextId
    && forall i :: 0 <= i < |a.rows| ==> Successor(a.rows[i], b.rows[i])
  }

  lemma StepEvolves(t: Table, op: KeyOp, rateLimit: nat)
    requires TableOk(t) && OpOk(op)
    ensures TableOk(Step(t, op, rateLimit)) && Evolves(t, Step(t, op, rateLimit))
  {
  }

  /** No statement sequence removes a row, lowers a usage count or
      reactivates a revoked key. */
  lemma {:induction false} RunEvolves(t: Table, ops: seq<KeyOp>, rateLimit: nat)
    requires TableOk(t) && OpsOk(ops)
    ensures TableOk(Run(t, ops, rateLimit)) && Evolves(t, Run(t, ops, rateLimit))
    decreases |ops|
  {
    if ops != [] {
      var t1 := Step(t, ops[0], rateLimit);
      StepEvolves(t, ops[0], rateLimit);
      assert OpsOk(ops[1..]) by {
        forall i | 0 <= i < |ops[1..]| ensures OpOk(ops[1..][i]) {
          assert ops[1..][i] == ops[i + 1];
        }
      }
      RunEvolves(t1, ops[1..], rateLimit);
    }
  }

  /** A validation that matches no active row changes nothing. */
  lemma ValidateMissChangesNothing(t: Table, key: string, now: int)
    requires ValidateStep(t, key, now).1.None?
    ensures ValidateStep(t, key, now).0 == t
  {
    var t1 := ValidateStep(t, key, now).0;
    assert t1.rows == t.rows;
  }

  /** A successful validation changes exactly one row: it adds one to that
      row's usage count and stamps `last_used`, and returns that row's info. */
  lemma ValidateChangesOneRow(t: Table, key: string, now: int) returns (i: nat)
    requires TableOk(t) && ValidateStep(t, key, now).1.Some?
    ensures i < |t.rows| && Matches(t.rows[i], key)
    ensures ValidateStep(t, key, now).0.rows == t.rows[i := Touch(t.rows[i], now)]
    ensures ValidateStep(t, key, now).0.rows[i].usageCount == t.rows[i].usageCount + 1
    ensures ValidateStep(t, key, now).1 == Some(InfoOf(Touch(t.rows[i], now)))
  {
    var first := FirstMatch(t.rows, key);
    i := first.value;
    OnlyMatch(t, key, i);
    TouchOne(t.rows, key, now, i);
  }

  /** Validating the key of active row `i` touches that row and answers its info. */
  lemma ValidateAt(t: Table, key: string, now: int, i: nat)
    requires TableOk(t) && i < |t.rows| && Matches(t.rows[i], key) && key != ""
    ensures ValidateStep(t, key, now).0 == Table(t.rows[i := Touch(t.rows[i], now)], t.nextId)
    ensures ValidateStep(t, key, now).1 == Some(InfoOf(Touch(t.rows[i], now)))
  {
    OnlyMatch(t, key, i);
    TouchOne(t.rows, key, now, i);
    var first := FirstMatch(t.rows, key);
    assert first == Some(i);
  }

  /** Two validations of the key of active row `i`: each answers that row's
      info, the second with one more use. */
  lemma ValidateTwice(t: Table, key: string, now1: int, now2: int, i: nat)
    requires TableOk(t) && i < |t.rows| && Matches(t.rows[i], key) && key != ""
    ensures ValidateStep(t, key, now1).1 == Some(InfoOf(Touch(t.rows[i], now1)))
    ensures ValidateStep(ValidateStep(t, key, now1).0, key, now2).1 == Some(InfoOf(Touch(Touch(t.rows[i], now1), now2)))
  {
    ValidateAt(t, key, now1, i);
    var t1 := ValidateStep(t, key, now1).0;
    assert t1.rows[i] == Touch(t.rows[i], now1);
    ValidateAt(t1, key, now2, i);
  }

  /** In a consistent table at most one row carries a given key. */
  lemma OnlyMatch(t: Table, key: string, i: nat)
    requires TableOk(t) && i < |t.rows| && Matches(t.rows[i], key)
    ensures forall j :: 0 <= j < |t.rows| && j != i ==> !Matches(t.rows[j], key)
  {
    forall j | 0 <= j < |t.rows| && j != i ensures !Matches(t.rows[j], key) {
      KeysDistinct(t, i, j);
    }
  }

  /** Two rows of a consistent table never share a key. */
  lemma KeysDistinct(t: Table, i: nat, j: nat)
    requires TableOk(t) && i < |t.rows| && j < |t.rows| && i != j
    ensures t.rows[i].key != t.rows[j].key
  {
    if j < i {
      assert t.rows[j].key != t.rows[i].key;
    }
  }

  /** When only row `i` matches, the UPDATE touches that row alone. */
  lemma TouchOne(rows: seq<ApiKeyRecord>, key: string, now: int, i: nat)
    requires i < |rows| && Matches(rows[i], key)
    requires forall j :: 0 <= j < |rows| && j != i ==> !Matches(rows[j], key)
    ensures TouchMatching(rows, key, now) == rows[i := Touch(rows[i], now)]
  {
  }

  /** Once a row is inactive, whatever happens next, its key is refused and
      the refusal leaves the table as it is. */
  lemma RevokedNeverValidates(t: Table, ops: seq<KeyOp>, rateLimit: nat, i: nat, now: int)
    requires TableOk(t) && OpsOk(ops)
    requires i < |t.rows| && !t.rows[i].isActive
    ensures ValidateStep(Run(t, ops, rateLimit), t.rows[i].key, now) == (Run(t, ops, rateLimit), None)
  {
    var t1 := Run(t, ops, rateLimit);
    RunEvolves(t, ops, rateLimit);
    var key := t.rows[i].key;
    assert Successor(t.rows[i], t1.rows[i]);
    forall j | 0 <= j < |t1.rows| ensures !Matches(t1.rows[j], key) {
      if j != i {
        assert t1.rows[j].key != t1.rows[i].key;
      }
    }
    ValidateMissChangesNothing(t1, key, now);
  }

  /** Revocation that reports success disables the owner's key for good. */
  lemma RevokeThenValidate(t: Table, i: nat, ops: seq<KeyOp>, rateLimit: nat, now: int)
    requires TableOk(t) && OpsOk(ops) && i < |t.rows|
    ensures RevokeStep(t, t.rows[i].id, t.rows[i].email).1
    ensures var t1 := RevokeStep(t, t.rows[i].id, t.rows[i].email).0;
            ValidateStep(Run(t1, ops, rateLimit), t.rows[i].key, now).1.None?
  {
    var t1 := RevokeStep(t, t.rows[i].id, t.rows[i].email).0;
    assert Owns(t.rows[i], t.rows[i].id, t.rows[i].email);
    RevokedNeverValidates(t1, ops, rateLimit, i, now);
  }

  /** Revocation with an email that does not own the id changes nothing and
      reports failure. */
  lemma RevokeByOtherEmail(t: Table, id: nat, email: string)
    requires TableOk(t)
    requires forall i :: 0 <= i < |t.rows| && t.rows[i].id == id ==> t.rows[i].email != email
    ensures RevokeStep(t, id, email) == (t, false)
  {
    assert RevokeStep(t, id, email).0.rows == t.rows;
  }

  /** A freshly issued key validates at once, with a usage count of one. */
  lemma IssuedKeyValidates(t: Table, name: string, email: string, choices: seq<nat>, now: int, later: int, rateLimit: nat)
    requires TableOk(t) && ValidChoices(choices)
    requires CreateStep(t, name, email, GenerateApiKey(choices), now, rateLimit).1.Ok?
    ensures var t1 := CreateStep(t, name, email, GenerateApiKey(choices), now, rateLimit).0;
            ValidateStep(t1, GenerateApiKey(choices), later).1
              == Some(KeyInfo(t.nextId, name, email, rateLimit, 1))
  {
    var key := GenerateApiKey(choices);
    var t1 := CreateStep(t, name, email, key, now, rateLimit).0;
    var n := |t.rows|;
    assert Matches(t1.rows[n], key);
  }

  /** Registering an (email, name) pair again, after anything at all has
      happened since its first registration, always fails on the
      `unique_email_name` constraint and adds no row. */
  lemma DuplicateAlwaysRefused(t: Table, name: string, email: string, choices: seq<nat>, now: int,
                               ops: seq<KeyOp>, choices2: seq<nat>, now2: int, rateLimit: nat)
    requires TableOk(t) && ValidChoices(choices) && ValidChoices(choices2) && OpsOk(ops)
    requires CreateStep(t, name, email, GenerateApiKey(choices), now, rateLimit).1.Ok?
    ensures var t2 := Run(CreateStep(t, name, email, GenerateApiKey(choices), now, rateLimit).0, ops, rateLimit);
            CreateStep(t2, name, email, GenerateApiKey(choices2), now2, rateLimit)
              == (t2, Err(UniqueViolation(UNIQUE_EMAIL_NAME)))
  {
    var t1 := CreateStep(t, name, email, GenerateApiKey(choices), now, rateLimit).0;
    var t2 := Run(t1, ops, rateLimit);
    RunEvolves(t1, ops, rateLimit);
    var n := |t.rows|;
    assert Successor(t1.rows[n], t2.rows[n]);
    assert PairTaken(t2.rows, email, name);
  }
}
