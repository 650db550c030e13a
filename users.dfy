/**
 * upsertUser (server/db.ts): how the partial user becomes an insert record
 * and a separate update set, and what MySQL's
 *   INSERT INTO users ... ON DUPLICATE KEY UPDATE ...
 * then does to the users table, keyed on the unique `openId`.
 */
module Users {
  import opened Values
  import opened Schema

  /**
   * The argument of upsertUser: the InsertUser fields it reads. A text field
   * may be absent (`Undefined`), NULL (`Defined(None)`) or a value.
   */
  datatype UserInput = UserInput(
    openId: Maybe<string>,
    name: Maybe<Option<string>>,
    email: Maybe<Option<string>>,
    loginMethod: Maybe<Option<string>>,
    role: Maybe<Role>,
    lastSignedIn: Maybe<Instant>)

  /**
   * The clock readings one upsert can take: `signIn` for the `new Date()` that
   * defaults lastSignedIn in the insert record, `emptyUpdate` for the one that
   * fills an otherwise empty update set, and `server` for the store's
   * CURRENT_TIMESTAMP (column defaults and ON UPDATE).
   */
  datatype Clock = Clock(signIn: Instant, emptyUpdate: Instant, server: Instant)

  /** `!user.openId`: the key is absent or the empty string. */
  predicate OpenIdMissing(u: UserInput) {
    u.openId.Undefined? || u.openId.value == ""
  }

  /** The `values` object handed to INSERT: only the fields that were assigned are present. */
  datatype InsertValues = InsertValues(
    openId: string,
    name: Maybe<Option<string>>,
    email: Maybe<Option<string>>,
    loginMethod: Maybe<Option<string>>,
    lastSignedIn: Maybe<Instant>,
    role: Maybe<Role>)

  /** The `updateSet` object handed to ON DUPLICATE KEY UPDATE. */
  datatype UpdateSet = UpdateSet(
    name: Maybe<Option<string>>,
    email: Maybe<Option<string>>,
    loginMethod: Maybe<Option<string>>,
    lastSignedIn: Maybe<Instant>,
    role: Maybe<Role>)

  /** `Object.keys(updateSet).length === 0`. */
  predicate IsEmpty(s: UpdateSet) {
    s.name.Undefined? && s.email.Undefined? && s.loginMethod.Undefined? &&
    s.lastSignedIn.Undefined? && s.role.Undefined?
  }

  // ---------------------------------------------------------------------------
  // The reference definition of the two objects
  // ---------------------------------------------------------------------------

  /** A supplied role wins; otherwise the owner identity gets 'owner'; otherwise no role is set. */
  function RoleFor(u: UserInput, ownerOpenId: string): (r: Maybe<Role>)
    requires u.openId.Defined?
    ensures u.role.Defined? ==> r == u.role
    ensures r.Defined? && r != u.role ==> r.value == Owner && u.openId.value == ownerOpenId
    ensures r.Undefined? <==> u.role.Undefined? && u.openId.value != ownerOpenId
  {
    if u.role.Defined? then u.role
    else if u.openId.value == ownerOpenId then Defined(Owner)
    else Undefined
  }

  /** The insert record: the key, every supplied text field, the role rule, and lastSignedIn defaulted to now. */
  function InsertValuesFor(u: UserInput, ownerOpenId: string, clock: Clock): (r: InsertValues)
    requires u.openId.Defined?
    ensures r.openId == u.openId.value
    ensures r.name == u.name && r.email == u.email && r.loginMethod == u.loginMethod
    ensures r.role == RoleFor(u, ownerOpenId)
    ensures r.lastSignedIn.Defined?
    ensures u.lastSignedIn.Defined? ==> r.lastSignedIn == u.lastSignedIn
  {
    InsertValues(u.openId.value, u.name, u.email, u.loginMethod,
                 Defined(if u.lastSignedIn.Defined? then u.lastSignedIn.value else clock.signIn),
                 RoleFor(u, ownerOpenId))
  }

  /** The update set: the supplied fields and the role rule; lastSignedIn := now only when nothing else is set. */
  function UpdateSetFor(u: UserInput, ownerOpenId: string, clock: Clock): (r: UpdateSet)
    requires u.openId.Defined?
    ensures !IsEmpty(r)
    ensures r.name == u.name && r.email == u.email && r.loginMethod == u.loginMethod
    ensures r.role == RoleFor(u, ownerOpenId)
    ensures u.lastSignedIn.Defined? ==> r.lastSignedIn == u.lastSignedIn
    ensures u.lastSignedIn.Undefined? ==>
      (r.lastSignedIn.Defined? <==>
         u.name.Undefined? && u.email.Undefined? && u.loginMethod.Undefined? && RoleFor(u, ownerOpenId).Undefined?)
    ensures u.lastSignedIn.Undefined? && r.lastSignedIn.Defined? ==> r.lastSignedIn.value == clock.emptyUpdate
  {
    var supplied := UpdateSet(u.name, u.email, u.loginMethod, u.lastSignedIn, RoleFor(u, ownerOpenId));
    if IsEmpty(supplied) then supplied.(lastSignedIn := Defined(clock.emptyUpdate)) else supplied
  }

  /**
   * The update set is never empty, so MySQL always receives a valid ON DUPLICATE
   * KEY UPDATE clause. This restates the first ensures of UpdateSetFor as a
   * standalone fact.
   */
  lemma UpdateSetNeverEmpty(u: UserInput, ownerOpenId: string, clock: Clock)
    requires u.openId.Defined?
    ensures !IsEmpty(UpdateSetFor(u, ownerOpenId, clock))
  {
  }

  /**
   * The insert record and the update set agree on the text fields and on the
   * role. This follows at once from the field ensures of InsertValuesFor and
   * UpdateSetFor, which both copy the input and apply RoleFor.
   */
  lemma InsertAndUpdateAgree(u: UserInput, ownerOpenId: string, clock: Clock)
    requires u.openId.Defined?
    ensures var v, s := InsertValuesFor(u, ownerOpenId, clock), UpdateSetFor(u, ownerOpenId, clock);
      v.name == s.name && v.email == s.email && v.loginMethod == s.loginMethod && v.role == s.role
  {
  }

  // ---------------------------------------------------------------------------
  // Building the two objects field by field, as upsertUser does
  // ---------------------------------------------------------------------------

  datatype TextField = NameField | EmailField | LoginMethodField

  /** `textFields`, in the order upsertUser visits them. */
  const TextFields: seq<TextField> := [NameField, EmailField, LoginMethodField]

  function InputText(u: UserInput, f: TextField): Maybe<Option<string>> {
    match f
    case NameField => u.name
    case EmailField => u.email
    case LoginMethodField => u.loginMethod
  }

  function ValuesText(v: InsertValues, f: TextField): Maybe<Option<string>> {
    match f
    case NameField => v.name
    case EmailField => v.email
    case LoginMethodField => v.loginMethod
  }

  function UpdateText(s: UpdateSet, f: TextField): Maybe<Option<string>> {
    match f
    case NameField => s.name
    case EmailField => s.email
    case LoginMethodField => s.loginMethod
  }

  /** `values[field] = normalized`. */
  function AssignValuesText(v: InsertValues, f: TextField, x: Option<string>): InsertValues {
    match f
    case NameField => v.(name := Defined(x))
    case EmailField => v.(email := Defined(x))
    case LoginMethodField => v.(loginMethod := Defined(x))
  }

  /** `updateSet[field] = normalized`. */
  function AssignUpdateText(s: UpdateSet, f: TextField, x: Option<string>): UpdateSet {
    match f
    case NameField => s.(name := Defined(x))
    case EmailField => s.(email := Defined(x))
    case LoginMethodField => s.(loginMethod := Defined(x))
  }

  /**
   * The object-building part of upsertUser: start from `{openId}` and `{}`,
   * run `assignNullable` over the text fields, then lastSignedIn, the role rule,
   * the lastSignedIn default and the empty-update-set fallback.
   */
  method BuildUpsertSets(u: UserInput, ownerOpenId: string, clock: Clock)
    returns (values: InsertValues, updateSet: UpdateSet)
    requires u.openId.Defined?
    ensures values == InsertValuesFor(u, ownerOpenId, clock)
    ensures updateSet == UpdateSetFor(u, ownerOpenId, clock)
  {
    values := InsertValues(u.openId.value, Undefined, Undefined, Undefined, Undefined, Undefined);
    updateSet := UpdateSet(Undefined, Undefined, Undefined, Undefined, Undefined);

    for i := 0 to |TextFields|
      invariant values.openId == u.openId.value
      invariant values.lastSignedIn.Undefined? && values.role.Undefined?
      invariant updateSet.lastSignedIn.Undefined? && updateSet.role.Undefined?
      invariant forall j :: 0 <= j < i ==>
        ValuesText(values, TextFields[j]) == InputText(u, TextFields[j]) &&
        UpdateText(updateSet, TextFields[j]) == InputText(u, TextFields[j])
      invariant forall j :: i <= j < |TextFields| ==>
        ValuesText(values, TextFields[j]).Undefined? && UpdateText(updateSet, TextFields[j]).Undefined?
    {
      var field := TextFields[i];
      var value := InputText(u, field);
      if value.Defined? {
        values := AssignValuesText(values, field, value.value);
        updateSet := AssignUpdateText(updateSet, field, value.value);
      }
    }
    assert TextFields[0] == NameField && TextFields[1] == EmailField && TextFields[2] == LoginMethodField;

    if u.lastSignedIn.Defined? {
      values := values.(lastSignedIn := u.lastSignedIn);
      updateSet := updateSet.(lastSignedIn := u.lastSignedIn);
    }
    if u.role.Defined? {
      values := values.(role := u.role);
      updateSet := updateSet.(role := u.role);
    } else if u.openId.value == ownerOpenId {
      values := values.(role := Defined(Owner));
      updateSet := updateSet.(role := Defined(Owner));
    }

    if values.lastSignedIn.Undefined? {
      values := values.(lastSignedIn := Defined(clock.signIn));
    }

    if IsEmpty(updateSet) {
      updateSet := updateSet.(lastSignedIn := Defined(clock.emptyUpdate));
    }
  }

  // ---------------------------------------------------------------------------
  // INSERT ... ON DUPLICATE KEY UPDATE on the users table
  // ---------------------------------------------------------------------------

  /** The position of the row holding `openId`, if there is one. */
  function IndexOfOpenId(users: seq<User>, openId: string): (r: Option<nat>)
    ensures r.Some? ==> r.value < |users| && users[r.value].openId == openId
    ensures r.None? ==> forall i :: 0 <= i < |users| ==> users[i].openId != openId
  {
    if users == [] then None
    else if users[0].openId == openId then Some(0)
    else match IndexOfOpenId(users[1..], openId)
      case None => None
      case Some(i) => Some(i + 1)
  }

  /** A text field left out of an insert is NULL: those columns have no default. */
  function OrNull(m: Maybe<Option<string>>): Option<string> {
    if m.Defined? then m.value else None
  }

  /** The row a plain INSERT of `v` creates, with the schema's defaults for the columns `v` leaves out. */
  function FreshUser(id: nat, v: InsertValues, now: Instant): (r: User)
    ensures r.id == id && r.openId == v.openId && r.createdAt == now && r.updatedAt == now
    ensures r.role == (if v.role.Defined? then v.role.value else Operator)
    ensures r.lastSignedIn == (if v.lastSignedIn.Defined? then v.lastSignedIn.value else now)
    ensures (v.name.Undefined? ==> r.name == None) && (v.name.Defined? ==> r.name == v.name.value)
    ensures (v.email.Undefined? ==> r.email == None) && (v.email.Defined? ==> r.email == v.email.value)
    ensures (v.loginMethod.Undefined? ==> r.loginMethod == None)
    ensures v.loginMethod.Defined? ==> r.loginMethod == v.loginMethod.value
  {
    User(id, v.openId, OrNull(v.name), OrNull(v.email), OrNull(v.loginMethod),
         if v.role.Defined? then v.role.value else Operator,
         now, now,
         if v.lastSignedIn.Defined? then v.lastSignedIn.value else now)
  }

  /** The existing row with the update set's assignments applied. */
  function Merge(u: User, s: UpdateSet): (r: User)
    ensures r.id == u.id && r.openId == u.openId && r.createdAt == u.createdAt && r.updatedAt == u.updatedAt
    ensures IsEmpty(s) ==> r == u
  {
    u.(name := if s.name.Defined? then s.name.value else u.name,
       email := if s.email.Defined? then s.email.value else u.email,
       loginMethod := if s.loginMethod.Defined? then s.loginMethod.value else u.loginMethod,
       lastSignedIn := if s.lastSignedIn.Defined? then s.lastSignedIn.value else u.lastSignedIn,
       role := if s.role.Defined? then s.role.value else u.role)
  }

  /** ON UPDATE CURRENT_TIMESTAMP: updatedAt moves to `now` only if the update changed some column. */
  function Touch(before: User, after: User, now: Instant): (r: User)
    ensures after == before ==> r == before
    ensures after != before ==> r.updatedAt == now && r.(updatedAt := after.updatedAt) == after
  {
    if after == before then before else after.(updatedAt := now)
  }

  /** The statement's effect on (rows, auto-increment counter). */
  function InsertOnDuplicateKeyUpdate(users: seq<User>, nextId: nat, v: InsertValues, s: UpdateSet, now: Instant)
    : (r: (seq<User>, nat))
    ensures exists i :: 0 <= i < |r.0| && r.0[i].openId == v.openId
    ensures |r.0| >= |users| && forall i :: 0 <= i < |users| ==> r.0[i].id == users[i].id && r.0[i].openId == users[i].openId
    ensures (exists i :: 0 <= i < |users| && users[i].openId == v.openId) ==> |r.0| == |users| && r.1 == nextId
    ensures (forall i :: 0 <= i < |users| ==> users[i].openId != v.openId) ==>
      r.0 == users + [FreshUser(nextId, v, now)] && r.1 == nextId + 1
  {
    match IndexOfOpenId(users, v.openId)
    case Some(i) =>
      var row := Touch(users[i], Merge(users[i], s), now);
      assert row.openId == users[i].openId && row.id == users[i].id;
      var rows := users[i := row];
      assert rows[i].openId == v.openId;
      (rows, nextId)
    case None =>
      var rows := users + [FreshUser(nextId, v, now)];
      assert rows[|users|].openId == v.openId;
      (rows, nextId + 1)
  }

  // ---------------------------------------------------------------------------
  // Columns, to say which ones an update touches
  // ---------------------------------------------------------------------------

  datatype UserColumn =
    IdColumn | OpenIdColumn | NameColumn | EmailColumn | LoginMethodColumn |
    RoleColumn | CreatedAtColumn | UpdatedAtColumn | LastSignedInColumn

  datatype ColumnValue = IntValue(i: int) | TextValue(t: Option<string>) | RoleValue(r: Role)

  function Column(u: User, c: UserColumn): ColumnValue {
    match c
    case IdColumn => IntValue(u.id)
    case OpenIdColumn => TextValue(Some(u.openId))
    case NameColumn => TextValue(u.name)
    case EmailColumn => TextValue(u.email)
    case LoginMethodColumn => TextValue(u.loginMethod)
    case RoleColumn => RoleValue(u.role)
    case CreatedAtColumn => IntValue(u.createdAt)
    case UpdatedAtColumn => IntValue(u.updatedAt)
    case LastSignedInColumn => IntValue(u.lastSignedIn)
  }

  /** The columns the update set assigns. */
  function SetColumns(s: UpdateSet): set<UserColumn> {
    (if s.name.Defined? then {NameColumn} else {}) +
    (if s.email.Defined? then {EmailColumn} else {}) +
    (if s.loginMethod.Defined? then {LoginMethodColumn} else {}) +
    (if s.lastSignedIn.Defined? then {LastSignedInColumn} else {}) +
    (if s.role.Defined? then {RoleColumn} else {})
  }

  /** The value the update set assigns to column `c`. */
  function SetValue(s: UpdateSet, c: UserColumn): ColumnValue
    requires c in SetColumns(s)
  {
    match c
    case NameColumn => TextValue(s.name.value)
    case EmailColumn => TextValue(s.email.value)
    case LoginMethodColumn => TextValue(s.loginMethod.value)
    case LastSignedInColumn => IntValue(s.lastSignedIn.value)
    case RoleColumn => RoleValue(s.role.value)
  }

  /** A conflicting row takes exactly the update set's values; nothing but updatedAt changes otherwise. */
  lemma {:induction false} MergeChangesOnlySetColumns(u: User, s: UpdateSet, now: Instant)
    ensures forall c :: c in SetColumns(s) ==> Column(Touch(u, Merge(u, s), now), c) == SetValue(s, c)
    ensures forall c :: c !in SetColumns(s) && c != UpdatedAtColumn ==>
      Column(Touch(u, Merge(u, s), now), c) == Column(u, c)
    ensures (exists c :: c in SetColumns(s) && SetValue(s, c) != Column(u, c)) ==>
      Touch(u, Merge(u, s), now).updatedAt == now
    ensures (forall c :: c in SetColumns(s) ==> SetValue(s, c) == Column(u, c)) ==>
      Touch(u, Merge(u, s), now) == u
  {
    var m := Merge(u, s);
    forall c | c in SetColumns(s) ensures Column(m, c) == SetValue(s, c) {
    }
    forall c | c !in SetColumns(s) ensures Column(m, c) == Column(u, c) {
    }
    if forall c :: c in SetColumns(s) ==> SetValue(s, c) == Column(u, c) {
      assert Column(m, NameColumn) == Column(u, NameColumn);
      assert Column(m, EmailColumn) == Column(u, EmailColumn);
      assert Column(m, LoginMethodColumn) == Column(u, LoginMethodColumn);
      assert Column(m, LastSignedInColumn) == Column(u, LastSignedInColumn);
      assert Column(m, RoleColumn) == Column(u, RoleColumn);
      assert m == u;
    }
    if exists c :: c in SetColumns(s) && SetValue(s, c) != Column(u, c) {
      var c :| c in SetColumns(s) && SetValue(s, c) != Column(u, c);
      assert Column(m, c) != Column(u, c);
    }
  }

  // ---------------------------------------------------------------------------
  // What the statement does to the table
  // ---------------------------------------------------------------------------

  /** After the statement, exactly one row holds the key, and the table's constraints still hold. */
  lemma {:induction false} UpsertLeavesExactlyOneRow(users: seq<User>, nextId: nat, v: InsertValues, s: UpdateSet, now: Instant)
    requires OpenIdsUnique(users) && UserIdsFresh(users, nextId)
    ensures var r := InsertOnDuplicateKeyUpdate(users, nextId, v, s, now);
      && OpenIdsUnique(r.0) && UserIdsFresh(r.0, r.1)
      && (exists i :: 0 <= i < |r.0| && r.0[i].openId == v.openId)
      && (forall i, j :: 0 <= i < |r.0| && 0 <= j < |r.0| && r.0[i].openId == v.openId && r.0[j].openId == v.openId ==> i == j)
  {
    var r := InsertOnDuplicateKeyUpdate(users, nextId, v, s, now);
    match IndexOfOpenId(users, v.openId)
    case Some(k) =>
      assert forall i :: 0 <= i < |users| ==> r.0[i].openId == users[i].openId && r.0[i].id == users[i].id;
      assert r.0[k].openId == v.openId;
    case None =>
      assert forall i :: 0 <= i < |users| ==> r.0[i] == users[i];
      assert r.0[|users|].openId == v.openId;
  }

  /**
   * On conflict the table keeps its length and its counter; the matching row
   * takes exactly the update set's columns, and every other row is unchanged.
   */
  lemma {:induction false} UpsertOnConflict(users: seq<User>, nextId: nat, v: InsertValues, s: UpdateSet, now: Instant, k: nat)
    requires OpenIdsUnique(users)
    requires k < |users| && users[k].openId == v.openId
    ensures var r := InsertOnDuplicateKeyUpdate(users, nextId, v, s, now);
      && |r.0| == |users| && r.1 == nextId
      && (forall j :: 0 <= j < |users| && j != k ==> r.0[j] == users[j])
      && (forall c :: c in SetColumns(s) ==> Column(r.0[k], c) == SetValue(s, c))
      && (forall c :: c !in SetColumns(s) && c != UpdatedAtColumn ==> Column(r.0[k], c) == Column(users[k], c))
  {
    var i := IndexOfOpenId(users, v.openId);
    assert i == Some(k);
    MergeChangesOnlySetColumns(users[k], s, now);
  }

  /** Without a conflict one row is appended under a fresh id, filled from the insert record and the defaults. */
  lemma UpsertWithoutConflict(users: seq<User>, nextId: nat, v: InsertValues, s: UpdateSet, now: Instant)
    requires forall i :: 0 <= i < |users| ==> users[i].openId != v.openId
    ensures InsertOnDuplicateKeyUpdate(users, nextId, v, s, now) == (users + [FreshUser(nextId, v, now)], nextId + 1)
  {
  }

  /**
   * A fresh row: the role defaults to 'operator', absent text fields are NULL,
   * timestamps default to now. This restates the ensures of FreshUser in one
   * place.
   */
  lemma FreshUserDefaults(id: nat, v: InsertValues, now: Instant)
    ensures var u := FreshUser(id, v, now);
      && u.id == id && u.openId == v.openId
      && (v.role.Undefined? ==> u.role == Operator)
      && (v.role.Defined? ==> u.role == v.role.value)
      && (v.name.Undefined? ==> u.name == None) && (v.name.Defined? ==> u.name == v.name.value)
      && (v.email.Undefined? ==> u.email == None) && (v.email.Defined? ==> u.email == v.email.value)
      && (v.loginMethod.Undefined? ==> u.loginMethod == None)
      && (v.loginMethod.Defined? ==> u.loginMethod == v.loginMethod.value)
      && u.createdAt == now && u.updatedAt == now
  {
  }

  // ---------------------------------------------------------------------------
  // upsertUser end to end: the row for the key afterwards
  // ---------------------------------------------------------------------------

  /** The users table after upsertUser(u) reaches the store. */
  function UpsertedUsers(users: seq<User>, nextId: nat, u: UserInput, ownerOpenId: string, clock: Clock)
    : (r: (seq<User>, nat))
    requires u.openId.Defined?
    ensures exists i :: 0 <= i < |r.0| && r.0[i].openId == u.openId.value
    ensures r.1 == nextId || r.1 == nextId + 1
    ensures |r.0| == |users| + (r.1 - nextId)
  {
    InsertOnDuplicateKeyUpdate(users, nextId, InsertValuesFor(u, ownerOpenId, clock),
                               UpdateSetFor(u, ownerOpenId, clock), clock.server)
  }

  /**
   * Role precedence: a supplied role is stored; otherwise the owner identity is
   * stored as 'owner'; otherwise an existing row keeps its role and a new row
   * gets the default 'operator'.
   */
  lemma {:induction false} UpsertRole(users: seq<User>, nextId: nat, u: UserInput, ownerOpenId: string, clock: Clock)
    requires u.openId.Defined?
    requires OpenIdsUnique(users) && UserIdsFresh(users, nextId)
    ensures var r := UpsertedUsers(users, nextId, u, ownerOpenId, clock);
      var before := IndexOfOpenId(users, u.openId.value);
      forall i :: 0 <= i < |r.0| && r.0[i].openId == u.openId.value ==>
        r.0[i].role ==
          if u.role.Defined? then u.role.value
          else if u.openId.value == ownerOpenId then Owner
          else if before.Some? then users[before.value].role
          else Operator
  {
    var v, s := InsertValuesFor(u, ownerOpenId, clock), UpdateSetFor(u, ownerOpenId, clock);
    var r := InsertOnDuplicateKeyUpdate(users, nextId, v, s, clock.server);
    UpsertLeavesExactlyOneRow(users, nextId, v, s, clock.server);
    match IndexOfOpenId(users, u.openId.value)
    case Some(k) =>
      UpsertOnConflict(users, nextId, v, s, clock.server, k);
      assert r.0[k].openId == u.openId.value;
      assert Column(r.0[k], RoleColumn) == RoleValue(r.0[k].role);
    case None =>
      assert r.0[|users|] == FreshUser(nextId, v, clock.server);
  }

  /**
   * Text fields: an undefined field leaves an existing row's value (NULL on a
   * new row); NULL or a value is stored as given.
   */
  lemma {:induction false} UpsertTextFields(users: seq<User>, nextId: nat, u: UserInput, ownerOpenId: string, clock: Clock)
    requires u.openId.Defined?
    requires OpenIdsUnique(users) && UserIdsFresh(users, nextId)
    ensures var r := UpsertedUsers(users, nextId, u, ownerOpenId, clock);
      var before := IndexOfOpenId(users, u.openId.value);
      forall i :: 0 <= i < |r.0| && r.0[i].openId == u.openId.value ==>
        && r.0[i].name == (if u.name.Defined? then u.name.value else if before.Some? then users[before.value].name else None)
        && r.0[i].email == (if u.email.Defined? then u.email.value else if before.Some? then users[before.value].email else None)
        && r.0[i].loginMethod ==
             (if u.loginMethod.Defined? then u.loginMethod.value
              else if before.Some? then users[before.value].loginMethod else None)
  {
    var v, s := InsertValuesFor(u, ownerOpenId, clock), UpdateSetFor(u, ownerOpenId, clock);
    var r := InsertOnDuplicateKeyUpdate(users, nextId, v, s, clock.server);
    UpsertLeavesExactlyOneRow(users, nextId, v, s, clock.server);
    match IndexOfOpenId(users, u.openId.value)
    case Some(k) =>
      UpsertOnConflict(users, nextId, v, s, clock.server, k);
      assert r.0[k].openId == u.openId.value;
      assert Column(r.0[k], NameColumn) == TextValue(r.0[k].name);
      assert Column(r.0[k], EmailColumn) == TextValue(r.0[k].email);
      assert Column(r.0[k], LoginMethodColumn) == TextValue(r.0[k].loginMethod);
    case None =>
      assert r.0[|users|] == FreshUser(nextId, v, clock.server);
  }

  /**
   * lastSignedIn: a new row gets the supplied value, else the sign-in clock. An
   * existing row gets the supplied value; failing that, it is refreshed only
   * when no other column is being set, and otherwise keeps its value.
   */
  lemma {:induction false} UpsertLastSignedIn(users: seq<User>, nextId: nat, u: UserInput, ownerOpenId: string, clock: Clock)
    requires u.openId.Defined?
    requires OpenIdsUnique(users) && UserIdsFresh(users, nextId)
    ensures var r := UpsertedUsers(users, nextId, u, ownerOpenId, clock);
      var before := IndexOfOpenId(users, u.openId.value);
      var nothingElse := u.name.Undefined? && u.email.Undefined? && u.loginMethod.Undefined? &&
                         RoleFor(u, ownerOpenId).Undefined?;
      forall i :: 0 <= i < |r.0| && r.0[i].openId == u.openId.value ==>
        r.0[i].lastSignedIn ==
          if u.lastSignedIn.Defined? then u.lastSignedIn.value
          else if before.None? then clock.signIn
          else if nothingElse then clock.emptyUpdate
          else users[before.value].lastSignedIn
  {
    var v, s := InsertValuesFor(u, ownerOpenId, clock), UpdateSetFor(u, ownerOpenId, clock);
    var r := InsertOnDuplicateKeyUpdate(users, nextId, v, s, clock.server);
    UpsertLeavesExactlyOneRow(users, nextId, v, s, clock.server);
    match IndexOfOpenId(users, u.openId.value)
    case Some(k) =>
      UpsertOnConflict(users, nextId, v, s, clock.server, k);
      assert r.0[k].openId == u.openId.value;
      assert Column(r.0[k], LastSignedInColumn) == IntValue(r.0[k].lastSignedIn);
    case None =>
      assert r.0[|users|] == FreshUser(nextId, v, clock.server);
  }

  /**
   * A repeat sign-in by the owner identity that supplies only the key sets the
   * role and nothing else: lastSignedIn is not refreshed.
   */
  lemma OwnerKeyOnlyUpsertKeepsLastSignedIn(users: seq<User>, nextId: nat, ownerOpenId: string, clock: Clock, k: nat)
    requires OpenIdsUnique(users) && UserIdsFresh(users, nextId)
    requires k < |users| && users[k].openId == ownerOpenId
    ensures var u := UserInput(Defined(ownerOpenId), Undefined, Undefined, Undefined, Undefined, Undefined);
      var r := UpsertedUsers(users, nextId, u, ownerOpenId, clock);
      |r.0| == |users| && r.0[k].lastSignedIn == users[k].lastSignedIn && r.0[k].role == Owner
  {
    var u := UserInput(Defined(ownerOpenId), Undefined, Undefined, Undefined, Undefined, Undefined);
    var v, s := InsertValuesFor(u, ownerOpenId, clock), UpdateSetFor(u, ownerOpenId, clock);
    assert SetColumns(s) == {RoleColumn};
    UpsertOnConflict(users, nextId, v, s, clock.server, k);
    var r := InsertOnDuplicateKeyUpdate(users, nextId, v, s, clock.server);
    assert Column(r.0[k], LastSignedInColumn) == Column(users[k], LastSignedInColumn);
    assert Column(r.0[k], RoleColumn) == SetValue(s, RoleColumn);
  }
}
