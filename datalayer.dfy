/**
 * The stateful part of server/db.ts: the module-level handle `_db`, and the
 * two write paths, upsertUser and createAuditLog, which reach the store
 * through it.
 */
module Db {
  import opened Values
  import opened Schema
  import opened Connection
  import opened Users

  /** What upsertUser reports: it completed (possibly as a no-op), or it threw before any store access. */
  datatype UpsertOutcome = Done | ValidationError(message: string)

  const OpenIdRequiredMessage := "User openId is required for upsert"

  /** The store after an upsert reached it: only the users table and its counter change. */
  function UpsertIntoStore(d: Database, u: UserInput, ownerOpenId: string, clock: Clock): (r: Database)
    requires u.openId.Defined?
    ensures r.(users := d.users, userAutoIncrement := d.userAutoIncrement) == d
  {
    var (rows, next) := UpsertedUsers(d.users, d.userAutoIncrement, u, ownerOpenId, clock);
    d.(users := rows, userAutoIncrement := next)
  }

  /** An upsert keeps every constraint of the store, the unique openId among them. */
  lemma {:induction false} UpsertIntoStoreKeepsStoreValid(d: Database, u: UserInput, ownerOpenId: string, clock: Clock)
    requires u.openId.Defined? && StoreValid(d)
    ensures StoreValid(UpsertIntoStore(d, u, ownerOpenId, clock))
  {
    UpsertLeavesExactlyOneRow(d.users, d.userAutoIncrement, InsertValuesFor(u, ownerOpenId, clock),
                              UpdateSetFor(u, ownerOpenId, clock), clock.server);
  }

  /** The argument of createAuditLog; an omitted optional field is stored as NULL. */
  datatype AuditLogInput = AuditLogInput(
    userId: Option<int>,
    accountId: Option<int>,
    action: string,
    entityType: Option<string>,
    entityId: Option<int>,
    details: Option<string>,
    ipAddress: Option<string>,
    userAgent: Option<string>)

  /**
   * The store after createAuditLog reached it: one row appended to the audit
   * log under the next id, carrying the given fields; nothing else changes.
   */
  function AppendAuditLog(d: Database, log: AuditLogInput, now: Instant): (r: Database)
    ensures |r.auditLogs| == |d.auditLogs| + 1 && r.auditLogs[..|d.auditLogs|] == d.auditLogs
    ensures var row := r.auditLogs[|d.auditLogs|];
      && row.id == d.auditLogAutoIncrement && row.createdAt == now
      && row.userId == log.userId && row.accountId == log.accountId && row.action == log.action
      && row.entityType == log.entityType && row.entityId == log.entityId && row.details == log.details
      && row.ipAddress == log.ipAddress && row.userAgent == log.userAgent
    ensures r.auditLogAutoIncrement == d.auditLogAutoIncrement + 1
    ensures r.(auditLogs := d.auditLogs, auditLogAutoIncrement := d.auditLogAutoIncrement) == d
  {
    var row := AuditLog(d.auditLogAutoIncrement, log.userId, log.accountId, log.action, log.entityType,
                        log.entityId, log.details, log.ipAddress, log.userAgent, now);
    var logs := d.auditLogs + [row];
    assert logs[..|d.auditLogs|] == d.auditLogs;
    d.(auditLogs := logs, auditLogAutoIncrement := d.auditLogAutoIncrement + 1)
  }

  /** Appending an audit-log row keeps every constraint of the store. */
  lemma {:induction false} AppendAuditLogKeepsStoreValid(d: Database, log: AuditLogInput, now: Instant)
    requires StoreValid(d)
    ensures StoreValid(AppendAuditLog(d, log, now))
  {
    var r := AppendAuditLog(d, log, now);
    var n := |d.auditLogs|;
    forall i | 0 <= i < |r.auditLogs| ensures r.auditLogs[i].id < r.auditLogAutoIncrement {
      if i < n { assert r.auditLogs[i] == r.auditLogs[..n][i]; }
    }
    forall i, j | 0 <= i < j < |r.auditLogs| ensures r.auditLogs[i].id != r.auditLogs[j].id {
      assert r.auditLogs[i] == r.auditLogs[..n][i];
      if j < n { assert r.auditLogs[j] == r.auditLogs[..n][j]; }
    }
  }

  /**
   * The data-access layer's state: `handle` is `_db`, `store` is the MySQL
   * database that a handle reaches, and the ghost `constructions` counts the
   * times a handle was constructed.
   */
  class DataLayer {
    var handle: Option<Handle>
    var store: Database
    ghost var constructions: nat

    ghost predicate Valid()
      reads this
    {
      StoreValid(store)
    }

    /** A freshly loaded module: no handle yet, over an existing store. */
    constructor (initial: Database)
      requires StoreValid(initial)
      ensures Valid()
      ensures handle == None && store == initial && constructions == 0
    {
      handle := None;
      store := initial;
      constructions := 0;
    }

    /**
     * getDb: construct the handle if none is stored and a connection string is
     * configured; a construction that throws leaves the handle unset.
     */
    method GetDb(databaseUrl: Option<string>, constructionFails: bool) returns (db: Option<Handle>)
      modifies this`handle, this`constructions
      ensures handle == NextHandle(old(handle), databaseUrl, constructionFails)
      ensures db == handle
      ensures old(handle).Some? ==> handle == old(handle)
      ensures !UrlConfigured(databaseUrl) ==> handle == old(handle)
      ensures constructions == old(constructions) + (if Attempts(old(handle), databaseUrl) then 1 else 0)
    {
      if handle.None? && databaseUrl.Some? && databaseUrl.value != "" {
        constructions := constructions + 1;
        if constructionFails {
          handle := None;
        } else {
          handle := Some(Handle(databaseUrl.value));
        }
      }
      db := handle;
    }

    /**
     * upsertUser: reject a missing key before touching the handle; with no
     * handle, return without writing; otherwise build the insert record and
     * update set and run INSERT ... ON DUPLICATE KEY UPDATE.
     */
    method UpsertUser(user: UserInput, databaseUrl: Option<string>, constructionFails: bool,
                      ownerOpenId: string, clock: Clock) returns (outcome: UpsertOutcome)
      requires Valid()
      modifies this
      ensures Valid()
      ensures OpenIdMissing(user) ==>
        outcome == ValidationError(OpenIdRequiredMessage) &&
        handle == old(handle) && store == old(store) && constructions == old(constructions)
      ensures !OpenIdMissing(user) ==>
        outcome == Done &&
        handle == NextHandle(old(handle), databaseUrl, constructionFails) &&
        constructions == old(constructions) + (if Attempts(old(handle), databaseUrl) then 1 else 0)
      ensures !OpenIdMissing(user) && handle.None? ==> store == old(store)
      ensures !OpenIdMissing(user) && handle.Some? ==> store == UpsertIntoStore(old(store), user, ownerOpenId, clock)
    {
      if user.openId.Undefined? || user.openId.value == "" {
        outcome := ValidationError(OpenIdRequiredMessage);
        return;
      }
      var db := GetDb(databaseUrl, constructionFails);
      if db.None? {
        outcome := Done;
        return;
      }
      var values, updateSet := BuildUpsertSets(user, ownerOpenId, clock);
      UpsertIntoStoreKeepsStoreValid(store, user, ownerOpenId, clock);
      var (rows, next) := InsertOnDuplicateKeyUpdate(store.users, store.userAutoIncrement, values, updateSet, clock.server);
      store := store.(users := rows, userAutoIncrement := next);
      outcome := Done;
    }

    /** createAuditLog: with no handle, drop the entry; otherwise append one row. */
    method CreateAuditLog(log: AuditLogInput, databaseUrl: Option<string>, constructionFails: bool, now: Instant)
      requires Valid()
      modifies this
      ensures Valid()
      ensures handle == NextHandle(old(handle), databaseUrl, constructionFails)
      ensures constructions == old(constructions) + (if Attempts(old(handle), databaseUrl) then 1 else 0)
      ensures handle.None? ==> store == old(store)
      ensures handle.Some? ==> store == AppendAuditLog(old(store), log, now)
    {
      var db := GetDb(databaseUrl, constructionFails);
      if db.None? {
        return;
      }
      AppendAuditLogKeepsStoreValid(store, log, now);
      store := AppendAuditLog(store, log, now);
    }
  }
}
