# opsbrain data-access layer in Dafny

This project models the data-access layer of opsbrain, an agency operations
dashboard. The layer is `server/db.ts`. It runs over the MySQL tables that
`drizzle/schema.ts` declares.

The model has five parts:

- **Connection**: the lazily created handle `_db` and `getDb`, as a state
  machine over `Option<Handle>`.
- **Users**: `upsertUser` in detail:
  - it builds the insert record and the update set from a partial user,
    field by field, as the source does;
  - what MySQL's `INSERT ... ON DUPLICATE KEY UPDATE`, keyed on the unique
    `openId`, then does to the users table, with `ON UPDATE
    CURRENT_TIMESTAMP` on `updatedAt`.
- **Db**: the class `DataLayer`. It holds the handle and the store. Its
  methods are `GetDb`, `UpsertUser` and `CreateAuditLog`.
- **Readers**: every reader of `server/db.ts`, as a function over the tables.
  `Query` gives WHERE, ORDER BY ... DESC and LIMIT their SQL meaning.
- **Schema**: one datatype per table:
  - the closed enum sets;
  - the insert defaults;
  - the store's constraints, `StoreValid`: unique primary keys and unique
    `users.openId`, `roles.name`, `domains.domain`, `invoices.invoiceNumber`.

These things are parameters of the model:

- the clock: three readings per upsert, `Clock.signIn`, `Clock.emptyUpdate`
  and `Clock.server`;
- the value of `DATABASE_URL`;
- whether constructing the driver throws;
- the owner identity `ENV.ownerOpenId`.

Every reader takes `db`, the result of the `getDb` call it makes first.

Three behaviours a reader might expect are not what the code does. The
model follows the code in each case:

- A supplied role wins over the owner rule (server/db.ts:76-82). The owner
  rule does not force `'owner'`.
- On conflict, `lastSignedIn` is refreshed only when the update set would
  otherwise be empty (server/db.ts:88-90). It is not refreshed on every
  upsert.
  - `Users.OwnerKeyOnlyUpsertKeepsLastSignedIn` shows a consequence. A
    repeat upsert by the owner that supplies only the key sets `role`, so
    the update set is not empty, and `lastSignedIn` stays as it was.
- A failed handle construction is not latched. The next call tries again
  (server/db.ts:31).

## Model

| member | source | states |
|---|---|---|
| Schema.RoleNamesRoundTrip | drizzle/schema.ts:18 | every role has a stored name that parses back to that role |
| Schema.ParseRoleOnlyNames | drizzle/schema.ts:18 | only the five role names are accepted, each as the role it names |
| Schema.PostStatusNamesRoundTrip | drizzle/schema.ts:199 | every post status has a stored name that parses back to that status |
| Schema.ParsePostStatusOnlyNames | drizzle/schema.ts:199 | only the six post-status names are accepted, each as the status it names |
| Schema.InsertDefaults | drizzle/schema.ts:56-445 | fresh rows have these defaults: accounts `active`/`basic`/retainer 0; projects `planning`/spent 0; posts `brief_ready`; keywords `researched`; tasks `todo`/`medium`; issues `open`/`medium` with firstSeen now; webhook events `pending`, 0 attempts, no account; invoices `USD`; subscriptions retry 5 |
| Schema.NewRoleRow | drizzle/schema.ts:24-29 | a new role row carries the given name, no permissions, created now |
| Schema.NewAccount | drizzle/schema.ts:52-67 | a new account is `active`, tier `basic`, retainer 0, with no owner; created and updated now |
| Schema.NewProject | drizzle/schema.ts:69-86 | a new project is `planning` with 0 spent and no manager |
| Schema.NewDomain | drizzle/schema.ts:92-111 | a new domain is `active`, crawled `daily`, with 0 total and 0 indexed pages and no CMS |
| Schema.NewPage | drizzle/schema.ts:113-136 | a new page is `live`, without schema markup, with 0 internal and 0 external links |
| Schema.NewKeyword | drizzle/schema.ts:142-161 | a new keyword is `researched`, unranked and unassigned |
| Schema.NewBrief | drizzle/schema.ts:163-184 | a new brief is `draft` and unassigned |
| Schema.NewPost | drizzle/schema.ts:186-212 | a new post is `brief_ready`, neither published nor indexed |
| Schema.NewTask | drizzle/schema.ts:218-242 | a new task has the given type and title, status `todo`, priority `medium`, no assignee |
| Schema.NewIssue | drizzle/schema.ts:248-269 | a new issue is `medium`, `open`, not auto-fixable, first and last seen now, not fixed |
| Schema.NewProspect | drizzle/schema.ts:275-295 | a new prospect is `identified` and never contacted |
| Schema.NewLink | drizzle/schema.ts:297-317 | a new link is `pending`, never verified, of no link type |
| Schema.NewGbp | drizzle/schema.ts:323-345 | a new business listing is `pending` and never verified |
| Schema.NewEmail | drizzle/schema.ts:351-369 | a new email is `draft` and never sent |
| Schema.NewCall | drizzle/schema.ts:371-388 | a new call carries the given call time, has no status, lead quality or listing, and is created now |
| Schema.NewInvoice | drizzle/schema.ts:394-412 | a new invoice carries the given number and amount, `draft`, currency `USD`, unpaid |
| Schema.NewWebhookEvent | drizzle/schema.ts:418-435 | a new event has no account, is `pending` with 0 attempts, received now and not processed |
| Schema.NewWebhookSubscription | drizzle/schema.ts:437-452 | a new subscription allows 5 retries and is enabled |
| Schema.NewWebhookDeliveryLog | drizzle/schema.ts:454-466 | a new delivery log records 1 attempt, no status code, delivered now |
| Schema.OpenIdsUnique | drizzle/schema.ts:14 | the UNIQUE key on `users.openId`: two positions holding the same openId are the same row |
| Schema.DomainsUnique | drizzle/schema.ts:92-111 | primary key and `domain_unique`: two positions holding the same domain name are the same row |
| Schema.StoreValid | drizzle/schema.ts:12-466 | the store's declared constraints: unique ids in every table, unique `users.openId`, `roles.name`, `domains.domain`, `invoices.invoiceNumber`, and ids of users and audit-log rows below their auto-increment counters; its consequences are stated by the lemmas of this table |
| Schema.EmptyDatabase | drizzle/schema.ts:12-466 | the store with every table empty satisfies every declared constraint |
| Schema.AnyPostStatusMayReplaceAny | drizzle/schema.ts:199 | post statuses have no transition rule: replacing any post's status with any status keeps the store valid |
| Schema.AnyKeywordStatusMayReplaceAny | drizzle/schema.ts:154 | keyword statuses have no transition rule either |
| Schema.DuplicateUrlHashAllowed | drizzle/schema.ts:134 | `pages.urlHash` is only indexed: adding a page with a fresh id and a repeated hash keeps the store valid |
| Schema.DuplicateWebhookHashAllowed | drizzle/schema.ts:434 | `webhookEvents.hash` is only indexed: the store does not deduplicate events |
| Schema.DuplicateDomainRejected | drizzle/schema.ts:110 | `domains.domain` is unique: a second row with an existing domain name violates the store |
| Connection.UrlConfigured | server/db.ts:31 | `process.env.DATABASE_URL` is truthy: set and not the empty string |
| Connection.Attempts | server/db.ts:31 | the guard `!_db && process.env.DATABASE_URL`: a call constructs a handle only when none is stored and the URL is truthy |
| Connection.NextHandle | server/db.ts:30-40 | one getDb call: a stored handle is kept; with no usable URL, or when construction throws, the handle is unchanged; otherwise the handle built from the URL is stored |
| Connection.AfterCalls | server/db.ts:30-40 | after a series of calls the handle is null only if it started null, and a handle that was not there at the start was built from the URL of one of the calls |
| Connection.NoUrlNoHandle | server/db.ts:30-40 | with no `DATABASE_URL`, or an empty one, nothing is constructed and the handle stays null |
| Connection.StoredHandleIsKept | server/db.ts:30-40 | once a handle is stored, a call constructs nothing and returns that same handle |
| Connection.FailedConstructionIsRetried | server/db.ts:31-38 | a construction that throws leaves the handle null; the next call constructs again and can succeed |
| Connection.HandleStableOverCalls | server/db.ts:30-40 | over any series of calls, a stored handle never changes |
| Connection.FirstSuccessWins | server/db.ts:30-40 | after a series of calls, the handle is the one built by the first call that constructed successfully |
| Db.DataLayer.constructor | server/db.ts:27 | the module starts with `_db` null over an existing valid store, with no construction made |
| Db.DataLayer.GetDb | server/db.ts:30-40 | one call updates the stored handle by these rules; it constructs at most once, and only when no handle is stored and the URL is set |
| Users.OpenIdMissing | server/db.ts:43-45 | `!user.openId`: the key is absent or the empty string, the case in which upsertUser throws |
| Users.IsEmpty | server/db.ts:88 | `Object.keys(updateSet).length === 0`: no column of the update set is assigned |
| Users.RoleFor | server/db.ts:76-82 | a supplied role is used as given; the only other role it yields is `owner`, and only for the owner identity; no role is set exactly when none was supplied and the key is not the owner's |
| Users.InsertValuesFor | server/db.ts:54-86 | the insert record carries the key, the text fields as supplied, the role rule, and always a `lastSignedIn`, the supplied one when given |
| Users.UpdateSetFor | server/db.ts:57-90 | the update set is never empty; it carries the supplied text fields and the role rule; a supplied `lastSignedIn` is kept; otherwise `lastSignedIn` is set, to the second clock reading, exactly when nothing else is |
| Users.UpdateSetNeverEmpty | server/db.ts:88-90 | the update set given to ON DUPLICATE KEY UPDATE is never empty (the first ensures of UpdateSetFor, as a standalone lemma) |
| Users.InsertAndUpdateAgree | server/db.ts:59-82 | the insert record and the update set agree on name, email, loginMethod and role (a consequence of the two functions' field ensures) |
| Users.BuildUpsertSets | server/db.ts:55-90 | the objects built by mutation, including the loop over `textFields`, are the reference insert record and update set: undefined text fields are skipped, null or a value is copied to both, a supplied `lastSignedIn` goes to both, a supplied role wins over the owner rule, `lastSignedIn` is defaulted in the insert, and an empty update set gets `lastSignedIn` |
| Users.IndexOfOpenId | server/db.ts:92-94 | finds the row holding the key, or reports that no row does |
| Users.OrNull | drizzle/schema.ts:15-17 | a text column left out of the insert stores NULL, since `name`, `email` and `loginMethod` are nullable and have no default |
| Users.FreshUser | drizzle/schema.ts:12-22 | a row a plain INSERT creates: the next id and the key; role from the insert, else `operator`; lastSignedIn from the insert, else now; each text field as inserted, NULL when left out; createdAt and updatedAt now |
| Users.Merge | server/db.ts:92-94 | applying the update set never changes the row's id, key, createdAt or updatedAt, and an empty update set changes nothing |
| Users.Touch | drizzle/schema.ts:20 | `ON UPDATE CURRENT_TIMESTAMP`: an unchanged row stays as it was; a changed row takes the new values with updatedAt now |
| Users.InsertOnDuplicateKeyUpdate | server/db.ts:92-94 | afterwards some row holds the key; existing rows keep their ids and keys; on conflict the table keeps its size and the counter; without conflict exactly the fresh row is appended and the counter advances |
| Users.MergeChangesOnlySetColumns | server/db.ts:92-94 | on conflict, exactly the update set's columns take its values and no other column but `updatedAt` changes; `updatedAt` moves to now iff some value changed (`onUpdateNow`, drizzle/schema.ts:20) |
| Users.UpsertLeavesExactlyOneRow | server/db.ts:92-94 | afterwards exactly one row holds the key; `openId` stays unique and ids stay fresh |
| Users.UpsertOnConflict | server/db.ts:92-94 | on conflict the table keeps its length and its counter; every other row is unchanged; the matching row changes only in the update-set columns |
| Users.UpsertWithoutConflict | server/db.ts:92-94 | without conflict, exactly one row is appended under the next id |
| Users.FreshUserDefaults | drizzle/schema.ts:12-22 | a new row takes `role` from the insert (default `operator`) and NULL for absent text fields; createdAt and updatedAt are now (FreshUser's ensures, gathered in one lemma) |
| Users.UpsertedUsers | server/db.ts:54-94 | after upsertUser reaches the store some row holds the key, and the table grows by one row exactly when the counter advances by one |
| Users.UpsertRole | server/db.ts:76-82 | the stored role is, in order of preference: the supplied role; `owner` for the owner identity; the existing row's role; `operator` |
| Users.UpsertTextFields | server/db.ts:59-70 | name, email and loginMethod are stored as given when defined; otherwise an existing row keeps them and a new row gets NULL |
| Users.UpsertLastSignedIn | server/db.ts:72-90 | lastSignedIn is the supplied value; else, on a new row, now; else now only if no other column is set; else the old value |
| Users.OwnerKeyOnlyUpsertKeepsLastSignedIn | server/db.ts:76-90 | an owner upsert that supplies only the key sets the role to `owner` and does not refresh lastSignedIn |
| Db.UpsertIntoStore | server/db.ts:92-94 | an upsert changes only the users table and its counter |
| Db.UpsertIntoStoreKeepsStoreValid | server/db.ts:92-94 | an upsert keeps every store constraint |
| Db.DataLayer.UpsertUser | server/db.ts:42-99 | a missing or empty openId throws before `getDb`, with nothing changed; otherwise the handle advances as `getDb` does; with no handle the store is unchanged, otherwise it is the upserted store; store validity is kept |
| Db.AppendAuditLog | server/db.ts:331-345 | exactly one row is appended, under the next id, carrying the given fields and creation time now; every earlier row and every other table is unchanged |
| Db.AppendAuditLogKeepsStoreValid | server/db.ts:331-345 | appending an audit-log row keeps every store constraint, fresh ids among them |
| Db.DataLayer.CreateAuditLog | server/db.ts:331-345 | with no handle the store is unchanged; otherwise exactly one audit-log row is appended |
| Query.Where | server/db.ts:132-137 | WHERE keeps exactly the matching rows, each as often as in the table |
| Query.OrderByDesc | server/db.ts:117-122 | ORDER BY ... DESC yields a non-increasing permutation of the rows |
| Query.Limit | server/db.ts:157-162 | LIMIT n gives the first n rows, or all when there are fewer |
| Query.PrefixKeepsTop | server/db.ts:308-316 | in a sorted sequence, a row outside the first n sorts no higher than any row inside them |
| Query.SelectOrderedLimit | server/db.ts:308-316 | WHERE + ORDER BY DESC + LIMIT: at most n sorted matching rows; a matching row is left out only when n rows came back, and then every returned row sorts at least as high |
| Query.SelectOrdered | server/db.ts:132-137 | WHERE + ORDER BY DESC: exactly the matching rows, each as often as in the table, in non-increasing key order |
| Query.SelectLimit | server/db.ts:157-162 | WHERE + LIMIT: at most n matching rows; one is left out only when n came back |
| Readers.GetUserByOpenId | server/db.ts:101-111 | without a handle, `undefined`; otherwise a row with that openId, present whenever such a row exists |
| Readers.GetUserByOpenIdFindsTheRow | server/db.ts:101-111 | with `openId` unique, the lookup returns exactly the row holding it |
| Readers.GetAllAccounts | server/db.ts:117-122 | every account, newest first; empty without a handle |
| Readers.GetAccountById | server/db.ts:124-130 | without a handle, `undefined`; otherwise an account with that id, present whenever one exists |
| Readers.GetAccountByIdFindsTheRow | server/db.ts:124-130 | with ids unique, the lookup returns exactly the account with that id |
| Readers.GetProjectsByAccount | server/db.ts:132-137 | exactly the account's projects, every copy of each, newest first; empty without a handle |
| Readers.GetAllDomains | server/db.ts:143-148 | every domain, newest first; empty without a handle |
| Readers.GetDomainsByAccount | server/db.ts:150-155 | exactly the account's domains, newest first; empty without a handle |
| Readers.GetPagesByDomain | server/db.ts:157-162 | at most `limit` (default 100) of the domain's pages, with one left out only when `limit` came back; empty without a handle |
| Readers.GetKeywordsByAccount | server/db.ts:168-173 | exactly the account's keywords, newest first; empty without a handle |
| Readers.GetBriefsByAccount | server/db.ts:175-180 | exactly the account's briefs, newest first; empty without a handle |
| Readers.GetPostsByAccount | server/db.ts:182-187 | exactly the account's posts, newest first; empty without a handle |
| Readers.GetPostsByStatus | server/db.ts:189-199 | exactly the account's posts whose status is spelled `status`, newest first; empty without a handle |
| Readers.UnknownPostStatusMatchesNothing | server/db.ts:189-199 | a status string outside the enum matches no post |
| Readers.PostsByStatusRefinesPostsByAccount | server/db.ts:182-199 | the posts of one status are exactly the account's posts that carry it |
| Readers.GetTasksByUser | server/db.ts:205-212 | exactly the tasks assigned to the user, newest first; empty without a handle |
| Readers.TasksByUserSpanAccounts | server/db.ts:205-212 | the filter is on the assignee alone, so the user's tasks from different accounts all come back |
| Readers.GetTasksByAccount | server/db.ts:214-221 | exactly the account's tasks, newest first; empty without a handle |
| Readers.GetIssuesByDomain | server/db.ts:227-234 | exactly the domain's issues, latest `firstSeen` first; empty without a handle |
| Readers.GetCriticalIssues | server/db.ts:236-246 | exactly the issues that are critical AND open, across domains, latest `firstSeen` first; empty without a handle |
| Readers.GetProspectsByAccount | server/db.ts:252-259 | exactly the account's prospects, newest first; empty without a handle |
| Readers.GetLinksByAccount | server/db.ts:261-268 | exactly the account's links, newest first; empty without a handle |
| Readers.GetVerifiedLinks | server/db.ts:270-280 | exactly the account's live links, latest `verifiedAt` first, never-verified links last; empty without a handle |
| Readers.VerifiedOrder | server/db.ts:279 | sorting by `VerifiedKey` is ORDER BY verifiedAt DESC with never-verified links after every verified one |
| Readers.GetGbpsByAccount | server/db.ts:286-293 | exactly the account's business listings, newest first; empty without a handle |
| Readers.GetCallsByGbp | server/db.ts:295-302 | exactly the listing's calls, latest call first; empty without a handle |
| Readers.GetWebhookEventsByAccount | server/db.ts:308-316 | the at most `limit` (default 50) latest-received events of the account; a matching event is left out only when `limit` came back and none returned is older than it |
| Readers.GetWebhookSubscriptionsByAccount | server/db.ts:318-325 | exactly the account's subscriptions, newest first; empty without a handle |
| Readers.GetAuditLogsByAccount | server/db.ts:347-355 | the at most `limit` (default 100) newest audit-log rows of the account, with the same top-`limit` guarantee |
| Readers.DefaultLimits | server/db.ts:157-354 | the defaults of getPagesByDomain (line 157), getWebhookEventsByAccount (line 308) and getAuditLogsByAccount (line 347) are exactly 100, 50 and 100: each bounds its result, and a result that leaves out a matching row has exactly that length |

## Left out

- The React pages under `client/src/pages` are not part of this model. They render hard-coded rows.
- The drizzle/mysql2 driver, SQL text, connection pooling, `async`/`await` and `console` logging are left out. Calls are sequential method calls.
- Store-level errors are left out: a failing statement, the rethrow at server/db.ts:95-98, and an exception inside `createAuditLog`. The store is assumed to accept every write.
- Concurrent upserts and transaction isolation are left out.
- `DATABASE_URL`, whether the driver constructor throws, the owner identity (`server/_core/env` is not part of this model) and the clock are parameters.
- Integer column widths, `varchar` lengths and MySQL's truncation or rejection of over-long values are left out. Ids and timestamps are unbounded naturals.
- Timestamps are whole seconds, the precision of the schema's TIMESTAMP columns. MySQL rounds the milliseconds of a JavaScript `Date` when it stores one; that rounding is left out. `Users.UpsertLastSignedIn` and `Users.BuildUpsertSets` take a supplied `lastSignedIn` as already rounded, and `Users.Touch` compares values after the rounding.
- String comparison follows the column's collation. The schema declares none, so it depends on the server's configuration, and the common defaults ignore case. The model compares strings exactly everywhere. This affects:
  - `Readers.GetPostsByStatus`, which matches the status string;
  - `Users.IndexOfOpenId` and `Users.InsertOnDuplicateKeyUpdate`, which decide whether an upsert conflicts on `openId`;
  - `Readers.GetUserByOpenId`, which looks up `openId`;
  - `Schema.OpenIdsUnique`, `Schema.DomainsUnique` and `Schema.StoreValid`, which model the UNIQUE keys on `users.openId`, `domains.domain`, `roles.name` and `invoices.invoiceNumber`.
- The auto-increment counter is modelled only for `users` and `auditLogs`, the tables this layer inserts into. InnoDB can burn an id on a conflicting upsert; the model does not advance the counter on conflict.
- `userAutoIncrement` and `auditLogAutoIncrement` start at 1 in `EmptyDatabase`. The starting value of a real store is not modelled.
- Rows with equal sort keys come back in table order. SQL leaves their order unspecified, and no contract depends on it.
- The model orders NULL `verifiedAt` last under DESC, as MySQL does.
- The two `new Date()` calls in `upsertUser` are separate clock readings, `signIn` and `emptyUpdate`. The column defaults and `ON UPDATE CURRENT_TIMESTAMP` use the store's reading, `server`.
- `id`, `createdAt` and `updatedAt` given in the argument of `upsertUser` are left out, because `upsertUser` never copies them.
- A JavaScript `Date` is always truthy. So the `!values.lastSignedIn` test at server/db.ts:84 is modelled as "not yet assigned".
- A negative or fractional `limit` is left out. MySQL rejects it; `limit` is a natural number.
- The readers do not modify `DataLayer.handle` themselves. Each takes the result of its own `getDb` call as `db`, and `DataLayer.GetDb` models that call.
- JSON text columns (`settings`, `outline`, `details`, `payloadJson` and the others) are opaque strings.
- The TypeScript type exports (drizzle/schema.ts:472-507) carry no behaviour.
- The tables `emails`, `invoices`, `roles` and `webhookDeliveryLogs` have row types, defaults and constraints but no reader, because `server/db.ts` has none for them.
- Tenant scoping is in the types. `accountId` is `int` on the tenant tables and `Option<int>` on `auditLogs` and `webhookEvents`, as the schema's NOT NULL markings say.
