/**
 * The read functions of server/db.ts, each given its SQL meaning over the
 * tables of the store. Every one first obtains the handle; `db` is what that
 * getDb call returned. With no handle, a list reader returns the empty
 * sequence and a single-row lookup returns `None` (`undefined`).
 *
 * A WHERE clause is a conjunction of equalities; comparing a nullable column
 * with a value never matches NULL, hence `== Some(x)` on those columns.
 */
module Readers {
  import opened Values
  import opened Schema
  import opened Connection
  import opened Query

  // ---------------------------------------------------------------------------
  // Users and accounts
  // ---------------------------------------------------------------------------

  /** getUserByOpenId: SELECT ... WHERE openId = ? LIMIT 1. */
  function GetUserByOpenId(db: Option<Handle>, d: Database, openId: string): (r: Option<User>)
    ensures db.None? ==> r == None
    ensures r.Some? ==> r.value in d.users && r.value.openId == openId
    ensures db.Some? && (exists u :: u in d.users && u.openId == openId) ==> r.Some?
  {
    if db.None? then None
    else
      var rows := SelectLimit(d.users, (u: User) => u.openId == openId, 1);
      if |rows| > 0 then Some(rows[0]) else None
  }

  /** With the unique key in force, the lookup finds precisely the row holding the openId. */
  lemma {:induction false} GetUserByOpenIdFindsTheRow(db: Option<Handle>, d: Database, k: nat)
    requires StoreValid(d) && db.Some? && k < |d.users|
    ensures GetUserByOpenId(db, d, d.users[k].openId) == Some(d.users[k])
  {
    var r := GetUserByOpenId(db, d, d.users[k].openId);
    assert d.users[k] in d.users;
    var j :| 0 <= j < |d.users| && d.users[j] == r.value;
    assert d.users[j].openId == d.users[k].openId;
    assert j == k;
  }

  /** getAllAccounts: every account, newest first. */
  function GetAllAccounts(db: Option<Handle>, d: Database): (r: seq<Account>)
    ensures db.None? ==> r == []
    ensures db.Some? ==> multiset(r) == multiset(d.accounts)
    ensures forall i, j :: 0 <= i < j < |r| ==> r[i].createdAt >= r[j].createdAt
  {
    if db.None? then []
    else
      var r := SelectOrdered(d.accounts, (a: Account) => true, (a: Account) => a.createdAt);
      assert multiset(r) == multiset(d.accounts);
      r
  }

  /** getAccountById: SELECT ... WHERE id = ? LIMIT 1. */
  function GetAccountById(db: Option<Handle>, d: Database, id: int): (r: Option<Account>)
    ensures db.None? ==> r == None
    ensures r.Some? ==> r.value in d.accounts && r.value.id == id
    ensures db.Some? && (exists a :: a in d.accounts && a.id == id) ==> r.Some?
  {
    if db.None? then None
    else
      var rows := SelectLimit(d.accounts, (a: Account) => a.id == id, 1);
      if |rows| > 0 then Some(rows[0]) else None
  }

  /** With primary keys unique, the lookup finds precisely the account with that id. */
  lemma {:induction false} GetAccountByIdFindsTheRow(db: Option<Handle>, d: Database, k: nat)
    requires StoreValid(d) && db.Some? && k < |d.accounts|
    ensures GetAccountById(db, d, d.accounts[k].id) == Some(d.accounts[k])
  {
    var r := GetAccountById(db, d, d.accounts[k].id);
    assert d.accounts[k] in d.accounts;
    var j :| 0 <= j < |d.accounts| && d.accounts[j] == r.value;
    assert d.accounts[j].id == d.accounts[k].id;
    assert j == k;
  }

  /** getProjectsByAccount: the account's projects, newest first. */
  function GetProjectsByAccount(db: Option<Handle>, d: Database, accountId: int): (r: seq<Project>)
    ensures db.None? ==> r == []
    ensures db.Some? ==> forall p :: p in r <==> p in d.projects && p.accountId == accountId
    ensures db.Some? ==> forall p :: multiset(r)[p] == if p.accountId == accountId then multiset(d.projects)[p] else 0
    ensures forall i, j :: 0 <= i < j < |r| ==> r[i].createdAt >= r[j].createdAt
  {
    if db.None? then []
    else SelectOrdered(d.projects, (p: Project) => p.accountId == accountId, (p: Project) => p.createdAt)
  }

  // ---------------------------------------------------------------------------
  // Domains and pages
  // ---------------------------------------------------------------------------

  /** getAllDomains: every domain, newest first. */
  function GetAllDomains(db: Option<Handle>, d: Database): (r: seq<Domain>)
    ensures db.None? ==> r == []
    ensures db.Some? ==> multiset(r) == multiset(d.domains)
    ensures forall i, j :: 0 <= i < j < |r| ==> r[i].createdAt >= r[j].createdAt
  {
    if db.None? then []
    else
      var r := SelectOrdered(d.domains, (x: Domain) => true, (x: Domain) => x.createdAt);
      assert multiset(r) == multiset(d.domains);
      r
  }

  /** getDomainsByAccount: the account's domains, newest first. */
  function GetDomainsByAccount(db: Option<Handle>, d: Database, accountId: int): (r: seq<Domain>)
    ensures db.None? ==> r == []
    ensures db.Some? ==> forall x :: x in r <==> x in d.domains && x.accountId == accountId
    ensures db.Some? ==> forall x :: multiset(r)[x] == if x.accountId == accountId then multiset(d.domains)[x] else 0
    ensures forall i, j :: 0 <= i < j < |r| ==> r[i].createdAt >= r[j].createdAt
  {
    if db.None? then []
    else SelectOrdered(d.domains, (x: Domain) => x.accountId == accountId, (x: Domain) => x.createdAt)
  }

  /**
   * getPagesByDomain: at most `limit` (by default 100) of the domain's pages,
   * in no particular order; a page of the domain is left out only when
   * `limit` pages were returned.
   */
  function GetPagesByDomain(db: Option<Handle>, d: Database, domainId: int, limit: nat := 100): (r: seq<Page>)
    ensures db.None? ==> r == []
    ensures |r| <= limit
    ensures forall p :: p in r ==> p in d.pages && p.domainId == domainId
    ensures multiset(r) <= multiset(d.pages)
    ensures db.Some? ==> forall p :: p in d.pages && p.domainId == domainId && p !in r ==> |r| == limit
  {
    if db.None? then []
    else SelectLimit(d.pages, (p: Page) => p.domainId == domainId, limit)
  }

  // ---------------------------------------------------------------------------
  // Content
  // ---------------------------------------------------------------------------

  /** getKeywordsByAccount: the account's keywords, newest first. */
  function GetKeywordsByAccount(db: Option<Handle>, d: Database, accountId: int): (r: seq<Keyword>)
    ensures db.None? ==> r == []
    ensures db.Some? ==> forall k :: k in r <==> k in d.keywords && k.accountId == accountId
    ensures db.Some? ==> forall k :: multiset(r)[k] == if k.accountId == accountId then multiset(d.keywords)[k] else 0
    ensures forall i, j :: 0 <= i < j < |r| ==> r[i].createdAt >= r[j].createdAt
  {
    if db.None? then []
    else SelectOrdered(d.keywords, (k: Keyword) => k.accountId == accountId, (k: Keyword) => k.createdAt)
  }

  /** getBriefsByAccount: the account's briefs, newest first. */
  function GetBriefsByAccount(db: Option<Handle>, d: Database, accountId: int): (r: seq<Brief>)
    ensures db.None? ==> r == []
    ensures db.Some? ==> forall b :: b in r <==> b in d.briefs && b.accountId == accountId
    ensures db.Some? ==> forall b :: multiset(r)[b] == if b.accountId == accountId then multiset(d.briefs)[b] else 0
    ensures forall i, j :: 0 <= i < j < |r| ==> r[i].createdAt >= r[j].createdAt
  {
    if db.None? then []
    else SelectOrdered(d.briefs, (b: Brief) => b.accountId == accountId, (b: Brief) => b.createdAt)
  }

  /** getPostsByAccount: the account's posts, newest first. */
  function GetPostsByAccount(db: Option<Handle>, d: Database, accountId: int): (r: seq<Post>)
    ensures db.None? ==> r == []
    ensures db.Some? ==> forall p :: p in r <==> p in d.posts && p.accountId == accountId
    ensures db.Some? ==> forall p :: multiset(r)[p] == if p.accountId == accountId then multiset(d.posts)[p] else 0
    ensures forall i, j :: 0 <= i < j < |r| ==> r[i].createdAt >= r[j].createdAt
  {
    if db.None? then []
    else SelectOrdered(d.posts, (p: Post) => p.accountId == accountId, (p: Post) => p.createdAt)
  }

  /**
   * getPostsByStatus: the account's posts whose status is spelled `status`,
   * newest first. The status arrives as an unchecked string.
   */
  function GetPostsByStatus(db: Option<Handle>, d: Database, accountId: int, status: string): (r: seq<Post>)
    ensures db.None? ==> r == []
    ensures db.Some? ==> forall p :: p in r <==> p in d.posts && p.accountId == accountId && PostStatusName(p.status) == status
    ensures db.Some? ==> (forall p :: multiset(r)[p] ==
                            if p.accountId == accountId && PostStatusName(p.status) == status then multiset(d.posts)[p] else 0)
    ensures forall i, j :: 0 <= i < j < |r| ==> r[i].createdAt >= r[j].createdAt
  {
    if db.None? then []
    else SelectOrdered(d.posts, (p: Post) => p.accountId == accountId && PostStatusName(p.status) == status,
                       (p: Post) => p.createdAt)
  }

  /** A status string outside the post-status enum matches no post. */
  lemma {:induction false} UnknownPostStatusMatchesNothing(db: Option<Handle>, d: Database, accountId: int, status: string)
    requires ParsePostStatus(status) == None
    ensures GetPostsByStatus(db, d, accountId, status) == []
  {
    var r := GetPostsByStatus(db, d, accountId, status);
    if r != [] {
      assert r[0] in r;
      PostStatusNamesRoundTrip(r[0].status);
    }
  }

  /** The posts of one status are exactly the account's posts that carry it. */
  lemma {:induction false} PostsByStatusRefinesPostsByAccount(db: Option<Handle>, d: Database, accountId: int, s: PostStatus)
    ensures forall p :: p in GetPostsByStatus(db, d, accountId, PostStatusName(s)) <==>
      p in GetPostsByAccount(db, d, accountId) && p.status == s
  {
    forall p: Post ensures PostStatusName(p.status) == PostStatusName(s) <==> p.status == s {
      PostStatusNamesRoundTrip(p.status);
      PostStatusNamesRoundTrip(s);
    }
  }

  // ---------------------------------------------------------------------------
  // Tasks
  // ---------------------------------------------------------------------------

  /** getTasksByUser: the tasks assigned to the user in any account, newest first. */
  function GetTasksByUser(db: Option<Handle>, d: Database, userId: int): (r: seq<Task>)
    ensures db.None? ==> r == []
    ensures db.Some? ==> forall t :: t in r <==> t in d.tasks && t.assignedTo == Some(userId)
    ensures db.Some? ==> forall t :: multiset(r)[t] == if t.assignedTo == Some(userId) then multiset(d.tasks)[t] else 0
    ensures forall i, j :: 0 <= i < j < |r| ==> r[i].createdAt >= r[j].createdAt
  {
    if db.None? then []
    else SelectOrdered(d.tasks, (t: Task) => t.assignedTo == Some(userId), (t: Task) => t.createdAt)
  }

  /** The filter is on the assignee only: the user's tasks from two different accounts both come back. */
  lemma TasksByUserSpanAccounts(db: Option<Handle>, d: Database, userId: int, t1: Task, t2: Task)
    requires db.Some? && t1 in d.tasks && t2 in d.tasks
    requires t1.assignedTo == Some(userId) && t2.assignedTo == Some(userId) && t1.accountId != t2.accountId
    ensures t1 in GetTasksByUser(db, d, userId) && t2 in GetTasksByUser(db, d, userId)
  {
  }

  /** getTasksByAccount: the account's tasks, newest first. */
  function GetTasksByAccount(db: Option<Handle>, d: Database, accountId: int): (r: seq<Task>)
    ensures db.None? ==> r == []
    ensures db.Some? ==> forall t :: t in r <==> t in d.tasks && t.accountId == accountId
    ensures db.Some? ==> forall t :: multiset(r)[t] == if t.accountId == accountId then multiset(d.tasks)[t] else 0
    ensures forall i, j :: 0 <= i < j < |r| ==> r[i].createdAt >= r[j].createdAt
  {
    if db.None? then []
    else SelectOrdered(d.tasks, (t: Task) => t.accountId == accountId, (t: Task) => t.createdAt)
  }

  // ---------------------------------------------------------------------------
  // Issues
  // ---------------------------------------------------------------------------

  /** getIssuesByDomain: the domain's issues, most recently first seen first. */
  function GetIssuesByDomain(db: Option<Handle>, d: Database, domainId: int): (r: seq<Issue>)
    ensures db.None? ==> r == []
    ensures db.Some? ==> forall x :: x in r <==> x in d.issues && x.domainId == domainId
    ensures db.Some? ==> forall x :: multiset(r)[x] == if x.domainId == domainId then multiset(d.issues)[x] else 0
    ensures forall i, j :: 0 <= i < j < |r| ==> r[i].firstSeen >= r[j].firstSeen
  {
    if db.None? then []
    else SelectOrdered(d.issues, (x: Issue) => x.domainId == domainId, (x: Issue) => x.firstSeen)
  }

  /** getCriticalIssues: the issues, across all domains, that are critical AND open, most recently first seen first. */
  function GetCriticalIssues(db: Option<Handle>, d: Database): (r: seq<Issue>)
    ensures db.None? ==> r == []
    ensures db.Some? ==> forall x :: x in r <==> x in d.issues && x.severity == Critical && x.status == Open
    ensures db.Some? ==> (forall x :: multiset(r)[x] ==
                            if x.severity == Critical && x.status == Open then multiset(d.issues)[x] else 0)
    ensures forall i, j :: 0 <= i < j < |r| ==> r[i].firstSeen >= r[j].firstSeen
  {
    if db.None? then []
    else SelectOrdered(d.issues, (x: Issue) => x.severity == Critical && x.status == Open, (x: Issue) => x.firstSeen)
  }

  // ---------------------------------------------------------------------------
  // Link building
  // ---------------------------------------------------------------------------

  /** getProspectsByAccount: the account's prospects, newest first. */
  function GetProspectsByAccount(db: Option<Handle>, d: Database, accountId: int): (r: seq<Prospect>)
    ensures db.None? ==> r == []
    ensures db.Some? ==> forall p :: p in r <==> p in d.prospects && p.accountId == accountId
    ensures db.Some? ==> forall p :: multiset(r)[p] == if p.accountId == accountId then multiset(d.prospects)[p] else 0
    ensures forall i, j :: 0 <= i < j < |r| ==> r[i].createdAt >= r[j].createdAt
  {
    if db.None? then []
    else SelectOrdered(d.prospects, (p: Prospect) => p.accountId == accountId, (p: Prospect) => p.createdAt)
  }

  /** getLinksByAccount: the account's links, newest first. */
  function GetLinksByAccount(db: Option<Handle>, d: Database, accountId: int): (r: seq<Link>)
    ensures db.None? ==> r == []
    ensures db.Some? ==> forall l :: l in r <==> l in d.links && l.accountId == accountId
    ensures db.Some? ==> forall l :: multiset(r)[l] == if l.accountId == accountId then multiset(d.links)[l] else 0
    ensures forall i, j :: 0 <= i < j < |r| ==> r[i].createdAt >= r[j].createdAt
  {
    if db.None? then []
    else SelectOrdered(d.links, (l: Link) => l.accountId == accountId, (l: Link) => l.createdAt)
  }

  /** The sort key of ORDER BY verifiedAt DESC: MySQL orders NULL below every timestamp. */
  function VerifiedKey(l: Link): int {
    if l.verifiedAt.Some? then l.verifiedAt.value else -1
  }

  /**
   * getVerifiedLinks: the account's live links, most recently verified first,
   * with never-verified links last.
   */
  function GetVerifiedLinks(db: Option<Handle>, d: Database, accountId: int): (r: seq<Link>)
    ensures db.None? ==> r == []
    ensures db.Some? ==> forall l :: l in r <==> l in d.links && l.accountId == accountId && l.status == LinkStatus.Live
    ensures db.Some? ==> (forall l :: multiset(r)[l] ==
                            if l.accountId == accountId && l.status == LinkStatus.Live then multiset(d.links)[l] else 0)
    ensures forall i, j :: 0 <= i < j < |r| && r[j].verifiedAt.Some? ==>
      r[i].verifiedAt.Some? && r[i].verifiedAt.value >= r[j].verifiedAt.value
  {
    if db.None? then []
    else
      var r := SelectOrdered(d.links, (l: Link) => l.accountId == accountId && l.status == LinkStatus.Live, VerifiedKey);
      VerifiedOrder(r);
      r
  }

  /** Non-increasing `VerifiedKey` is ORDER BY verifiedAt DESC with the NULLs at the end. */
  lemma VerifiedOrder(r: seq<Link>)
    requires SortedDesc(r, VerifiedKey)
    ensures forall i, j :: 0 <= i < j < |r| && r[j].verifiedAt.Some? ==>
      r[i].verifiedAt.Some? && r[i].verifiedAt.value >= r[j].verifiedAt.value
  {
    forall i, j | 0 <= i < j < |r| && r[j].verifiedAt.Some?
      ensures r[i].verifiedAt.Some? && r[i].verifiedAt.value >= r[j].verifiedAt.value
    {
      assert VerifiedKey(r[i]) >= VerifiedKey(r[j]) >= 0;
    }
  }

  // ---------------------------------------------------------------------------
  // Business listings and calls
  // ---------------------------------------------------------------------------

  /** getGBPsByAccount: the account's business listings, newest first. */
  function GetGbpsByAccount(db: Option<Handle>, d: Database, accountId: int): (r: seq<Gbp>)
    ensures db.None? ==> r == []
    ensures db.Some? ==> forall g :: g in r <==> g in d.gbps && g.accountId == accountId
    ensures db.Some? ==> forall g :: multiset(r)[g] == if g.accountId == accountId then multiset(d.gbps)[g] else 0
    ensures forall i, j :: 0 <= i < j < |r| ==> r[i].createdAt >= r[j].createdAt
  {
    if db.None? then []
    else SelectOrdered(d.gbps, (g: Gbp) => g.accountId == accountId, (g: Gbp) => g.createdAt)
  }

  /** getCallsByGBP: the calls of one listing, most recent call first. */
  function GetCallsByGbp(db: Option<Handle>, d: Database, gbpId: int): (r: seq<Call>)
    ensures db.None? ==> r == []
    ensures db.Some? ==> forall c :: c in r <==> c in d.calls && c.gbpId == Some(gbpId)
    ensures db.Some? ==> forall c :: multiset(r)[c] == if c.gbpId == Some(gbpId) then multiset(d.calls)[c] else 0
    ensures forall i, j :: 0 <= i < j < |r| ==> r[i].calledAt >= r[j].calledAt
  {
    if db.None? then []
    else SelectOrdered(d.calls, (c: Call) => c.gbpId == Some(gbpId), (c: Call) => c.calledAt)
  }

  // ---------------------------------------------------------------------------
  // Webhooks
  // ---------------------------------------------------------------------------

  /**
   * getWebhookEventsByAccount: the `limit` (by default 50) most recently
   * received events of the account.
   */
  function GetWebhookEventsByAccount(db: Option<Handle>, d: Database, accountId: int, limit: nat := 50)
    : (r: seq<WebhookEvent>)
    ensures db.None? ==> r == []
    ensures |r| <= limit
    ensures forall e :: e in r ==> e in d.webhookEvents && e.accountId == Some(accountId)
    ensures multiset(r) <= multiset(d.webhookEvents)
    ensures forall i, j :: 0 <= i < j < |r| ==> r[i].receivedAt >= r[j].receivedAt
    ensures db.Some? ==> forall e :: e in d.webhookEvents && e.accountId == Some(accountId) && e !in r ==>
      |r| == limit && forall x :: x in r ==> x.receivedAt >= e.receivedAt
  {
    if db.None? then []
    else
      var p := (e: WebhookEvent) => e.accountId == Some(accountId);
      var key := (e: WebhookEvent) => e.receivedAt;
      var r := SelectOrderedLimit(d.webhookEvents, p, key, limit);
      assert forall e :: p(e) <==> e.accountId == Some(accountId);
      assert forall e :: key(e) == e.receivedAt;
      r
  }

  /** getWebhookSubscriptionsByAccount: the account's subscriptions, newest first. */
  function GetWebhookSubscriptionsByAccount(db: Option<Handle>, d: Database, accountId: int)
    : (r: seq<WebhookSubscription>)
    ensures db.None? ==> r == []
    ensures db.Some? ==> forall w :: w in r <==> w in d.webhookSubscriptions && w.accountId == accountId
    ensures db.Some? ==> (forall w :: multiset(r)[w] ==
                            if w.accountId == accountId then multiset(d.webhookSubscriptions)[w] else 0)
    ensures forall i, j :: 0 <= i < j < |r| ==> r[i].createdAt >= r[j].createdAt
  {
    if db.None? then []
    else SelectOrdered(d.webhookSubscriptions, (w: WebhookSubscription) => w.accountId == accountId,
                       (w: WebhookSubscription) => w.createdAt)
  }

  // ---------------------------------------------------------------------------
  // Audit log
  // ---------------------------------------------------------------------------

  /** getAuditLogsByAccount: the `limit` (by default 100) newest audit-log rows of the account. */
  function GetAuditLogsByAccount(db: Option<Handle>, d: Database, accountId: int, limit: nat := 100)
    : (r: seq<AuditLog>)
    ensures db.None? ==> r == []
    ensures |r| <= limit
    ensures forall a :: a in r ==> a in d.auditLogs && a.accountId == Some(accountId)
    ensures multiset(r) <= multiset(d.auditLogs)
    ensures forall i, j :: 0 <= i < j < |r| ==> r[i].createdAt >= r[j].createdAt
    ensures db.Some? ==> forall a :: a in d.auditLogs && a.accountId == Some(accountId) && a !in r ==>
      |r| == limit && forall x :: x in r ==> x.createdAt >= a.createdAt
  {
    if db.None? then []
    else
      var p := (a: AuditLog) => a.accountId == Some(accountId);
      var key := (a: AuditLog) => a.createdAt;
      var r := SelectOrderedLimit(d.auditLogs, p, key, limit);
      assert forall a :: p(a) <==> a.accountId == Some(accountId);
      assert forall a :: key(a) == a.createdAt;
      r
  }

  /**
   * The default limits: 100 pages, 50 webhook events, 100 audit-log rows. Each
   * bounds its result, and a result that leaves out a matching row is exactly
   * that long, so no other number satisfies these clauses.
   */
  lemma DefaultLimits(db: Option<Handle>, d: Database, id: int)
    ensures |GetPagesByDomain(db, d, id)| <= 100
    ensures |GetWebhookEventsByAccount(db, d, id)| <= 50
    ensures |GetAuditLogsByAccount(db, d, id)| <= 100
    ensures db.Some? && (exists p :: p in d.pages && p.domainId == id && p !in GetPagesByDomain(db, d, id)) ==>
      |GetPagesByDomain(db, d, id)| == 100
    ensures db.Some? && (exists e :: e in d.webhookEvents && e.accountId == Some(id) &&
                                     e !in GetWebhookEventsByAccount(db, d, id)) ==>
      |GetWebhookEventsByAccount(db, d, id)| == 50
    ensures db.Some? && (exists a :: a in d.auditLogs && a.accountId == Some(id) &&
                                     a !in GetAuditLogsByAccount(db, d, id)) ==>
      |GetAuditLogsByAccount(db, d, id)| == 100
  {
  }
}
