/**
 * The relational schema of the operations dashboard: one row datatype per
 * table, one datatype per closed enum column, the values a fresh insert takes
 * for columns it leaves out, and the uniqueness constraints the store keeps.
 *
 * Conventions: a nullable column has type `Option<T>`; a NOT NULL column has
 * the bare type. `id` columns are auto-incremented primary keys. Integer
 * columns are unbounded here. JSON text columns are opaque strings.
 */
module Schema {
  import opened Values

  // ---------------------------------------------------------------------------
  // Closed enum sets
  // ---------------------------------------------------------------------------

  datatype Role = Owner | Manager | Operator | Va | ClientViewer
  datatype AccountStatus = Active | Paused | Churned
  datatype AccountTier = Basic | Pro | Enterprise
  datatype ProjectStatus = Planning | Active | Paused | Completed
  datatype Cms = Wordpress | Duda | Ghl | Custom
  datatype DomainStatus = Active | Inactive | Pending
  datatype CrawlFrequency = Hourly | Daily | Weekly
  /** `NotFound` is the enum member spelled "404". */
  datatype PageStatus = Live | NotFound | Redirect | Error
  datatype Intent = Informational | Navigational | Commercial | Transactional
  datatype KeywordStatus = Researched | Assigned | Ranking | Achieved
  datatype BriefStatus = Draft | Approved | Assigned
  datatype PostStatus = BriefReady | Drafting | Review | Approved | Published | Indexed
  datatype TaskType = Content | Technical | LinkBuilding | Client | Admin
  datatype TaskStatus = Todo | InProgress | Review | Blocked | Completed
  datatype TaskPriority = Low | Medium | High | Urgent
  datatype IssueSeverity = Critical | High | Medium | Low
  datatype IssueStatus = Open | InProgress | Fixed | Ignored
  datatype ProspectStatus = Identified | Contacted | Replied | Negotiating | Accepted | Rejected
  datatype LinkStatus = Pending | Live | Removed | Nofollow
  datatype LinkType = GuestPost | Editorial | Resource | Directory | Other
  datatype GbpStatus = Pending | Created | Warming | Active | Suspended
  datatype EmailStatus = Draft | Sent | Delivered | Opened | Replied | Bounced
  datatype CallStatus = Answered | Missed | Voicemail
  datatype LeadQuality = Hot | Warm | Cold | Spam
  datatype InvoiceStatus = Draft | Sent | Paid | Overdue | Cancelled
  datatype WebhookEventStatus = Pending | Processing | Processed | Failed

  /** The stored spelling of a role. */
  function RoleName(r: Role): string {
    match r
    case Owner => "owner"
    case Manager => "manager"
    case Operator => "operator"
    case Va => "va"
    case ClientViewer => "client_viewer"
  }

  /** The role a stored string denotes; a string outside the enum denotes none. */
  function ParseRole(s: string): Option<Role> {
    if s == "owner" then Some(Owner)
    else if s == "manager" then Some(Manager)
    else if s == "operator" then Some(Operator)
    else if s == "va" then Some(Va)
    else if s == "client_viewer" then Some(ClientViewer)
    else None
  }

  /** The stored spelling of a post status. */
  function PostStatusName(s: PostStatus): string {
    match s
    case BriefReady => "brief_ready"
    case Drafting => "drafting"
    case Review => "review"
    case Approved => "approved"
    case Published => "published"
    case Indexed => "indexed"
  }

  /** The post status a stored string denotes; a string outside the enum denotes none. */
  function ParsePostStatus(s: string): Option<PostStatus> {
    if s == "brief_ready" then Some(BriefReady)
    else if s == "drafting" then Some(Drafting)
    else if s == "review" then Some(PostStatus.Review)
    else if s == "approved" then Some(PostStatus.Approved)
    else if s == "published" then Some(Published)
    else if s == "indexed" then Some(Indexed)
    else None
  }

  /** The role column is the closed set of five names: every role has a name that parses back to it. */
  lemma RoleNamesRoundTrip(r: Role)
    ensures ParseRole(RoleName(r)) == Some(r)
  {
  }

  /** ... and a string is accepted only if it is the name of the role it parses to. */
  lemma ParseRoleOnlyNames(s: string)
    ensures ParseRole(s).Some? ==> RoleName(ParseRole(s).value) == s
  {
  }

  lemma PostStatusNamesRoundTrip(p: PostStatus)
    ensures ParsePostStatus(PostStatusName(p)) == Some(p)
  {
  }

  lemma ParsePostStatusOnlyNames(s: string)
    ensures ParsePostStatus(s).Some? ==> PostStatusName(ParsePostStatus(s).value) == s
  {
  }

  // ---------------------------------------------------------------------------
  // Row shapes
  // ---------------------------------------------------------------------------

  datatype User = User(
    id: nat,
    openId: string,
    name: Option<string>,
    email: Option<string>,
    loginMethod: Option<string>,
    role: Role,
    createdAt: Instant,
    updatedAt: Instant,
    lastSignedIn: Instant)

  datatype RoleRow = RoleRow(
    id: nat,
    name: string,
    permissions: Option<string>,
    createdAt: Instant)

  datatype AuditLog = AuditLog(
    id: nat,
    userId: Option<int>,
    accountId: Option<int>,
    action: string,
    entityType: Option<string>,
    entityId: Option<int>,
    details: Option<string>,
    ipAddress: Option<string>,
    userAgent: Option<string>,
    createdAt: Instant)

  datatype Account = Account(
    id: nat,
    name: string,
    companyName: Option<string>,
    status: AccountStatus,
    tier: AccountTier,
    ownerId: Option<int>,
    billingEmail: Option<string>,
    monthlyRetainer: Option<int>,
    grossMargin: Option<int>,
    settings: Option<string>,
    createdAt: Instant,
    updatedAt: Instant)

  datatype Project = Project(
    id: nat,
    accountId: int,
    name: string,
    description: Option<string>,
    status: ProjectStatus,
    startDate: Option<Instant>,
    endDate: Option<Instant>,
    budget: Option<int>,
    spentAmount: Option<int>,
    managerId: Option<int>,
    settings: Option<string>,
    createdAt: Instant,
    updatedAt: Instant)

  datatype Domain = Domain(
    id: nat,
    accountId: int,
    projectId: Option<int>,
    domain: string,
    cms: Option<Cms>,
    apiKey: Option<string>,
    status: DomainStatus,
    crawlFrequency: Option<CrawlFrequency>,
    lastCrawlAt: Option<Instant>,
    totalPages: Option<int>,
    indexedPages: Option<int>,
    technicalScore: Option<int>,
    createdAt: Instant,
    updatedAt: Instant)

  datatype Page = Page(
    id: nat,
    domainId: int,
    url: string,
    urlHash: string,
    status: PageStatus,
    cms: Option<string>,
    wordCount: Option<int>,
    hasSchema: Option<bool>,
    schemaTypes: Option<string>,
    internalLinks: Option<int>,
    externalLinks: Option<int>,
    lastCrawlAt: Option<Instant>,
    indexedAt: Option<Instant>,
    title: Option<string>,
    metaDescription: Option<string>,
    h1: Option<string>,
    createdAt: Instant,
    updatedAt: Instant)

  datatype Keyword = Keyword(
    id: nat,
    accountId: int,
    projectId: Option<int>,
    keyword: string,
    searchVolume: Option<int>,
    difficulty: Option<int>,
    cpc: Option<int>,
    intent: Option<Intent>,
    currentRank: Option<int>,
    targetRank: Option<int>,
    assignedPostId: Option<int>,
    status: KeywordStatus,
    createdAt: Instant,
    updatedAt: Instant)

  datatype Brief = Brief(
    id: nat,
    accountId: int,
    projectId: Option<int>,
    keywordId: Option<int>,
    title: string,
    targetKeyword: Option<string>,
    outline: Option<string>,
    serpAnalysis: Option<string>,
    wordCountTarget: Option<int>,
    toneGuidelines: Option<string>,
    internalLinkSuggestions: Option<string>,
    status: BriefStatus,
    assignedTo: Option<int>,
    createdAt: Instant,
    updatedAt: Instant)

  datatype Post = Post(
    id: nat,
    accountId: int,
    projectId: Option<int>,
    domainId: Option<int>,
    briefId: Option<int>,
    slug: Option<string>,
    targetKw: Option<string>,
    outline: Option<string>,
    draftUrl: Option<string>,
    publishUrl: Option<string>,
    serpTarget: Option<int>,
    currentPosition: Option<int>,
    status: PostStatus,
    wordCount: Option<int>,
    authorId: Option<int>,
    publishedAt: Option<Instant>,
    indexedAt: Option<Instant>,
    createdAt: Instant,
    updatedAt: Instant)

  /** The column `type` is called `taskType` here, `type` being a Dafny keyword. */
  datatype Task = Task(
    id: nat,
    accountId: int,
    projectId: Option<int>,
    taskType: TaskType,
    title: string,
    description: Option<string>,
    status: TaskStatus,
    priority: TaskPriority,
    ownerId: Option<int>,
    assignedTo: Option<int>,
    eta: Option<Instant>,
    effort: Option<int>,
    costCode: Option<string>,
    relatedEntityType: Option<string>,
    relatedEntityId: Option<int>,
    completedAt: Option<Instant>,
    createdAt: Instant,
    updatedAt: Instant)

  datatype Issue = Issue(
    id: nat,
    domainId: int,
    pageId: Option<int>,
    severity: IssueSeverity,
    ruleId: string,
    ruleName: Option<string>,
    description: Option<string>,
    status: IssueStatus,
    autoFixable: Option<bool>,
    firstSeen: Instant,
    lastSeen: Instant,
    fixedAt: Option<Instant>,
    assignedTaskId: Option<int>,
    createdAt: Instant,
    updatedAt: Instant)

  datatype Prospect = Prospect(
    id: nat,
    accountId: int,
    projectId: Option<int>,
    domain: string,
    url: Option<string>,
    dr: Option<int>,
    traffic: Option<int>,
    topicRelevance: Option<int>,
    contactEmail: Option<string>,
    contactName: Option<string>,
    status: ProspectStatus,
    outreachTemplate: Option<string>,
    lastContactedAt: Option<Instant>,
    createdAt: Instant,
    updatedAt: Instant)

  datatype Link = Link(
    id: nat,
    accountId: int,
    projectId: Option<int>,
    prospectId: Option<int>,
    sourceUrl: string,
    targetUrl: string,
    dr: Option<int>,
    anchor: Option<string>,
    status: LinkStatus,
    linkType: Option<LinkType>,
    verifiedAt: Option<Instant>,
    lastCheckedAt: Option<Instant>,
    createdAt: Instant,
    updatedAt: Instant)

  datatype Gbp = Gbp(
    id: nat,
    accountId: int,
    projectId: Option<int>,
    state: Option<string>,
    city: Option<string>,
    category: Option<string>,
    businessName: Option<string>,
    status: GbpStatus,
    phone: Option<string>,
    gmail: Option<string>,
    gmailPassword: Option<string>,
    gbpUrl: Option<string>,
    verificationMethod: Option<string>,
    verifiedAt: Option<Instant>,
    createdAt: Instant,
    updatedAt: Instant)

  datatype Email = Email(
    id: nat,
    accountId: int,
    prospectId: Option<int>,
    subject: Option<string>,
    body: Option<string>,
    fromEmail: Option<string>,
    toEmail: Option<string>,
    status: EmailStatus,
    sentAt: Option<Instant>,
    openedAt: Option<Instant>,
    repliedAt: Option<Instant>,
    createdAt: Instant,
    updatedAt: Instant)

  datatype Call = Call(
    id: nat,
    accountId: int,
    gbpId: Option<int>,
    callerPhone: Option<string>,
    receiverPhone: Option<string>,
    duration: Option<int>,
    status: Option<CallStatus>,
    recordingUrl: Option<string>,
    transcription: Option<string>,
    leadQuality: Option<LeadQuality>,
    calledAt: Instant,
    createdAt: Instant)

  datatype Invoice = Invoice(
    id: nat,
    accountId: int,
    invoiceNumber: string,
    status: InvoiceStatus,
    amount: int,
    currency: Option<string>,
    billingPeriodStart: Option<Instant>,
    billingPeriodEnd: Option<Instant>,
    dueDate: Option<Instant>,
    paidAt: Option<Instant>,
    lineItems: Option<string>,
    notes: Option<string>,
    createdAt: Instant,
    updatedAt: Instant)

  datatype WebhookEvent = WebhookEvent(
    id: nat,
    accountId: Option<int>,
    source: string,
    eventType: string,
    payloadJson: string,
    hash: string,
    receivedAt: Instant,
    processedAt: Option<Instant>,
    status: WebhookEventStatus,
    attempts: Option<int>,
    error: Option<string>)

  datatype WebhookSubscription = WebhookSubscription(
    id: nat,
    accountId: int,
    event: string,
    targetUrl: string,
    secret: string,
    headers: Option<string>,
    filterExpr: Option<string>,
    retryMax: Option<int>,
    isEnabled: Option<bool>,
    createdAt: Instant,
    updatedAt: Instant)

  datatype WebhookDeliveryLog = WebhookDeliveryLog(
    id: nat,
    subscriptionId: int,
    eventId: Option<int>,
    statusCode: Option<int>,
    latencyMs: Option<int>,
    attempts: Option<int>,
    responseSnippet: Option<string>,
    deliveredAt: Instant)

  // ---------------------------------------------------------------------------
  // Insert defaults: the row an INSERT produces when it supplies only the
  // columns that are NOT NULL without a default. `now` is the server's
  // CURRENT_TIMESTAMP, used by every defaultNow() column; `id` is the value
  // the auto-increment counter hands out.
  // ---------------------------------------------------------------------------

  /** roles: the name as given, no permissions. */
  function NewRoleRow(id: nat, now: Instant, name: string): (r: RoleRow)
    ensures r.id == id && r.name == name && r.permissions == None && r.createdAt == now
  {
    RoleRow(id, name, None, now)
  }

  /** accounts: status 'active', tier 'basic', retainer 0. */
  function NewAccount(id: nat, now: Instant, name: string): (r: Account)
    ensures r.id == id && r.name == name
    ensures r.status == AccountStatus.Active && r.tier == Basic && r.monthlyRetainer == Some(0)
    ensures r.ownerId == None && r.createdAt == now && r.updatedAt == now
  {
    Account(id, name, None, AccountStatus.Active, Basic, None, None, Some(0), None, None, now, now)
  }

  /** projects: status 'planning', nothing spent. */
  function NewProject(id: nat, now: Instant, accountId: int, name: string): (r: Project)
    ensures r.id == id && r.accountId == accountId && r.name == name
    ensures r.status == Planning && r.spentAmount == Some(0) && r.managerId == None
    ensures r.createdAt == now && r.updatedAt == now
  {
    Project(id, accountId, name, None, Planning, None, None, None, Some(0), None, None, now, now)
  }

  /** domains: status 'active', crawled daily, page counts 0. */
  function NewDomain(id: nat, now: Instant, accountId: int, domain: string): (r: Domain)
    ensures r.id == id && r.accountId == accountId && r.domain == domain
    ensures r.status == DomainStatus.Active && r.crawlFrequency == Some(Daily)
    ensures r.totalPages == Some(0) && r.indexedPages == Some(0) && r.cms == None
    ensures r.createdAt == now && r.updatedAt == now
  {
    Domain(id, accountId, None, domain, None, None, DomainStatus.Active, Some(Daily), None,
           Some(0), Some(0), None, now, now)
  }

  /** pages: status 'live', no schema markup, link counts 0. */
  function NewPage(id: nat, now: Instant, domainId: int, url: string, urlHash: string): (r: Page)
    ensures r.id == id && r.domainId == domainId && r.url == url && r.urlHash == urlHash
    ensures r.status == PageStatus.Live && r.hasSchema == Some(false)
    ensures r.internalLinks == Some(0) && r.externalLinks == Some(0)
    ensures r.createdAt == now && r.updatedAt == now
  {
    Page(id, domainId, url, urlHash, PageStatus.Live, None, None, Some(false), None, Some(0), Some(0),
         None, None, None, None, None, now, now)
  }

  /** keywords: status 'researched', unranked. */
  function NewKeyword(id: nat, now: Instant, accountId: int, keyword: string): (r: Keyword)
    ensures r.id == id && r.accountId == accountId && r.keyword == keyword
    ensures r.status == Researched && r.currentRank == None && r.assignedPostId == None
    ensures r.createdAt == now && r.updatedAt == now
  {
    Keyword(id, accountId, None, keyword, None, None, None, None, None, None, None, Researched, now, now)
  }

  /** briefs: status 'draft', unassigned. */
  function NewBrief(id: nat, now: Instant, accountId: int, title: string): (r: Brief)
    ensures r.id == id && r.accountId == accountId && r.title == title
    ensures r.status == BriefStatus.Draft && r.assignedTo == None
    ensures r.createdAt == now && r.updatedAt == now
  {
    Brief(id, accountId, None, None, title, None, None, None, None, None, None, BriefStatus.Draft, None, now, now)
  }

  /** posts: status 'brief_ready', unpublished. */
  function NewPost(id: nat, now: Instant, accountId: int): (r: Post)
    ensures r.id == id && r.accountId == accountId
    ensures r.status == BriefReady && r.publishedAt == None && r.indexedAt == None
    ensures r.createdAt == now && r.updatedAt == now
  {
    Post(id, accountId, None, None, None, None, None, None, None, None, None, None, BriefReady,
         None, None, None, None, now, now)
  }

  /** tasks: status 'todo', priority 'medium', unassigned. */
  function NewTask(id: nat, now: Instant, accountId: int, taskType: TaskType, title: string): (r: Task)
    ensures r.id == id && r.accountId == accountId && r.taskType == taskType && r.title == title
    ensures r.status == Todo && r.priority == TaskPriority.Medium && r.assignedTo == None
    ensures r.completedAt == None && r.createdAt == now && r.updatedAt == now
  {
    Task(id, accountId, None, taskType, title, None, Todo, TaskPriority.Medium, None, None, None, None,
         None, None, None, None, now, now)
  }

  /** issues: severity 'medium', status 'open', not auto-fixable, first and last seen now. */
  function NewIssue(id: nat, now: Instant, domainId: int, ruleId: string): (r: Issue)
    ensures r.id == id && r.domainId == domainId && r.ruleId == ruleId
    ensures r.severity == IssueSeverity.Medium && r.status == Open && r.autoFixable == Some(false)
    ensures r.firstSeen == now && r.lastSeen == now && r.fixedAt == None
    ensures r.createdAt == now && r.updatedAt == now
  {
    Issue(id, domainId, None, IssueSeverity.Medium, ruleId, None, None, Open, Some(false), now, now,
          None, None, now, now)
  }

  /** prospects: status 'identified', never contacted. */
  function NewProspect(id: nat, now: Instant, accountId: int, domain: string): (r: Prospect)
    ensures r.id == id && r.accountId == accountId && r.domain == domain
    ensures r.status == Identified && r.lastContactedAt == None
    ensures r.createdAt == now && r.updatedAt == now
  {
    Prospect(id, accountId, None, domain, None, None, None, None, None, None, Identified, None, None, now, now)
  }

  /** links: status 'pending', never verified. */
  function NewLink(id: nat, now: Instant, accountId: int, sourceUrl: string, targetUrl: string): (r: Link)
    ensures r.id == id && r.accountId == accountId && r.sourceUrl == sourceUrl && r.targetUrl == targetUrl
    ensures r.status == LinkStatus.Pending && r.verifiedAt == None && r.linkType == None
    ensures r.createdAt == now && r.updatedAt == now
  {
    Link(id, accountId, None, None, sourceUrl, targetUrl, None, None, LinkStatus.Pending, None, None, None, now, now)
  }

  /** gbps: status 'pending', never verified. */
  function NewGbp(id: nat, now: Instant, accountId: int): (r: Gbp)
    ensures r.id == id && r.accountId == accountId
    ensures r.status == GbpStatus.Pending && r.verifiedAt == None
    ensures r.createdAt == now && r.updatedAt == now
  {
    Gbp(id, accountId, None, None, None, None, None, GbpStatus.Pending, None, None, None, None, None, None, now, now)
  }

  /** emails: status 'draft', never sent. */
  function NewEmail(id: nat, now: Instant, accountId: int): (r: Email)
    ensures r.id == id && r.accountId == accountId
    ensures r.status == EmailStatus.Draft && r.sentAt == None
    ensures r.createdAt == now && r.updatedAt == now
  {
    Email(id, accountId, None, None, None, None, None, EmailStatus.Draft, None, None, None, now, now)
  }

  /** calls: the call time as given, no status or lead quality; calls have no updatedAt. */
  function NewCall(id: nat, now: Instant, accountId: int, calledAt: Instant): (r: Call)
    ensures r.id == id && r.accountId == accountId && r.calledAt == calledAt
    ensures r.status == None && r.leadQuality == None && r.gbpId == None && r.createdAt == now
  {
    Call(id, accountId, None, None, None, None, None, None, None, None, calledAt, now)
  }

  /** invoices: status 'draft', currency 'USD', unpaid. */
  function NewInvoice(id: nat, now: Instant, accountId: int, invoiceNumber: string, amount: int): (r: Invoice)
    ensures r.id == id && r.accountId == accountId && r.invoiceNumber == invoiceNumber && r.amount == amount
    ensures r.status == InvoiceStatus.Draft && r.currency == Some("USD") && r.paidAt == None
    ensures r.createdAt == now && r.updatedAt == now
  {
    Invoice(id, accountId, invoiceNumber, InvoiceStatus.Draft, amount, Some("USD"), None, None, None, None,
            None, None, now, now)
  }

  /** webhookEvents: no account, status 'pending', 0 attempts, received now. */
  function NewWebhookEvent(id: nat, now: Instant, source: string, eventType: string,
                           payloadJson: string, hash: string): (r: WebhookEvent)
    ensures r.id == id && r.source == source && r.eventType == eventType
    ensures r.payloadJson == payloadJson && r.hash == hash
    ensures r.accountId == None && r.status == WebhookEventStatus.Pending && r.attempts == Some(0)
    ensures r.receivedAt == now && r.processedAt == None
  {
    WebhookEvent(id, None, source, eventType, payloadJson, hash, now, None, WebhookEventStatus.Pending, Some(0), None)
  }

  /** webhookSubscriptions: up to 5 retries, enabled. */
  function NewWebhookSubscription(id: nat, now: Instant, accountId: int, event: string,
                                  targetUrl: string, secret: string): (r: WebhookSubscription)
    ensures r.id == id && r.accountId == accountId && r.event == event
    ensures r.targetUrl == targetUrl && r.secret == secret
    ensures r.retryMax == Some(5) && r.isEnabled == Some(true)
    ensures r.createdAt == now && r.updatedAt == now
  {
    WebhookSubscription(id, accountId, event, targetUrl, secret, None, None, Some(5), Some(true), now, now)
  }

  /** webhookDeliveryLogs: one attempt, delivered now. */
  function NewWebhookDeliveryLog(id: nat, now: Instant, subscriptionId: int): (r: WebhookDeliveryLog)
    ensures r.id == id && r.subscriptionId == subscriptionId
    ensures r.attempts == Some(1) && r.statusCode == None && r.deliveredAt == now
  {
    WebhookDeliveryLog(id, subscriptionId, None, None, None, Some(1), None, now)
  }

  /** The column defaults the schema declares for a fresh insert. */
  lemma InsertDefaults(id: nat, now: Instant, accountId: int, domainId: int, s: string, t: TaskType)
    ensures NewAccount(id, now, s).status == AccountStatus.Active
    ensures NewAccount(id, now, s).tier == Basic && NewAccount(id, now, s).monthlyRetainer == Some(0)
    ensures NewProject(id, now, accountId, s).status == Planning
    ensures NewProject(id, now, accountId, s).spentAmount == Some(0)
    ensures NewPost(id, now, accountId).status == BriefReady
    ensures NewKeyword(id, now, accountId, s).status == Researched
    ensures NewTask(id, now, accountId, t, s).status == Todo
    ensures NewTask(id, now, accountId, t, s).priority == TaskPriority.Medium
    ensures NewIssue(id, now, domainId, s).status == Open
    ensures NewIssue(id, now, domainId, s).severity == IssueSeverity.Medium
    ensures NewIssue(id, now, domainId, s).firstSeen == now
    ensures NewWebhookEvent(id, now, s, s, s, s).status == WebhookEventStatus.Pending
    ensures NewWebhookEvent(id, now, s, s, s, s).attempts == Some(0)
    ensures NewWebhookEvent(id, now, s, s, s, s).accountId == None
    ensures NewInvoice(id, now, accountId, s, 0).currency == Some("USD")
    ensures NewWebhookSubscription(id, now, accountId, s, s, s).retryMax == Some(5)
  {
  }

  // ---------------------------------------------------------------------------
  // The store: every table, and the auto-increment counters of the tables
  // this layer inserts into.
  // ---------------------------------------------------------------------------

  datatype Database = Database(
    users: seq<User>,
    userAutoIncrement: nat,
    roles: seq<RoleRow>,
    auditLogs: seq<AuditLog>,
    auditLogAutoIncrement: nat,
    accounts: seq<Account>,
    projects: seq<Project>,
    domains: seq<Domain>,
    pages: seq<Page>,
    keywords: seq<Keyword>,
    briefs: seq<Brief>,
    posts: seq<Post>,
    tasks: seq<Task>,
    issues: seq<Issue>,
    prospects: seq<Prospect>,
    links: seq<Link>,
    gbps: seq<Gbp>,
    emails: seq<Email>,
    calls: seq<Call>,
    invoices: seq<Invoice>,
    webhookEvents: seq<WebhookEvent>,
    webhookSubscriptions: seq<WebhookSubscription>,
    webhookDeliveryLogs: seq<WebhookDeliveryLog>)

  /** No two users share an openId: the UNIQUE constraint on `users.openId`. */
  predicate OpenIdsUnique(users: seq<User>)
    ensures OpenIdsUnique(users) ==>
      forall i, j :: 0 <= i < |users| && 0 <= j < |users| && users[i].openId == users[j].openId ==> i == j
  {
    forall i, j :: 0 <= i < j < |users| ==> users[i].openId != users[j].openId
  }

  /** Users carry distinct ids, all below the auto-increment counter. */
  predicate UserIdsFresh(users: seq<User>, next: nat) {
    (forall i :: 0 <= i < |users| ==> users[i].id < next) &&
    (forall i, j :: 0 <= i < j < |users| ==> users[i].id != users[j].id)
  }

  /** Audit-log rows carry distinct ids, all below the auto-increment counter. */
  predicate AuditLogIdsFresh(logs: seq<AuditLog>, next: nat) {
    (forall i :: 0 <= i < |logs| ==> logs[i].id < next) &&
    (forall i, j :: 0 <= i < j < |logs| ==> logs[i].id != logs[j].id)
  }

  // The primary key of each remaining table: no two rows share an id.

  predicate AccountIdsUnique(rows: seq<Account>) {
    forall i, j :: 0 <= i < j < |rows| ==> rows[i].id != rows[j].id
  }

  predicate ProjectIdsUnique(rows: seq<Project>) {
    forall i, j :: 0 <= i < j < |rows| ==> rows[i].id != rows[j].id
  }

  predicate PageIdsUnique(rows: seq<Page>) {
    forall i, j :: 0 <= i < j < |rows| ==> rows[i].id != rows[j].id
  }

  predicate KeywordIdsUnique(rows: seq<Keyword>) {
    forall i, j :: 0 <= i < j < |rows| ==> rows[i].id != rows[j].id
  }

  predicate BriefIdsUnique(rows: seq<Brief>) {
    forall i, j :: 0 <= i < j < |rows| ==> rows[i].id != rows[j].id
  }

  predicate PostIdsUnique(rows: seq<Post>) {
    forall i, j :: 0 <= i < j < |rows| ==> rows[i].id != rows[j].id
  }

  predicate TaskIdsUnique(rows: seq<Task>) {
    forall i, j :: 0 <= i < j < |rows| ==> rows[i].id != rows[j].id
  }

  predicate IssueIdsUnique(rows: seq<Issue>) {
    forall i, j :: 0 <= i < j < |rows| ==> rows[i].id != rows[j].id
  }

  predicate ProspectIdsUnique(rows: seq<Prospect>) {
    forall i, j :: 0 <= i < j < |rows| ==> rows[i].id != rows[j].id
  }

  predicate LinkIdsUnique(rows: seq<Link>) {
    forall i, j :: 0 <= i < j < |rows| ==> rows[i].id != rows[j].id
  }

  predicate GbpIdsUnique(rows: seq<Gbp>) {
    forall i, j :: 0 <= i < j < |rows| ==> rows[i].id != rows[j].id
  }

  predicate EmailIdsUnique(rows: seq<Email>) {
    forall i, j :: 0 <= i < j < |rows| ==> rows[i].id != rows[j].id
  }

  predicate CallIdsUnique(rows: seq<Call>) {
    forall i, j :: 0 <= i < j < |rows| ==> rows[i].id != rows[j].id
  }

  predicate WebhookEventIdsUnique(rows: seq<WebhookEvent>) {
    forall i, j :: 0 <= i < j < |rows| ==> rows[i].id != rows[j].id
  }

  predicate WebhookSubscriptionIdsUnique(rows: seq<WebhookSubscription>) {
    forall i, j :: 0 <= i < j < |rows| ==> rows[i].id != rows[j].id
  }

  predicate WebhookDeliveryLogIdsUnique(rows: seq<WebhookDeliveryLog>) {
    forall i, j :: 0 <= i < j < |rows| ==> rows[i].id != rows[j].id
  }

  /** The primary key of `roles` and its UNIQUE `name`. */
  predicate RolesUnique(rows: seq<RoleRow>) {
    forall i, j :: 0 <= i < j < |rows| ==> rows[i].id != rows[j].id && rows[i].name != rows[j].name
  }

  /** The primary key of `invoices` and its UNIQUE `invoiceNumber`. */
  predicate InvoicesUnique(rows: seq<Invoice>) {
    forall i, j :: 0 <= i < j < |rows| ==> rows[i].id != rows[j].id && rows[i].invoiceNumber != rows[j].invoiceNumber
  }

  /** The UNIQUE index `domain_unique` together with the primary key of `domains`. */
  predicate DomainsUnique(domains: seq<Domain>)
    ensures DomainsUnique(domains) ==>
      forall i, j :: 0 <= i < |domains| && 0 <= j < |domains| && domains[i].domain == domains[j].domain ==> i == j
  {
    forall i, j :: 0 <= i < j < |domains| ==> domains[i].id != domains[j].id && domains[i].domain != domains[j].domain
  }

  /**
   * Every constraint the schema declares: primary keys are unique in every
   * table, and so are `users.openId`, `roles.name`, `domains.domain` and
   * `invoices.invoiceNumber`. The indexes on `pages.urlHash` and
   * `webhookEvents.hash` are plain (non-unique) indexes and constrain nothing.
   */
  predicate StoreValid(d: Database) {
    && OpenIdsUnique(d.users)
    && UserIdsFresh(d.users, d.userAutoIncrement)
    && AuditLogIdsFresh(d.auditLogs, d.auditLogAutoIncrement)
    && RolesUnique(d.roles)
    && AccountIdsUnique(d.accounts)
    && ProjectIdsUnique(d.projects)
    && DomainsUnique(d.domains)
    && PageIdsUnique(d.pages)
    && KeywordIdsUnique(d.keywords)
    && BriefIdsUnique(d.briefs)
    && PostIdsUnique(d.posts)
    && TaskIdsUnique(d.tasks)
    && IssueIdsUnique(d.issues)
    && ProspectIdsUnique(d.prospects)
    && LinkIdsUnique(d.links)
    && GbpIdsUnique(d.gbps)
    && EmailIdsUnique(d.emails)
    && CallIdsUnique(d.calls)
    && InvoicesUnique(d.invoices)
    && WebhookEventIdsUnique(d.webhookEvents)
    && WebhookSubscriptionIdsUnique(d.webhookSubscriptions)
    && WebhookDeliveryLogIdsUnique(d.webhookDeliveryLogs)
  }

  /** A store with every table empty and both counters at 1. */
  function EmptyDatabase(): (d: Database)
    ensures StoreValid(d)
    ensures d.users == [] && d.auditLogs == []
  {
    Database([], 1, [], [], 1, [], [], [], [], [], [], [], [], [], [], [], [], [], [], [], [], [], [])
  }

  // ---------------------------------------------------------------------------
  // What the constraints do and do not forbid
  // ---------------------------------------------------------------------------

  /**
   * Status columns carry no transition rule: overwriting any post's status with
   * any member of the enum, whatever the current one, keeps the store valid.
   */
  lemma {:induction false} AnyPostStatusMayReplaceAny(d: Database, i: nat, s: PostStatus)
    requires StoreValid(d) && i < |d.posts|
    ensures StoreValid(d.(posts := d.posts[i := d.posts[i].(status := s)]))
  {
    var posts := d.posts[i := d.posts[i].(status := s)];
    forall a, b | 0 <= a < b < |posts| ensures posts[a].id != posts[b].id {
      assert posts[a].id == d.posts[a].id && posts[b].id == d.posts[b].id;
    }
  }

  /** The same holds for the keyword pipeline. */
  lemma {:induction false} AnyKeywordStatusMayReplaceAny(d: Database, i: nat, s: KeywordStatus)
    requires StoreValid(d) && i < |d.keywords|
    ensures StoreValid(d.(keywords := d.keywords[i := d.keywords[i].(status := s)]))
  {
    var keywords := d.keywords[i := d.keywords[i].(status := s)];
    forall a, b | 0 <= a < b < |keywords| ensures keywords[a].id != keywords[b].id {
      assert keywords[a].id == d.keywords[a].id && keywords[b].id == d.keywords[b].id;
    }
  }

  /**
   * `pages.urlHash` is only indexed: a page with a fresh id may repeat the
   * urlHash of a page already stored.
   */
  lemma {:induction false} DuplicateUrlHashAllowed(d: Database, p: Page)
    requires StoreValid(d)
    requires forall q :: q in d.pages ==> q.id != p.id
    ensures StoreValid(d.(pages := d.pages + [p]))
  {
    var pages := d.pages + [p];
    forall a, b | 0 <= a < b < |pages| ensures pages[a].id != pages[b].id {
      if b == |d.pages| {
        assert pages[a] in d.pages;
      } else {
        assert pages[a] == d.pages[a] && pages[b] == d.pages[b];
      }
    }
  }

  /** `webhookEvents.hash` is only indexed as well: the store does not deduplicate events. */
  lemma {:induction false} DuplicateWebhookHashAllowed(d: Database, e: WebhookEvent)
    requires StoreValid(d)
    requires forall q :: q in d.webhookEvents ==> q.id != e.id
    ensures StoreValid(d.(webhookEvents := d.webhookEvents + [e]))
  {
    var events := d.webhookEvents + [e];
    forall a, b | 0 <= a < b < |events| ensures events[a].id != events[b].id {
      if b == |d.webhookEvents| {
        assert events[a] in d.webhookEvents;
      } else {
        assert events[a] == d.webhookEvents[a] && events[b] == d.webhookEvents[b];
      }
    }
  }

  /** `domains.domain` is unique: a second row with an existing domain name violates the store. */
  lemma DuplicateDomainRejected(d: Database, q: Domain)
    requires exists r :: r in d.domains && r.domain == q.domain
    ensures !StoreValid(d.(domains := d.domains + [q]))
  {
    var r :| r in d.domains && r.domain == q.domain;
    var k :| 0 <= k < |d.domains| && d.domains[k] == r;
    var domains := d.domains + [q];
    assert domains[k] == r && domains[|d.domains|] == q;
  }
}
