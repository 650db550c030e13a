/**
 * The lazily created database handle of the data-access layer (`_db` and
 * `getDb` in server/db.ts), as a state machine over `Option<Handle>`.
 *
 * A call looks at the connection string only while no handle is stored. If
 * the string is set and non-empty it constructs a handle; a construction that
 * throws leaves the handle unset, so the next call tries again. Once a handle
 * is stored it is returned unchanged by every later call.
 */
module Connection {
  import opened Values

  /** A database handle, identified by the connection string it was built from. */
  datatype Handle = Handle(url: string)

  /** `process.env.DATABASE_URL` is truthy: present and not the empty string. */
  predicate UrlConfigured(databaseUrl: Option<string>) {
    databaseUrl.Some? && databaseUrl.value != ""
  }

  /** A call to getDb in state `h` constructs a handle. */
  predicate Attempts(h: Option<Handle>, databaseUrl: Option<string>) {
    h.None? && UrlConfigured(databaseUrl)
  }

  /**
   * The stored handle after one call to getDb, given the connection string and
   * whether constructing the handle throws.
   */
  function NextHandle(h: Option<Handle>, databaseUrl: Option<string>, constructionFails: bool): (r: Option<Handle>)
    ensures h.Some? ==> r == h
    ensures !UrlConfigured(databaseUrl) || constructionFails ==> r == h
    ensures h.None? && UrlConfigured(databaseUrl) && !constructionFails ==> r == Some(Handle(databaseUrl.value))
  {
    if Attempts(h, databaseUrl) then
      (if constructionFails then None else Some(Handle(databaseUrl.value)))
    else h
  }

  /** One call to getDb: the connection string then seen, and whether construction throws. */
  datatype GetDbCall = GetDbCall(databaseUrl: Option<string>, constructionFails: bool)

  /** The stored handle after a series of calls. */
  function AfterCalls(h: Option<Handle>, calls: seq<GetDbCall>): (r: Option<Handle>)
    ensures r.None? ==> h.None?
    ensures r.Some? && r != h ==>
      h.None? && exists c :: c in calls && UrlConfigured(c.databaseUrl) && r.value.url == c.databaseUrl.value
    decreases |calls|
  {
    if calls == [] then h
    else AfterCalls(NextHandle(h, calls[0].databaseUrl, calls[0].constructionFails), calls[1..])
  }

  /** With no connection string the handle stays unset and nothing is constructed. */
  lemma NoUrlNoHandle(databaseUrl: Option<string>, constructionFails: bool)
    requires !UrlConfigured(databaseUrl)
    ensures NextHandle(None, databaseUrl, constructionFails) == None
    ensures !Attempts(None, databaseUrl)
  {
  }

  /** A stored handle is returned as it is, whatever the environment says now. */
  lemma StoredHandleIsKept(h: Handle, databaseUrl: Option<string>, constructionFails: bool)
    ensures NextHandle(Some(h), databaseUrl, constructionFails) == Some(h)
    ensures !Attempts(Some(h), databaseUrl)
  {
  }

  /** A failed construction is not latched: the handle stays unset and the next call constructs again. */
  lemma FailedConstructionIsRetried(databaseUrl: Option<string>)
    requires UrlConfigured(databaseUrl)
    ensures NextHandle(None, databaseUrl, true) == None
    ensures Attempts(NextHandle(None, databaseUrl, true), databaseUrl)
    ensures NextHandle(NextHandle(None, databaseUrl, true), databaseUrl, false) == Some(Handle(databaseUrl.value))
  {
  }

  /** Over any series of calls, once a handle is stored it never changes. */
  lemma {:induction false} HandleStableOverCalls(h: Handle, calls: seq<GetDbCall>)
    ensures AfterCalls(Some(h), calls) == Some(h)
    decreases |calls|
  {
    if calls != [] {
      HandleStableOverCalls(h, calls[1..]);
    }
  }

  /**
   * The handle after a series of calls is the one built by the first call that
   * constructed successfully; if no call did, there is none.
   */
  lemma {:induction false} FirstSuccessWins(calls: seq<GetDbCall>, k: nat)
    requires k < |calls|
    requires UrlConfigured(calls[k].databaseUrl) && !calls[k].constructionFails
    requires forall j :: 0 <= j < k ==> !UrlConfigured(calls[j].databaseUrl) || calls[j].constructionFails
    ensures AfterCalls(None, calls) == Some(Handle(calls[k].databaseUrl.value))
    decreases k
  {
    if k == 0 {
      HandleStableOverCalls(Handle(calls[0].databaseUrl.value), calls[1..]);
    } else {
      assert NextHandle(None, calls[0].databaseUrl, calls[0].constructionFails) == None;
      FirstSuccessWins(calls[1..], k - 1);
    }
  }
}
