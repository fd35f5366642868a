/**
 * DmEngine: the cache of domains by app id, the app id a request is served
 * from, and the query pipeline (fix the query when it has search terms,
 * then run it in the domain).
 *
 * Creating a domain (dm_domain_get_for_app_id) reads the disk, so each
 * operation that may create one takes its outcome, `created`, as a
 * parameter: the initialised domain, or the error its creation gave.
 */
module Engines {
  import opened Wrappers
  import opened Errors
  import opened Objects
  import Queries
  import QueryResults
  import Content
  import Xapian
  import Domains
  import DatabaseManager
  import Shards

  /** dm_engine_query's choice of app id: the query's own when it is non-empty, else the engine's default. */
  function RouteAppId(queryAppId: string, defaultAppId: string): string {
    if queryAppId != "" then queryAppId else defaultAppId
  }

  /** The domain get_domain_for_app answers: the cached one, else the outcome of creating one. */
  function Resolved(domains: map<string, Domains.Domain>, appId: string,
                    created: Result<Domains.Domain, Error>): Result<Domains.Domain, Error>
  {
    if appId in domains then Success(domains[appId]) else created
  }

  /** The cache after get_domain_for_app: a newly created domain is inserted under its app id. */
  function Cached(domains: map<string, Domains.Domain>, appId: string,
                  created: Result<Domains.Domain, Error>): map<string, Domains.Domain>
  {
    if appId !in domains && created.Success? then domains[appId := created.value] else domains
  }

  /**
   * Once get_domain_for_app has answered a domain for an app id, it answers
   * that same domain from then on, whatever creating one would give.
   */
  lemma CachedIsStable(domains: map<string, Domains.Domain>, appId: string,
                       created: Result<Domains.Domain, Error>, later: Result<Domains.Domain, Error>)
    requires Resolved(domains, appId, created).Success?
    ensures Resolved(Cached(domains, appId, created), appId, later) == Resolved(domains, appId, created)
  {
  }

  /** The cache only grows, and no entry already there is replaced. */
  lemma CachedKeepsEntries(domains: map<string, Domains.Domain>, appId: string,
                           created: Result<Domains.Domain, Error>)
    ensures forall k | k in domains :: k in Cached(domains, appId, created) && Cached(domains, appId, created)[k] == domains[k]
    ensures forall k | k in Cached(domains, appId, created) && k != appId :: k in domains
  {
  }

  /** The objects running a query in a domain may change: its database manager and that manager's shards. */
  function ManagerFrame(d: Result<Domains.Domain, Error>): set<object> {
    if d.Success? then {d.value.dbManager as object} + set s: object | s in d.value.dbManager.shards else {}
  }

  /**
   * dm_engine_query after the domain is chosen: with non-empty search terms
   * the domain fixes the query first and the fixed query is what runs;
   * without them the query runs as it is. `executed` is the query that ran
   * and `matches` what the database manager returned for it.
   */
  method RunQuery(domain: Domains.Domain, q: Queries.Query, ids: Content.MockIds)
    returns (r: Result<QueryResults.Results, Error>, ghost executed: Option<Queries.Query>,
             ghost matches: Result<Xapian.MSet, Error>)
    requires domain.dbManager.Valid()
    modifies domain.dbManager, ids, set s | s in domain.dbManager.shards
    ensures domain.dbManager.Valid()
    ensures !Queries.HasSearchTerms(q) ==> executed == Some(q)
    ensures Queries.HasSearchTerms(q) && executed.Some? ==>
      exists stop: Option<string>, spell: string :: executed.value == Queries.WithFixes(q, stop, Some(spell))
    ensures var fix := Domains.FixedFrom(q, DatabaseManager.FixOutcome(domain.dbManager.env,
              old(domain.dbManager.Opened()), old(domain.dbManager.ParserAfterOpen()), q.searchTerms));
      && (Queries.HasSearchTerms(q) && fix.Failure? ==> executed.None? && r == Failure(fix.error))
      && (Queries.HasSearchTerms(q) && fix.Success? ==> executed == Some(fix.value))
    ensures executed.Some? ==>
      matches == DatabaseManager.SearchOutcome(domain.dbManager.env, old(domain.dbManager.Opened()),
                   old(domain.dbManager.ParserAfterOpen()), executed.value, Domains.QueryLanguage(domain.language))
    ensures executed.None? ==> r.Failure?
    ensures executed.Some? && matches.Failure? ==> r == Failure(matches.error)
    ensures executed.Some? && matches.Success? ==>
      var b := Domains.Collect(domain.shards, domain.hashOf, ids.digest, matches.value.items, old(ids.count));
      && (b.models.Failure? ==> r == Failure(b.models.error))
      && (b.models.Success? ==>
            && r.Success? && r.value.models == b.models.value
            && r.value.upperBound == Domains.AsCInt(matches.value.upperBound))
  {
    var toRun := q;
    if Queries.HasSearchTerms(q) {
      var fixed := domain.GetFixedQuery(q);
      if fixed.Failure? {
        return Failure(fixed.error), None, Failure(fixed.error);
      }
      toRun := fixed.value;
    }
    executed := Some(toRun);
    r, matches := domain.QueryTask(toRun, ids);
  }

  /** A DmEngine: its default app id, its language and its domains by app id. */
  class Engine {
    const defaultAppId: string
    const language: string
    var domains: map<string, Domains.Domain>

    /** Every cached domain was made for the app id it is cached under, in the engine's language. */
    ghost predicate Valid()
      reads this
    {
      forall k | k in domains :: domains[k].appId == k && domains[k].language == language
    }

    /** dm_engine_init: no domain yet. */
    constructor(defaultAppId: string, language: string)
      ensures this.defaultAppId == defaultAppId && this.language == language
      ensures domains == map[] && Valid()
    {
      this.defaultAppId := defaultAppId;
      this.language := language;
      domains := map[];
    }

    /** What dm_domain_get_for_app_id hands back for `appId` in the engine's language. */
    ghost predicate MadeFor(created: Result<Domains.Domain, Error>, appId: string) {
      created.Success? ==> created.value.appId == appId && created.value.language == language
    }

    /**
     * dm_engine_get_domain_for_app: the cached domain, or a newly created
     * one that is then cached; a creation error is returned and nothing
     * is cached.
     */
    method GetDomainForApp(appId: string, created: Result<Domains.Domain, Error>)
      returns (r: Result<Domains.Domain, Error>)
      requires appId != ""
      requires Valid() && MadeFor(created, appId)
      modifies this
      ensures Valid()
      ensures r == Resolved(old(domains), appId, created)
      ensures r.Success? ==> r.value.appId == appId
      ensures domains == Cached(old(domains), appId, created)
    {
      if appId in domains {
        return Success(domains[appId]);
      }
      if created.Failure? {
        return created;
      }
      domains := domains[appId := created.value];
      r := created;
    }

    /**
     * dm_engine_add_domain_for_path: nothing happens when the app id
     * already has a domain; otherwise the domain created for `path` is
     * cached, or the creation error returned.
     */
    method AddDomainForPath(appId: string, path: string, created: Result<Domains.Domain, Error>)
      returns (err: Option<Error>)
      requires appId != "" && path != ""
      requires Valid() && MadeFor(created, appId) && (created.Success? ==> created.value.path == path)
      modifies this
      ensures Valid()
      ensures domains == Cached(old(domains), appId, created)
      ensures appId in old(domains) ==> err == None
      ensures appId !in old(domains) ==> err == (if created.Failure? then Some(created.error) else None)
      ensures appId !in old(domains) && created.Success? ==> domains[appId].path == path
    {
      if appId in domains {
        return None;
      }
      if created.Failure? {
        return Some(created.error);
      }
      domains := domains[appId := created.value];
      err := None;
    }

    /** dm_engine_get_domain: the domain of the default app id. */
    method GetDomain(created: Result<Domains.Domain, Error>) returns (r: Result<Domains.Domain, Error>)
      requires defaultAppId != ""
      requires Valid() && MadeFor(created, defaultAppId)
      modifies this
      ensures Valid()
      ensures r == Resolved(old(domains), defaultAppId, created)
      ensures domains == Cached(old(domains), defaultAppId, created)
    {
      r := GetDomainForApp(defaultAppId, created);
    }

    /** dm_engine_get_object_for_app: the domain's object for `id`, or the error getting the domain. */
    method GetObjectForApp(id: string, appId: string, created: Result<Domains.Domain, Error>, ids: Content.MockIds)
      returns (r: Result<Model, Error>)
      requires id != "" && appId != ""
      requires Valid() && MadeFor(created, appId)
      modifies this, ids
      ensures Valid()
      ensures domains == Cached(old(domains), appId, created)
      ensures var d := Resolved(old(domains), appId, created);
        && (d.Failure? ==> r == Failure(d.error) && ids.count == old(ids.count))
        && (d.Success? ==>
              Domains.Loaded(r, ids.count)
                == Domains.LoadObject(d.value.shards, d.value.hashOf, id, old(ids.count), ids.digest))
    {
      var d := GetDomainForApp(appId, created);
      if d.Failure? {
        return Failure(d.error);
      }
      r := d.value.GetObject(id, ids);
    }

    /** dm_engine_get_object: get_object_for_app with the default app id. */
    method GetObject(id: string, created: Result<Domains.Domain, Error>, ids: Content.MockIds)
      returns (r: Result<Model, Error>)
      requires id != "" && defaultAppId != ""
      requires Valid() && MadeFor(created, defaultAppId)
      modifies this, ids
      ensures Valid()
      ensures domains == Cached(old(domains), defaultAppId, created)
      ensures var d := Resolved(old(domains), defaultAppId, created);
        && (d.Failure? ==> r == Failure(d.error))
        && (d.Success? ==>
              Domains.Loaded(r, ids.count)
                == Domains.LoadObject(d.value.shards, d.value.hashOf, id, old(ids.count), ids.digest))
    {
      r := GetObjectForApp(id, defaultAppId, created, ids);
    }

    /**
     * dm_engine_test_link_for_app: the ekn URI the domain's link tables
     * give for `link`, or the error getting the domain.
     */
    method TestLinkForApp(link: string, appId: string, created: Result<Domains.Domain, Error>)
      returns (r: Result<Option<string>, Error>)
      requires link != "" && appId != ""
      requires Valid() && MadeFor(created, appId)
      modifies this
      ensures Valid()
      ensures domains == Cached(old(domains), appId, created)
      ensures var d := Resolved(old(domains), appId, created);
        && (d.Failure? ==> r == Failure(d.error))
        && (d.Success? ==> r == Success(Domains.FirstResolution(d.value.linkTables, link)))
    {
      var d := GetDomainForApp(appId, created);
      if d.Failure? {
        return Failure(d.error);
      }
      var uri := d.value.TestLink(link);
      r := Success(uri);
    }

    /** dm_engine_test_link: test_link_for_app with the default app id. */
    method TestLink(link: string, created: Result<Domains.Domain, Error>) returns (r: Result<Option<string>, Error>)
      requires link != "" && defaultAppId != ""
      requires Valid() && MadeFor(created, defaultAppId)
      modifies this
      ensures Valid()
      ensures domains == Cached(old(domains), defaultAppId, created)
      ensures var d := Resolved(old(domains), defaultAppId, created);
        && (d.Failure? ==> r == Failure(d.error))
        && (d.Success? ==> r == Success(Domains.FirstResolution(d.value.linkTables, link)))
    {
      r := TestLinkForApp(link, defaultAppId, created);
    }

    /**
     * dm_engine_query: the query runs in the domain of its own app id, or
     * of the default app id when it has none; an error getting the domain
     * is the query's error.
     */
    method Query(q: Queries.Query, created: Result<Domains.Domain, Error>, ids: Content.MockIds)
      returns (r: Result<QueryResults.Results, Error>, ghost executed: Option<Queries.Query>,
               ghost matches: Result<Xapian.MSet, Error>)
      requires RouteAppId(q.appId, defaultAppId) != ""
      requires Valid() && MadeFor(created, RouteAppId(q.appId, defaultAppId))
      requires var d := Resolved(domains, RouteAppId(q.appId, defaultAppId), created);
        d.Success? ==> d.value.dbManager.Valid()
      modifies this, ids, ManagerFrame(Resolved(domains, RouteAppId(q.appId, defaultAppId), created))
      ensures Valid()
      ensures domains == Cached(old(domains), RouteAppId(q.appId, defaultAppId), created)
      ensures var d := Resolved(old(domains), RouteAppId(q.appId, defaultAppId), created);
        && (d.Failure? ==> r == Failure(d.error) && executed.None?)
        && (d.Success? ==> d.value.appId == RouteAppId(q.appId, defaultAppId) && d.value.dbManager.Valid())
        && (d.Success? && !Queries.HasSearchTerms(q) ==> executed == Some(q))
        && (d.Success? && Queries.HasSearchTerms(q) && executed.Some? ==>
              exists stop: Option<string>, spell: string :: executed.value == Queries.WithFixes(q, stop, Some(spell)))
        && (executed.None? ==> r.Failure?)
      ensures var d := Resolved(old(domains), RouteAppId(q.appId, defaultAppId), created);
        d.Success? ==>
          var fix := Domains.FixedFrom(q, DatabaseManager.FixOutcome(d.value.dbManager.env,
                       old(d.value.dbManager.Opened()), old(d.value.dbManager.ParserAfterOpen()), q.searchTerms));
          && (Queries.HasSearchTerms(q) && fix.Failure? ==> executed.None? && r == Failure(fix.error))
          && (Queries.HasSearchTerms(q) && fix.Success? ==> executed == Some(fix.value))
          && (executed.Some? ==>
                matches == DatabaseManager.SearchOutcome(d.value.dbManager.env, old(d.value.dbManager.Opened()),
                             old(d.value.dbManager.ParserAfterOpen()), executed.value,
                             Domains.QueryLanguage(d.value.language)))
          && (executed.Some? && matches.Failure? ==> r == Failure(matches.error))
          && (executed.Some? && matches.Success? ==>
                var b := Domains.Collect(d.value.shards, d.value.hashOf, ids.digest, matches.value.items, old(ids.count));
                && (b.models.Failure? ==> r == Failure(b.models.error))
                && (b.models.Success? ==>
                      && r.Success? && r.value.models == b.models.value
                      && r.value.upperBound == Domains.AsCInt(matches.value.upperBound)))
    {
      var appId := RouteAppId(q.appId, defaultAppId);
      var d := GetDomainForApp(appId, created);
      if d.Failure? {
        return Failure(d.error), None, Failure(d.error);
      }
      r, executed, matches := RunQuery(d.value, q, ids);
    }
  }
}
