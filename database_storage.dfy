/** The database-backed repository and its read-through cache. The tables
    are sequences of rows; the cache is a map from key to cached value. The
    model keeps one invariant beside the table constraints: every cached
    value is what its query returns on the tables as they are now. Row ids
    (`crypto.randomUUID`), password hashing and comparison are parameters. */
module DbStorage {
  import opened Wrappers
  import opened Strings
  import opened Seqs
  import opened Json
  import Errors

  // ---------------------------------------------------------------- rows

  datatype ProjectRow = ProjectRow(id: string, slug: string, name: string, projectType: string, featured: bool, active: bool)

  datatype LeadRow = LeadRow(id: string, name: string, email: string, phone: string, source: string, status: string)

  datatype UserRow = UserRow(id: string, email: string, name: string, password: string)

  /** A user as returned to callers: without the password. */
  datatype PublicUser = PublicUser(id: string, email: string, name: string)

  function WithoutPassword(u: UserRow): (r: PublicUser)
    ensures r.id == u.id && r.email == u.email && r.name == u.name
  {
    PublicUser(u.id, u.email, u.name)
  }

  datatype StorageError = AppErr(err: Errors.AppError) | DbErr(pgCode: string)

  /** The unique-violation code Postgres reports for a duplicate key. */
  const UniqueViolation := "23505"

  // ---------------------------------------------------------------- queries and cache keys

  datatype ProjectQuery = ProjectQuery(projectType: Option<string>, featured: Option<bool>, limit: Option<nat>, offset: Option<nat>)

  datatype LeadQuery = LeadQuery(status: Option<string>, source: Option<string>, limit: Option<nat>, offset: Option<nat>)

  /** The query behind each kind of cache entry. */
  datatype CacheQuery =
    | ProjectsQ(pq: Option<ProjectQuery>)
    | SlugQ(slug: string)
    | LeadsQ(lq: Option<LeadQuery>)
    | EmailQ(email: string)

  datatype CacheValue = CProjects(projects: seq<ProjectRow>) | CProject(project: ProjectRow) | CLeads(leads: seq<LeadRow>) | CUser(user: UserRow)

  /** `getCacheKey(prefix, params)`: the prefix alone when there are no
      parameters, otherwise the prefix, ':' and the parameters as JSON. */
  function GetCacheKey(prefix: string, params: Option<Entries>): (r: string)
    ensures params.None? ==> r == prefix
    ensures params.Some? ==> r == prefix + ":" + Stringify(params.value)
  {
    if params.Some? then prefix + ":" + Stringify(params.value) else prefix
  }

  function StrMember(name: string, v: Option<string>): Entries {
    if v.Some? then [(name, JStr(v.value))] else []
  }

  function BoolMember(name: string, v: Option<bool>): Entries {
    if v.Some? then [(name, JBool(v.value))] else []
  }

  function NatMember(name: string, v: Option<nat>): Entries {
    if v.Some? then [(name, JNat(v.value))] else []
  }

  /** The parsed query object's members, in schema order; absent members are
      `undefined` and `JSON.stringify` leaves them out. */
  function ProjectQueryEntries(q: ProjectQuery): Entries {
    StrMember("type", q.projectType) + BoolMember("featured", q.featured) +
    NatMember("limit", q.limit) + NatMember("offset", q.offset)
  }

  function LeadQueryEntries(q: LeadQuery): Entries {
    StrMember("status", q.status) + StrMember("source", q.source) +
    NatMember("limit", q.limit) + NatMember("offset", q.offset)
  }

  function ProjectQueryParams(q: Option<ProjectQuery>): Option<Entries> {
    if q.Some? then Some(ProjectQueryEntries(q.value)) else None
  }

  function LeadQueryParams(q: Option<LeadQuery>): Option<Entries> {
    if q.Some? then Some(LeadQueryEntries(q.value)) else None
  }

  /** The key each read method caches its result under. */
  function KeyOf(cq: CacheQuery): string {
    match cq
    case ProjectsQ(q) => GetCacheKey("projects", ProjectQueryParams(q))
    case SlugQ(s) => GetCacheKey("project", Some([("slug", JStr(s))]))
    case LeadsQ(q) => GetCacheKey("leads", LeadQueryParams(q))
    case EmailQ(e) => GetCacheKey("user", Some([("email", JStr(e))]))
  }

  /** The value of the first member named `name`. */
  function MemberValue(es: Entries, name: string): Option<Value> {
    if |es| == 0 then None
    else if es[0].0 == name then Some(es[0].1)
    else MemberValue(es[1..], name)
  }

  lemma {:induction false} MemberValueConcat(a: Entries, b: Entries, name: string)
    ensures MemberValue(a + b, name) == if MemberValue(a, name).Some? then MemberValue(a, name) else MemberValue(b, name)
  {
    if |a| == 0 {
      assert a + b == b;
    } else {
      assert (a + b)[0] == a[0];
      assert (a + b)[1..] == a[1..] + b;
      MemberValueConcat(a[1..], b, name);
    }
  }

  lemma FourMembers(a: Entries, b: Entries, c: Entries, d: Entries, name: string)
    ensures MemberValue(a + b + c + d, name) ==
      if MemberValue(a, name).Some? then MemberValue(a, name)
      else if MemberValue(b, name).Some? then MemberValue(b, name)
      else if MemberValue(c, name).Some? then MemberValue(c, name)
      else MemberValue(d, name)
  {
    assert a + b + c + d == a + (b + (c + d));
    MemberValueConcat(a, b + (c + d), name);
    MemberValueConcat(b, c + d, name);
    MemberValueConcat(c, d, name);
  }

  lemma ProjectQueryMembers(q: ProjectQuery)
    ensures MemberValue(ProjectQueryEntries(q), "type") == if q.projectType.Some? then Some(JStr(q.projectType.value)) else None
    ensures MemberValue(ProjectQueryEntries(q), "featured") == if q.featured.Some? then Some(JBool(q.featured.value)) else None
    ensures MemberValue(ProjectQueryEntries(q), "limit") == if q.limit.Some? then Some(JNat(q.limit.value)) else None
    ensures MemberValue(ProjectQueryEntries(q), "offset") == if q.offset.Some? then Some(JNat(q.offset.value)) else None
  {
    var a, b, c, d := StrMember("type", q.projectType), BoolMember("featured", q.featured), NatMember("limit", q.limit), NatMember("offset", q.offset);
    FourMembers(a, b, c, d, "type");
    FourMembers(a, b, c, d, "featured");
    FourMembers(a, b, c, d, "limit");
    FourMembers(a, b, c, d, "offset");
  }

  lemma LeadQueryMembers(q: LeadQuery)
    ensures MemberValue(LeadQueryEntries(q), "status") == if q.status.Some? then Some(JStr(q.status.value)) else None
    ensures MemberValue(LeadQueryEntries(q), "source") == if q.source.Some? then Some(JStr(q.source.value)) else None
    ensures MemberValue(LeadQueryEntries(q), "limit") == if q.limit.Some? then Some(JNat(q.limit.value)) else None
    ensures MemberValue(LeadQueryEntries(q), "offset") == if q.offset.Some? then Some(JNat(q.offset.value)) else None
  {
    var a, b, c, d := StrMember("status", q.status), StrMember("source", q.source), NatMember("limit", q.limit), NatMember("offset", q.offset);
    FourMembers(a, b, c, d, "status");
    FourMembers(a, b, c, d, "source");
    FourMembers(a, b, c, d, "limit");
    FourMembers(a, b, c, d, "offset");
  }

  /** Different project queries give different parameter objects. */
  lemma ProjectQueryEntriesInjective(a: ProjectQuery, b: ProjectQuery)
    requires ProjectQueryEntries(a) == ProjectQueryEntries(b)
    ensures a == b
  {
    ProjectQueryMembers(a);
    ProjectQueryMembers(b);
  }

  lemma LeadQueryEntriesInjective(a: LeadQuery, b: LeadQuery)
    requires LeadQueryEntries(a) == LeadQueryEntries(b)
    ensures a == b
  {
    LeadQueryMembers(a);
    LeadQueryMembers(b);
  }

  /** Everything after a prefix and ':' in a key determines the parameters. */
  lemma KeySuffixInjective(prefix: string, a: Entries, b: Entries)
    requires GetCacheKey(prefix, Some(a)) == GetCacheKey(prefix, Some(b))
    ensures a == b
  {
    var n := |prefix| + 1;
    assert Stringify(a) == GetCacheKey(prefix, Some(a))[n..];
    assert Stringify(b) == GetCacheKey(prefix, Some(b))[n..];
    StringifyInjective(a, b);
  }

  /** A key starts with its prefix, then ends there exactly when there are
      no parameters and goes on with ':' when there are. */
  lemma PrefixedKey(prefix: string, params: Option<Entries>)
    ensures var k := GetCacheKey(prefix, params);
      |k| >= |prefix| && k[..|prefix|] == prefix &&
      (params.None? <==> |k| == |prefix|) && (params.Some? ==> k[|prefix|] == ':')
  {
    if params.Some? {
      ColonJoined(prefix, Stringify(params.value));
    }
  }

  lemma ColonJoined(prefix: string, text: string)
    ensures var k := prefix + ":" + text;
      |k| == |prefix| + 1 + |text| && k[..|prefix|] == prefix && k[|prefix|] == ':'
  {
  }

  /** The first characters of each kind of key: "projects" then nothing or
      ':'; "project:"; "leads" then nothing or ':'; "user:". */
  lemma KeyShape(cq: CacheQuery)
    ensures cq.ProjectsQ? ==>
      |KeyOf(cq)| >= 8 && KeyOf(cq)[..8] == "projects" &&
      (cq.pq.None? <==> |KeyOf(cq)| == 8) && (cq.pq.Some? ==> KeyOf(cq)[8] == ':')
    ensures cq.SlugQ? ==> |KeyOf(cq)| >= 8 && KeyOf(cq)[..8] == "project:"
    ensures cq.LeadsQ? ==>
      |KeyOf(cq)| >= 5 && KeyOf(cq)[..5] == "leads" &&
      (cq.lq.None? <==> |KeyOf(cq)| == 5) && (cq.lq.Some? ==> KeyOf(cq)[5] == ':')
    ensures cq.EmailQ? ==> |KeyOf(cq)| >= 5 && KeyOf(cq)[..5] == "user:"
  {
    match cq {
      case ProjectsQ(q) =>
        PrefixedKey("projects", ProjectQueryParams(q));
      case SlugQ(s) =>
        PrefixedKey("project", Some([("slug", JStr(s))]));
        assert KeyOf(cq)[..8] == KeyOf(cq)[..7] + [KeyOf(cq)[7]];
      case LeadsQ(q) =>
        PrefixedKey("leads", LeadQueryParams(q));
      case EmailQ(e) =>
        PrefixedKey("user", Some([("email", JStr(e))]));
        assert KeyOf(cq)[..5] == KeyOf(cq)[..4] + [KeyOf(cq)[4]];
    }
  }

  /** Keys of different kinds differ. */
  lemma KeyKindsDiffer(a: CacheQuery, b: CacheQuery)
    requires KeyOf(a) == KeyOf(b)
    ensures a.ProjectsQ? == b.ProjectsQ? && a.SlugQ? == b.SlugQ? && a.LeadsQ? == b.LeadsQ? && a.EmailQ? == b.EmailQ?
  {
    KeyShape(a);
    KeyShape(b);
    var k := KeyOf(a);
    if a.ProjectsQ? || a.SlugQ? {
      assert k[0] == 'p';
      if b.ProjectsQ? || b.SlugQ? {
        assert a.ProjectsQ? <==> k[7] == 's';
        assert b.ProjectsQ? <==> k[7] == 's';
      }
    } else if a.LeadsQ? {
      assert k[0] == 'l';
    } else {
      assert k[0] == 'u';
    }
  }

  /** Different queries never share a cache key, so a cache entry belongs to
      exactly one query. */
  lemma KeyOfInjective(a: CacheQuery, b: CacheQuery)
    requires KeyOf(a) == KeyOf(b)
    ensures a == b
  {
    KeyKindsDiffer(a, b);
    KeyShape(a);
    KeyShape(b);
    match a {
      case ProjectsQ(qa) =>
        var qb := b.pq;
        if qa.Some? && qb.Some? {
          KeySuffixInjective("projects", ProjectQueryEntries(qa.value), ProjectQueryEntries(qb.value));
          ProjectQueryEntriesInjective(qa.value, qb.value);
        }
      case SlugQ(sa) =>
        KeySuffixInjective("project", [("slug", JStr(sa))], [("slug", JStr(b.slug))]);
        assert [("slug", JStr(sa))][0] == [("slug", JStr(b.slug))][0];
      case LeadsQ(qa) =>
        var qb := b.lq;
        if qa.Some? && qb.Some? {
          KeySuffixInjective("leads", LeadQueryEntries(qa.value), LeadQueryEntries(qb.value));
          LeadQueryEntriesInjective(qa.value, qb.value);
        }
      case EmailQ(ea) =>
        KeySuffixInjective("user", [("email", JStr(ea))], [("email", JStr(b.email))]);
        assert [("email", JStr(ea))][0] == [("email", JStr(b.email))][0];
    }
  }

  // ---------------------------------------------------------------- query results

  /** `x ? n : none` for a numeric query member: 0 counts as absent. */
  function Truthy(n: Option<nat>): Option<nat> {
    if n.Some? && n.value > 0 then n else None
  }

  predicate ProjectMatches(p: ProjectRow, q: Option<ProjectQuery>) {
    p.active &&
    (q.None? || q.value.projectType.None? || q.value.projectType.value == "" || p.projectType == q.value.projectType.value) &&
    (q.None? || q.value.featured.None? || p.featured == q.value.featured.value)
  }

  /** The filter of a project query, as a function on rows. */
  function ProjectFilter(q: Option<ProjectQuery>): ProjectRow -> bool {
    p => ProjectMatches(p, q)
  }

  /** What `getProjects(query)` reads from the table: the active projects that
      match the type and featured filters, then the window `query.limit` and
      `query.offset` select, each applied only when truthy. */
  function ProjectsResult(ps: seq<ProjectRow>, q: Option<ProjectQuery>): (r: seq<ProjectRow>)
    ensures forall i :: 0 <= i < |r| ==> r[i] in ps && ProjectMatches(r[i], q)
    ensures q.Some? && Truthy(q.value.limit).Some? ==> |r| <= q.value.limit.value
    ensures r == Page(Filter(ps, ProjectFilter(q)), if q.Some? then Truthy(q.value.limit) else None,
                      if q.Some? && Truthy(q.value.offset).Some? then q.value.offset.value else 0)
    ensures q.None? || (Truthy(q.value.limit).None? && Truthy(q.value.offset).None?) ==>
      forall p :: p in r <==> p in ps && ProjectMatches(p, q)
  {
    var rows := Filter(ps, ProjectFilter(q));
    assert forall x :: x in rows ==> x in ps && ProjectMatches(x, q);
    var limit := if q.Some? then Truthy(q.value.limit) else None;
    var offset := if q.Some? && Truthy(q.value.offset).Some? then q.value.offset.value else 0;
    PageWithin(rows, limit, offset);
    PageWhole(rows);
    Page(rows, limit, offset)
  }

  /** What `getProjectBySlug(slug)` reads: the first active project with that slug. */
  function ActiveBySlug(ps: seq<ProjectRow>, slug: string): (r: Option<ProjectRow>)
    ensures r.Some? ==> r.value in ps && r.value.slug == slug && r.value.active
    ensures r.None? <==> forall i :: 0 <= i < |ps| ==> !(ps[i].slug == slug && ps[i].active)
  {
    Find(ps, (p: ProjectRow) => p.slug == slug && p.active)
  }

  predicate LeadMatches(l: LeadRow, q: Option<LeadQuery>) {
    (q.None? || q.value.status.None? || q.value.status.value == "" || l.status == q.value.status.value) &&
    (q.None? || q.value.source.None? || q.value.source.value == "" || l.source == q.value.source.value)
  }

  /** The filter of a lead query, as a function on rows. */
  function LeadFilter(q: Option<LeadQuery>): LeadRow -> bool {
    l => LeadMatches(l, q)
  }

  /** What `getLeads(query)` reads from the table: the leads that match the
      status and source filters, then the window of `limit` and `offset`. */
  function LeadsResult(ls: seq<LeadRow>, q: Option<LeadQuery>): (r: seq<LeadRow>)
    ensures forall i :: 0 <= i < |r| ==> r[i] in ls && LeadMatches(r[i], q)
    ensures q.Some? && Truthy(q.value.limit).Some? ==> |r| <= q.value.limit.value
    ensures r == Page(Filter(ls, LeadFilter(q)), if q.Some? then Truthy(q.value.limit) else None,
                      if q.Some? && Truthy(q.value.offset).Some? then q.value.offset.value else 0)
    ensures q.None? || (Truthy(q.value.limit).None? && Truthy(q.value.offset).None?) ==>
      forall l :: l in r <==> l in ls && LeadMatches(l, q)
  {
    var rows := Filter(ls, LeadFilter(q));
    assert forall x :: x in rows ==> x in ls && LeadMatches(x, q);
    var limit := if q.Some? then Truthy(q.value.limit) else None;
    var offset := if q.Some? && Truthy(q.value.offset).Some? then q.value.offset.value else 0;
    PageWithin(rows, limit, offset);
    PageWhole(rows);
    Page(rows, limit, offset)
  }

  function UserWithEmail(us: seq<UserRow>, email: string): (r: Option<UserRow>)
    ensures r.Some? ==> r.value in us && r.value.email == email
    ensures r.None? <==> forall i :: 0 <= i < |us| ==> us[i].email != email
  {
    Find(us, (u: UserRow) => u.email == email)
  }

  // ---------------------------------------------------------------- cache coherence

  /** `v` is what the query `cq` returns on the tables; only found rows are cached by slug and e-mail. */
  predicate Fresh(cq: CacheQuery, v: CacheValue, ps: seq<ProjectRow>, ls: seq<LeadRow>, us: seq<UserRow>) {
    match cq
    case ProjectsQ(q) => v == CProjects(ProjectsResult(ps, q))
    case SlugQ(s) => v.CProject? && ActiveBySlug(ps, s) == Some(v.project)
    case LeadsQ(q) => v == CLeads(LeadsResult(ls, q))
    case EmailQ(e) => v.CUser? && UserWithEmail(us, e) == Some(v.user)
  }

  ghost predicate Coherent(cache: map<string, CacheValue>, ps: seq<ProjectRow>, ls: seq<LeadRow>, us: seq<UserRow>) {
    forall cq :: KeyOf(cq) in cache ==> Fresh(cq, cache[KeyOf(cq)], ps, ls, us)
  }

  predicate NoPatternIn(k: string, patterns: seq<string>) {
    forall j :: 0 <= j < |patterns| ==> !Contains(k, patterns[j])
  }

  /** The cache after `invalidateCache(patterns)`: the entries whose key contains no pattern. */
  function RemoveMatching(cache: map<string, CacheValue>, patterns: seq<string>): (r: map<string, CacheValue>)
    ensures forall k :: k in r <==> k in cache && NoPatternIn(k, patterns)
    ensures forall k :: k in r ==> r[k] == cache[k]
  {
    map k | k in cache && NoPatternIn(k, patterns) :: cache[k]
  }

  /** Dropping entries, by invalidation or by expiry, keeps the cache coherent. */
  lemma SubmapStaysCoherent(c1: map<string, CacheValue>, c2: map<string, CacheValue>,
                            ps: seq<ProjectRow>, ls: seq<LeadRow>, us: seq<UserRow>)
    requires Coherent(c1, ps, ls, us)
    requires forall k :: k in c2 ==> k in c1 && c2[k] == c1[k]
    ensures Coherent(c2, ps, ls, us)
  {
  }

  /** The pattern "projects" removes every project-list key; "project" removes those
      and every project-by-slug key; "leads" every lead-list key; "user" every user key. */
  lemma InvalidationCovers(cq: CacheQuery)
    ensures cq.ProjectsQ? ==> Contains(KeyOf(cq), "projects") && Contains(KeyOf(cq), "project")
    ensures cq.SlugQ? ==> Contains(KeyOf(cq), "project")
    ensures cq.LeadsQ? ==> Contains(KeyOf(cq), "leads")
    ensures cq.EmailQ? ==> Contains(KeyOf(cq), "user")
  {
    var k := KeyOf(cq);
    match cq
    case ProjectsQ(q) =>
      PrefixedKey("projects", ProjectQueryParams(q));
      PrefixIsContained(k, "projects");
      StartsWithShorter(k, "projects", 7);
      assert "projects"[..7] == "project";
      PrefixIsContained(k, "project");
    case SlugQ(s) =>
      PrefixedKey("project", Some([("slug", JStr(s))]));
      PrefixIsContained(k, "project");
    case LeadsQ(q) =>
      PrefixedKey("leads", LeadQueryParams(q));
      PrefixIsContained(k, "leads");
    case EmailQ(e) =>
      PrefixedKey("user", Some([("email", JStr(e))]));
      PrefixIsContained(k, "user");
  }

  lemma StartsWithShorter(k: string, p: string, n: nat)
    requires StartsWith(k, p) && n <= |p|
    ensures StartsWith(k, p[..n])
  {
    assert k[..n] == k[..|p|][..n];
  }

  /** Removing the keys that match one more pattern. */
  lemma RemoveMatchingStep(m: map<string, CacheValue>, patterns: seq<string>, i: nat)
    requires i < |patterns|
    ensures RemoveMatching(m, patterns[..i + 1]) ==
      map k | k in RemoveMatching(m, patterns[..i]) && !Contains(k, patterns[i]) :: m[k]
  {
    forall k
      ensures NoPatternIn(k, patterns[..i + 1]) <==> NoPatternIn(k, patterns[..i]) && !Contains(k, patterns[i])
    {
      assert forall j :: 0 <= j < i ==> patterns[..i + 1][j] == patterns[..i][j];
    }
  }

  /** Setting the key of `cq` to its fresh value keeps the cache coherent. */
  lemma CachingFreshValue(cache: map<string, CacheValue>, cq: CacheQuery, v: CacheValue,
                          ps: seq<ProjectRow>, ls: seq<LeadRow>, us: seq<UserRow>)
    requires Coherent(cache, ps, ls, us) && Fresh(cq, v, ps, ls, us)
    ensures Coherent(cache[KeyOf(cq) := v], ps, ls, us)
  {
    forall other | KeyOf(other) in cache[KeyOf(cq) := v]
      ensures Fresh(other, cache[KeyOf(cq) := v][KeyOf(other)], ps, ls, us)
    {
      if KeyOf(other) == KeyOf(cq) {
        KeyOfInjective(other, cq);
      }
    }
  }

  /** After the project table changes in a way that keeps every slug lookup
      (`project` keys survive), dropping the "projects" keys restores coherence. */
  lemma ProjectListsInvalidated(cache: map<string, CacheValue>, ps: seq<ProjectRow>, ps': seq<ProjectRow>,
                                ls: seq<LeadRow>, us: seq<UserRow>)
    requires Coherent(cache, ps, ls, us)
    requires forall s :: ActiveBySlug(ps, s).Some? ==> ActiveBySlug(ps', s) == ActiveBySlug(ps, s)
    ensures Coherent(RemoveMatching(cache, ["projects"]), ps', ls, us)
  {
    var c := RemoveMatching(cache, ["projects"]);
    forall cq | KeyOf(cq) in c
      ensures Fresh(cq, c[KeyOf(cq)], ps', ls, us)
    {
      InvalidationCovers(cq);
      assert ["projects"][0] == "projects";
      assert !cq.ProjectsQ?;
      var v := cache[KeyOf(cq)];
      assert Fresh(cq, v, ps, ls, us);
      match cq {
        case SlugQ(s) =>
        case LeadsQ(q) =>
        case EmailQ(e) =>
      }
    }
  }

  /** After any change to the project table, dropping the "projects" and
      "project" keys restores coherence. */
  lemma AllProjectKeysInvalidated(cache: map<string, CacheValue>, ps: seq<ProjectRow>, ps': seq<ProjectRow>,
                                  ls: seq<LeadRow>, us: seq<UserRow>)
    requires Coherent(cache, ps, ls, us)
    ensures Coherent(RemoveMatching(cache, ["projects", "project"]), ps', ls, us)
  {
    var c := RemoveMatching(cache, ["projects", "project"]);
    forall cq | KeyOf(cq) in c
      ensures Fresh(cq, c[KeyOf(cq)], ps', ls, us)
    {
      InvalidationCovers(cq);
      assert ["projects", "project"][1] == "project";
      assert !cq.ProjectsQ? && !cq.SlugQ?;
      var v := cache[KeyOf(cq)];
      assert Fresh(cq, v, ps, ls, us);
      match cq {
        case LeadsQ(q) =>
        case EmailQ(e) =>
      }
    }
  }

  lemma LeadListsInvalidated(cache: map<string, CacheValue>, ps: seq<ProjectRow>, ls: seq<LeadRow>, ls': seq<LeadRow>, us: seq<UserRow>)
    requires Coherent(cache, ps, ls, us)
    ensures Coherent(RemoveMatching(cache, ["leads"]), ps, ls', us)
  {
    var c := RemoveMatching(cache, ["leads"]);
    forall cq | KeyOf(cq) in c
      ensures Fresh(cq, c[KeyOf(cq)], ps, ls', us)
    {
      InvalidationCovers(cq);
      assert ["leads"][0] == "leads";
      assert !cq.LeadsQ?;
      var v := cache[KeyOf(cq)];
      assert Fresh(cq, v, ps, ls, us);
      match cq {
        case ProjectsQ(q) =>
        case SlugQ(s) =>
        case EmailQ(e) =>
      }
    }
  }

  lemma UserKeysInvalidated(cache: map<string, CacheValue>, ps: seq<ProjectRow>, ls: seq<LeadRow>, us: seq<UserRow>, us': seq<UserRow>)
    requires Coherent(cache, ps, ls, us)
    ensures Coherent(RemoveMatching(cache, ["user"]), ps, ls, us')
  {
    var c := RemoveMatching(cache, ["user"]);
    forall cq | KeyOf(cq) in c
      ensures Fresh(cq, c[KeyOf(cq)], ps, ls, us')
    {
      InvalidationCovers(cq);
      assert ["user"][0] == "user";
      assert !cq.EmailQ?;
      var v := cache[KeyOf(cq)];
      assert Fresh(cq, v, ps, ls, us);
      match cq {
        case ProjectsQ(q) =>
        case SlugQ(s) =>
        case LeadsQ(q) =>
      }
    }
  }

  // ---------------------------------------------------------------- table constraints

  predicate UniqueBy<T>(s: seq<T>, key: T -> string) {
    forall i, j :: 0 <= i < j < |s| ==> key(s[i]) != key(s[j])
  }

  function ProjectId(p: ProjectRow): string { p.id }
  function ProjectSlug(p: ProjectRow): string { p.slug }
  function LeadId(l: LeadRow): string { l.id }
  function UserId(u: UserRow): string { u.id }
  function UserEmail(u: UserRow): string { u.email }

  predicate HasKey<T>(s: seq<T>, key: T -> string, k: string) {
    exists i :: 0 <= i < |s| && key(s[i]) == k
  }

  lemma AppendUnique<T>(s: seq<T>, x: T, key: T -> string)
    requires UniqueBy(s, key) && !HasKey(s, key, key(x))
    ensures UniqueBy(s + [x], key)
  {
    forall i, j | 0 <= i < j < |s + [x]|
      ensures key((s + [x])[i]) != key((s + [x])[j])
    {
      if j == |s| {
        assert (s + [x])[i] == s[i];
      } else {
        assert (s + [x])[i] == s[i] && (s + [x])[j] == s[j];
      }
    }
  }

  /** A slug lookup on a table with unique slugs: a row not active is never found,
      and an active row is always found by its own slug. */
  lemma SlugLookupUnique(ps: seq<ProjectRow>, i: nat)
    requires UniqueBy(ps, ProjectSlug) && i < |ps|
    ensures ps[i].active ==> ActiveBySlug(ps, ps[i].slug) == Some(ps[i])
    ensures !ps[i].active ==> ActiveBySlug(ps, ps[i].slug) == None
  {
    var r := ActiveBySlug(ps, ps[i].slug);
    if r.Some? {
      var j :| 0 <= j < |ps| && ps[j] == r.value;
      assert ProjectSlug(ps[j]) == ProjectSlug(ps[i]);
    }
  }

  /** The rows after `UPDATE ... WHERE id = id`. */
  function UpdateWhere(ps: seq<ProjectRow>, id: string, f: ProjectRow -> ProjectRow): (r: seq<ProjectRow>)
    ensures |r| == |ps|
    ensures forall i :: 0 <= i < |ps| ==> r[i] == if ps[i].id == id then f(ps[i]) else ps[i]
  {
    seq(|ps|, i requires 0 <= i < |ps| => if ps[i].id == id then f(ps[i]) else ps[i])
  }

  function UpdateLeadWhere(ls: seq<LeadRow>, id: string, status: string): (r: seq<LeadRow>)
    ensures |r| == |ls|
    ensures forall i :: 0 <= i < |ls| ==> r[i] == if ls[i].id == id then ls[i].(status := status) else ls[i]
  {
    seq(|ls|, i requires 0 <= i < |ls| => if ls[i].id == id then ls[i].(status := status) else ls[i])
  }

  /** The members `updateProjectSchema` admits that the model keeps; the
      schema has no slug, so an update never changes a slug. */
  datatype ProjectUpdate = ProjectUpdate(name: Option<string>, projectType: Option<string>, featured: Option<bool>, active: Option<bool>)

  function ApplyUpdate(u: ProjectUpdate): ProjectRow -> ProjectRow {
    (p: ProjectRow) => ProjectRow(p.id, p.slug, u.name.GetOr(p.name), u.projectType.GetOr(p.projectType),
                    u.featured.GetOr(p.featured), u.active.GetOr(p.active))
  }

  function SoftDelete(p: ProjectRow): ProjectRow {
    p.(active := false)
  }

  lemma UpdateKeepsKeys(ps: seq<ProjectRow>, id: string, f: ProjectRow -> ProjectRow)
    requires UniqueBy(ps, ProjectId) && UniqueBy(ps, ProjectSlug)
    requires forall p :: f(p).id == p.id && f(p).slug == p.slug
    ensures UniqueBy(UpdateWhere(ps, id, f), ProjectId) && UniqueBy(UpdateWhere(ps, id, f), ProjectSlug)
  {
    var r := UpdateWhere(ps, id, f);
    assert forall i :: 0 <= i < |ps| ==> r[i].id == ps[i].id && r[i].slug == ps[i].slug;
  }

  /** Once a project is soft-deleted, looking up its slug finds nothing. */
  lemma DeletedProjectNotFoundBySlug(ps: seq<ProjectRow>, i: nat)
    requires UniqueBy(ps, ProjectId) && UniqueBy(ps, ProjectSlug) && i < |ps|
    ensures ActiveBySlug(UpdateWhere(ps, ps[i].id, SoftDelete), ps[i].slug) == None
  {
    var r := UpdateWhere(ps, ps[i].id, SoftDelete);
    UpdateKeepsKeys(ps, ps[i].id, SoftDelete);
    assert !r[i].active && r[i].slug == ps[i].slug;
    SlugLookupUnique(r, i);
  }

  /** Inserting a project whose slug no row has keeps every existing slug lookup. */
  lemma InsertKeepsSlugLookups(ps: seq<ProjectRow>, p: ProjectRow, s: string)
    requires !HasKey(ps, ProjectSlug, p.slug)
    requires ActiveBySlug(ps, s).Some?
    ensures ActiveBySlug(ps + [p], s) == ActiveBySlug(ps, s)
  {
    FindAppend(ps, p, (q: ProjectRow) => q.slug == s && q.active);
  }

  lemma InsertedUserFound(us: seq<UserRow>, u: UserRow)
    requires !HasKey(us, UserEmail, u.email)
    ensures UserWithEmail(us + [u], u.email) == Some(u)
  {
    FindAppend(us, u, (x: UserRow) => x.email == u.email);
    assert UserWithEmail(us, u.email).None? by {
      forall i | 0 <= i < |us| ensures us[i].email != u.email {
        assert UserEmail(us[i]) != u.email;
      }
    }
  }

  // ---------------------------------------------------------------- the repository

  datatype NewProject = NewProject(slug: string, name: string, projectType: string, featured: bool, active: bool)

  datatype NewLead = NewLead(name: string, email: string, phone: string, source: string)

  datatype NewUser = NewUser(email: string, name: string, password: string)

  class DatabaseStorage {
    var projects: seq<ProjectRow>
    var leads: seq<LeadRow>
    var users: seq<UserRow>
    var cache: map<string, CacheValue>

    /** The table constraints (primary keys, unique slug and e-mail) and a coherent cache. */
    ghost predicate Valid()
      reads this
    {
      UniqueBy(projects, ProjectId) && UniqueBy(projects, ProjectSlug) &&
      UniqueBy(leads, LeadId) && UniqueBy(users, UserId) && UniqueBy(users, UserEmail) &&
      Coherent(cache, projects, leads, users)
    }

    constructor ()
      ensures Valid() && projects == [] && leads == [] && users == [] && cache == map[]
    {
      projects, leads, users, cache := [], [], [], map[];
    }

    /** `invalidateCache(patterns)`: deletes every key, of those present on
        entry, that contains one of the patterns. */
    method InvalidateCache(patterns: seq<string>)
      modifies this
      ensures cache == RemoveMatching(old(cache), patterns)
      ensures projects == old(projects) && leads == old(leads) && users == old(users)
    {
      var keys := cache.Keys;
      for i := 0 to |patterns|
        invariant cache == RemoveMatching(old(cache), patterns[..i])
        invariant keys == old(cache).Keys
        invariant projects == old(projects) && leads == old(leads) && users == old(users)
      {
        var toDelete := set k | k in keys && Contains(k, patterns[i]);
        RemoveMatchingStep(old(cache), patterns, i);
        cache := map k | k in cache && k !in toDelete :: cache[k];
      }
      assert patterns[..|patterns|] == patterns;
    }

    /** Cache expiry: the cache may drop any entry once its time to live runs
        out, which keeps the state valid. */
    method Expire(k: string)
      requires Valid()
      modifies this
      ensures Valid() && cache == old(cache) - {k}
      ensures projects == old(projects) && leads == old(leads) && users == old(users)
    {
      cache := cache - {k};
      SubmapStaysCoherent(old(cache), cache, projects, leads, users);
    }

    /** `getProjects(query)`: the cached list on a hit; on a miss the table's
        result, which is then cached. Either way the result is the query's
        result on the current table. */
    method GetProjects(q: Option<ProjectQuery>) returns (r: seq<ProjectRow>)
      requires Valid()
      modifies this
      ensures Valid()
      ensures r == ProjectsResult(projects, q)
      ensures KeyOf(ProjectsQ(q)) in old(cache) ==> cache == old(cache)
      ensures KeyOf(ProjectsQ(q)) !in old(cache) ==> cache == old(cache)[KeyOf(ProjectsQ(q)) := CProjects(r)]
      ensures projects == old(projects) && leads == old(leads) && users == old(users)
    {
      var key := GetCacheKey("projects", ProjectQueryParams(q));
      assert key == KeyOf(ProjectsQ(q));
      if key in cache {
        assert Fresh(ProjectsQ(q), cache[KeyOf(ProjectsQ(q))], projects, leads, users);
        return cache[key].projects;
      }
      r := ProjectsResult(projects, q);
      CachingFreshValue(cache, ProjectsQ(q), CProjects(r), projects, leads, users);
      cache := cache[key := CProjects(r)];
    }

    /** `getProjectBySlug(slug)`: only a found project is cached. */
    method GetProjectBySlug(slug: string) returns (r: Option<ProjectRow>)
      requires Valid()
      modifies this
      ensures Valid()
      ensures r == ActiveBySlug(projects, slug)
      ensures KeyOf(SlugQ(slug)) in old(cache) || r.None? ==> cache == old(cache)
      ensures KeyOf(SlugQ(slug)) !in old(cache) && r.Some? ==> cache == old(cache)[KeyOf(SlugQ(slug)) := CProject(r.value)]
      ensures projects == old(projects) && leads == old(leads) && users == old(users)
    {
      var key := GetCacheKey("project", Some([("slug", JStr(slug))]));
      assert key == KeyOf(SlugQ(slug));
      if key in cache {
        assert Fresh(SlugQ(slug), cache[KeyOf(SlugQ(slug))], projects, leads, users);
        return Some(cache[key].project);
      }
      r := ActiveBySlug(projects, slug);
      if r.Some? {
        CachingFreshValue(cache, SlugQ(slug), CProject(r.value), projects, leads, users);
        cache := cache[key := CProject(r.value)];
      }
    }

    /** `createProject(data)`: a conflict when an active project has the slug;
        otherwise the insert, which the unique constraints reject when `id` or
        the slug is taken (by a deleted project); then the project lists are
        invalidated. */
    method CreateProject(data: NewProject, id: string) returns (r: Result<ProjectRow, StorageError>)
      requires Valid()
      modifies this
      ensures Valid()
      ensures r.Err? && r.error.AppErr? <==> ActiveBySlug(old(projects), data.slug).Some?
      ensures r.Err? && r.error.AppErr? ==> r.error.err.statusCode == 409 && r.error.err.code == Some("CONFLICT")
      ensures r.Err? && r.error.DbErr? <==>
        ActiveBySlug(old(projects), data.slug).None? &&
        (HasKey(old(projects), ProjectId, id) || HasKey(old(projects), ProjectSlug, data.slug))
      ensures r.Err? ==> projects == old(projects)
      ensures r.Ok? ==> r.value == ProjectRow(id, data.slug, data.name, data.projectType, data.featured, data.active)
      ensures r.Ok? ==> projects == old(projects) + [r.value]
      ensures r.Ok? ==> cache == RemoveMatching(old(cache), ["projects"])
      ensures r.Err? && r.error.DbErr? ==> r.error == DbErr(UniqueViolation) && cache == old(cache)
      ensures r.Err? && r.error.AppErr? && KeyOf(SlugQ(data.slug)) in old(cache) ==> cache == old(cache)
      ensures r.Err? && r.error.AppErr? && KeyOf(SlugQ(data.slug)) !in old(cache) ==>
        cache == old(cache)[KeyOf(SlugQ(data.slug)) := CProject(ActiveBySlug(old(projects), data.slug).value)]
      ensures leads == old(leads) && users == old(users)
    {
      var existing := GetProjectBySlug(data.slug);
      if existing.Some? {
        return Err(AppErr(Errors.ConflictError("Project with this slug already exists")));
      }
      if HasKey(projects, ProjectId, id) || HasKey(projects, ProjectSlug, data.slug) {
        return Err(DbErr(UniqueViolation));
      }
      var row := ProjectRow(id, data.slug, data.name, data.projectType, data.featured, data.active);
      AppendUnique(projects, row, ProjectId);
      AppendUnique(projects, row, ProjectSlug);
      ghost var before := projects;
      projects := projects + [row];
      forall s | ActiveBySlug(before, s).Some?
        ensures ActiveBySlug(projects, s) == ActiveBySlug(before, s)
      {
        InsertKeepsSlugLookups(before, row, s);
      }
      ProjectListsInvalidated(cache, before, projects, leads, users);
      InvalidateCache(["projects"]);
      r := Ok(row);
    }

    /** `updateProject(id, updates)`: not found when no row has the id, and
        then nothing changes; otherwise the row is updated and every project
        key is invalidated. */
    method UpdateProject(id: string, updates: ProjectUpdate) returns (r: Result<ProjectRow, StorageError>)
      requires Valid()
      modifies this
      ensures Valid()
      ensures r.Err? <==> !HasKey(old(projects), ProjectId, id)
      ensures r.Err? ==> r.error == AppErr(Errors.NotFoundError(Some("Project not found"))) && cache == old(cache) && projects == old(projects)
      ensures r.Ok? ==> projects == UpdateWhere(old(projects), id, ApplyUpdate(updates))
      ensures r.Ok? ==> r.value in projects && r.value.id == id
      ensures r.Ok? ==> cache == RemoveMatching(old(cache), ["projects", "project"])
      ensures leads == old(leads) && users == old(users)
    {
      var i := FirstIndex(projects, (p: ProjectRow) => p.id == id);
      if i.None? {
        assert !HasKey(projects, ProjectId, id);
        return Err(AppErr(Errors.NotFoundError(Some("Project not found"))));
      }
      assert ProjectId(projects[i.value]) == id;
      ghost var before := projects;
      UpdateKeepsKeys(projects, id, ApplyUpdate(updates));
      projects := UpdateWhere(projects, id, ApplyUpdate(updates));
      AllProjectKeysInvalidated(cache, before, projects, leads, users);
      InvalidateCache(["projects", "project"]);
      r := Ok(projects[i.value]);
    }

    /** `deleteProject(id)`: a soft delete that clears `active`; not found when
        no row has the id. */
    method DeleteProject(id: string) returns (r: Result<(), StorageError>)
      requires Valid()
      modifies this
      ensures Valid()
      ensures r.Err? <==> !HasKey(old(projects), ProjectId, id)
      ensures r.Err? ==> r.error == AppErr(Errors.NotFoundError(Some("Project not found"))) && cache == old(cache) && projects == old(projects)
      ensures r.Ok? ==> projects == UpdateWhere(old(projects), id, SoftDelete)
      ensures r.Ok? ==> cache == RemoveMatching(old(cache), ["projects", "project"])
      ensures leads == old(leads) && users == old(users)
    {
      var i := FirstIndex(projects, (p: ProjectRow) => p.id == id);
      if i.None? {
        assert !HasKey(projects, ProjectId, id);
        return Err(AppErr(Errors.NotFoundError(Some("Project not found"))));
      }
      assert ProjectId(projects[i.value]) == id;
      ghost var before := projects;
      UpdateKeepsKeys(projects, id, SoftDelete);
      projects := UpdateWhere(projects, id, SoftDelete);
      AllProjectKeysInvalidated(cache, before, projects, leads, users);
      InvalidateCache(["projects", "project"]);
      r := Ok(());
    }

    /** `getLeads(query)`, read through the cache like `getProjects`. */
    method GetLeads(q: Option<LeadQuery>) returns (r: seq<LeadRow>)
      requires Valid()
      modifies this
      ensures Valid()
      ensures r == LeadsResult(leads, q)
      ensures KeyOf(LeadsQ(q)) in old(cache) ==> cache == old(cache)
      ensures KeyOf(LeadsQ(q)) !in old(cache) ==> cache == old(cache)[KeyOf(LeadsQ(q)) := CLeads(r)]
      ensures projects == old(projects) && leads == old(leads) && users == old(users)
    {
      var key := GetCacheKey("leads", LeadQueryParams(q));
      assert key == KeyOf(LeadsQ(q));
      if key in cache {
        assert Fresh(LeadsQ(q), cache[KeyOf(LeadsQ(q))], projects, leads, users);
        return cache[key].leads;
      }
      r := LeadsResult(leads, q);
      CachingFreshValue(cache, LeadsQ(q), CLeads(r), projects, leads, users);
      cache := cache[key := CLeads(r)];
    }

    /** `createLead(data)`: the lead is stored with status "new", whatever it
        asked for; then the lead lists are invalidated. */
    method CreateLead(data: NewLead, id: string) returns (r: Result<LeadRow, StorageError>)
      requires Valid()
      modifies this
      ensures Valid()
      ensures r.Err? <==> HasKey(old(leads), LeadId, id)
      ensures r.Err? ==> r.error == DbErr(UniqueViolation) && leads == old(leads) && cache == old(cache)
      ensures r.Ok? ==> r.value == LeadRow(id, data.name, data.email, data.phone, data.source, "new")
      ensures r.Ok? ==> leads == old(leads) + [r.value] && cache == RemoveMatching(old(cache), ["leads"])
      ensures projects == old(projects) && users == old(users)
    {
      if HasKey(leads, LeadId, id) {
        return Err(DbErr(UniqueViolation));
      }
      var row := LeadRow(id, data.name, data.email, data.phone, data.source, "new");
      AppendUnique(leads, row, LeadId);
      ghost var before := leads;
      leads := leads + [row];
      LeadListsInvalidated(cache, projects, before, leads, users);
      InvalidateCache(["leads"]);
      r := Ok(row);
    }

    /** `updateLead(id, updates)`: sets the status; not found when no row has the id. */
    method UpdateLead(id: string, status: string) returns (r: Result<LeadRow, StorageError>)
      requires Valid()
      modifies this
      ensures Valid()
      ensures r.Err? <==> !HasKey(old(leads), LeadId, id)
      ensures r.Err? ==> r.error == AppErr(Errors.NotFoundError(Some("Lead not found"))) && cache == old(cache) && leads == old(leads)
      ensures r.Ok? ==> leads == UpdateLeadWhere(old(leads), id, status) && r.value in leads && r.value.id == id && r.value.status == status
      ensures r.Ok? ==> cache == RemoveMatching(old(cache), ["leads"])
      ensures projects == old(projects) && users == old(users)
    {
      var i := FirstIndex(leads, (l: LeadRow) => l.id == id);
      if i.None? {
        assert !HasKey(leads, LeadId, id);
        return Err(AppErr(Errors.NotFoundError(Some("Lead not found"))));
      }
      ghost var before := leads;
      leads := UpdateLeadWhere(leads, id, status);
      assert forall k :: 0 <= k < |leads| ==> leads[k].id == before[k].id;
      LeadListsInvalidated(cache, projects, before, leads, users);
      InvalidateCache(["leads"]);
      r := Ok(leads[i.value]);
    }

    /** `getUserByEmail(email)`: only a found user is cached. */
    method GetUserByEmail(email: string) returns (r: Option<UserRow>)
      requires Valid()
      modifies this
      ensures Valid()
      ensures r == UserWithEmail(users, email)
      ensures KeyOf(EmailQ(email)) in old(cache) || r.None? ==> cache == old(cache)
      ensures KeyOf(EmailQ(email)) !in old(cache) && r.Some? ==> cache == old(cache)[KeyOf(EmailQ(email)) := CUser(r.value)]
      ensures projects == old(projects) && leads == old(leads) && users == old(users)
    {
      var key := GetCacheKey("user", Some([("email", JStr(email))]));
      assert key == KeyOf(EmailQ(email));
      if key in cache {
        assert Fresh(EmailQ(email), cache[KeyOf(EmailQ(email))], projects, leads, users);
        return Some(cache[key].user);
      }
      r := UserWithEmail(users, email);
      if r.Some? {
        CachingFreshValue(cache, EmailQ(email), CUser(r.value), projects, leads, users);
        cache := cache[key := CUser(r.value)];
      }
    }

    /** `createUser(data)`: a conflict when the e-mail is taken; otherwise the
        user is stored with the hashed password and returned without it. */
    method CreateUser(data: NewUser, id: string, hash: string -> string) returns (r: Result<PublicUser, StorageError>)
      requires Valid()
      modifies this
      ensures Valid()
      ensures r.Err? && r.error.AppErr? <==> UserWithEmail(old(users), data.email).Some?
      ensures r.Err? && r.error.AppErr? ==> r.error.err.statusCode == 409 && r.error.err.code == Some("CONFLICT")
      ensures r.Err? && r.error.DbErr? <==> UserWithEmail(old(users), data.email).None? && HasKey(old(users), UserId, id)
      ensures r.Err? ==> users == old(users)
      ensures r.Ok? ==> users == old(users) + [UserRow(id, data.email, data.name, hash(data.password))]
      ensures r.Ok? ==> r.value == PublicUser(id, data.email, data.name)
      ensures r.Ok? ==> UserWithEmail(users, data.email) == Some(UserRow(id, data.email, data.name, hash(data.password)))
      ensures r.Ok? ==> cache == RemoveMatching(old(cache), ["user"])
      ensures r.Err? && r.error.DbErr? ==> r.error == DbErr(UniqueViolation) && cache == old(cache)
      ensures r.Err? && r.error.AppErr? && KeyOf(EmailQ(data.email)) in old(cache) ==> cache == old(cache)
      ensures r.Err? && r.error.AppErr? && KeyOf(EmailQ(data.email)) !in old(cache) ==>
        cache == old(cache)[KeyOf(EmailQ(data.email)) := CUser(UserWithEmail(old(users), data.email).value)]
      ensures projects == old(projects) && leads == old(leads)
    {
      var existing := GetUserByEmail(data.email);
      if existing.Some? {
        return Err(AppErr(Errors.ConflictError("User with this email already exists")));
      }
      if HasKey(users, UserId, id) {
        return Err(DbErr(UniqueViolation));
      }
      var hashedPassword := hash(data.password);
      var row := UserRow(id, data.email, data.name, hashedPassword);
      assert !HasKey(users, UserEmail, data.email);
      AppendUnique(users, row, UserId);
      AppendUnique(users, row, UserEmail);
      InsertedUserFound(users, row);
      ghost var before := users;
      users := users + [row];
      UserKeysInvalidated(cache, projects, leads, before, users);
      InvalidateCache(["user"]);
      r := Ok(WithoutPassword(row));
    }

    /** `authenticateUser(email, password)`: the user without the password when
        one has the e-mail and `compare` accepts the password against the stored hash. */
    method AuthenticateUser(email: string, password: string, compare: (string, string) -> bool) returns (r: Option<PublicUser>)
      requires Valid()
      modifies this
      ensures Valid()
      ensures r.Some? <==> UserWithEmail(users, email).Some? && compare(password, UserWithEmail(users, email).value.password)
      ensures r.Some? ==> r.value == WithoutPassword(UserWithEmail(users, email).value)
      ensures KeyOf(EmailQ(email)) in old(cache) || UserWithEmail(users, email).None? ==> cache == old(cache)
      ensures KeyOf(EmailQ(email)) !in old(cache) && UserWithEmail(users, email).Some? ==>
        cache == old(cache)[KeyOf(EmailQ(email)) := CUser(UserWithEmail(users, email).value)]
      ensures projects == old(projects) && leads == old(leads) && users == old(users)
    {
      var user := GetUserByEmail(email);
      if user.None? {
        return None;
      }
      var isValid := compare(password, user.value.password);
      if !isValid {
        return None;
      }
      r := Some(WithoutPassword(user.value));
    }
  }
}
