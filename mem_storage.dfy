/** The in-memory repository: five tables keyed by auto-incrementing ids,
    seeded with sample projects, blog posts and testimonials. Each table is
    a sequence of records in insertion order, which is the order a `Map`
    yields its values in; a record's key is its `id`. Timestamps are given
    by the caller. */
module MemStore {
  import opened Wrappers
  import opened Seqs

  // ---------------------------------------------------------------- records

  datatype ProjectInput = ProjectInput(
    name: string, slug: string, location: string, pricePerSqFt: string, projectType: string,
    features: Option<seq<string>>, expectedReturns: string,
    isActive: Option<bool>, isFeatured: Option<bool>)

  datatype Project = Project(
    id: nat, name: string, slug: string, location: string, pricePerSqFt: string, projectType: string,
    features: seq<string>, expectedReturns: string, isActive: bool, isFeatured: bool)

  datatype LeadInput = LeadInput(
    name: string, email: string, phone: string, message: Option<string>,
    source: Option<string>, language: Option<string>,
    projectInterest: Option<string>, budget: Option<string>, purpose: Option<string>, requirements: Option<string>)

  datatype Lead = Lead(
    id: nat, name: string, email: string, phone: string, message: Option<string>,
    source: string, language: string,
    projectInterest: Option<string>, budget: Option<string>, purpose: Option<string>, requirements: Option<string>,
    createdAt: int)

  datatype UserInput = UserInput(email: string, name: string, password: string)

  datatype User = User(id: nat, email: string, name: string, password: string, createdAt: int, updatedAt: int)

  datatype BlogPostInput = BlogPostInput(
    title: string, slug: string, category: string, readTime: nat, isPublished: Option<bool>)

  datatype BlogPost = BlogPost(
    id: nat, title: string, slug: string, category: string, readTime: nat, isPublished: bool, createdAt: int)

  datatype TestimonialInput = TestimonialInput(
    name: string, title: string, rating: Option<int>, projectId: Option<nat>, isActive: Option<bool>)

  datatype Testimonial = Testimonial(
    id: nat, name: string, title: string, rating: int, projectId: Option<nat>, isActive: bool)

  /** `s || fallback` for an optional string: an absent or empty string gives the fallback. */
  function OrElse(s: Option<string>, fallback: string): (r: string)
    ensures s.Some? && s.value != "" ==> r == s.value
    ensures s.None? || s.value == "" ==> r == fallback
  {
    if s.Some? && s.value != "" then s.value else fallback
  }

  /** The record `createProject` stores for an input under `id`. */
  function MakeProject(id: nat, p: ProjectInput): Project {
    Project(id, p.name, p.slug, p.location, p.pricePerSqFt, p.projectType,
      p.features.GetOr([]), p.expectedReturns, p.isActive.GetOr(true), p.isFeatured.GetOr(false))
  }

  function MakeBlogPost(id: nat, b: BlogPostInput, now: int): BlogPost {
    BlogPost(id, b.title, b.slug, b.category, b.readTime, b.isPublished.GetOr(false), now)
  }

  function MakeTestimonial(id: nat, t: TestimonialInput): Testimonial {
    Testimonial(id, t.name, t.title, t.rating.GetOr(5), t.projectId, t.isActive.GetOr(true))
  }

  // ---------------------------------------------------------------- keyed tables

  /** The keys of `s` strictly increase along it and all lie in `1 .. next - 1`:
      the last key is below `next` and the rest are keyed below the last. */
  predicate Keyed<T>(s: seq<T>, key: T -> nat, next: nat)
    decreases |s|
  {
    1 <= next && (|s| > 0 ==> key(s[|s| - 1]) < next && Keyed(s[..|s| - 1], key, key(s[|s| - 1])))
  }

  /** In a keyed table every key lies in `1 .. next - 1` and keys strictly increase. */
  lemma {:induction false} KeyedBounds<T>(s: seq<T>, key: T -> nat, next: nat)
    requires Keyed(s, key, next)
    ensures forall i :: 0 <= i < |s| ==> 1 <= key(s[i]) < next
    ensures forall i, j :: 0 <= i < j < |s| ==> key(s[i]) < key(s[j])
  {
    if |s| > 0 {
      var init, last := s[..|s| - 1], s[|s| - 1];
      KeyedBounds(init, key, key(last));
      assert forall i :: 0 <= i < |s| - 1 ==> s[i] == init[i];
    }
  }

  /** `map.get(k)` on a keyed table. */
  function Lookup<T>(s: seq<T>, key: T -> nat, k: nat): (r: Option<T>)
    ensures r.Some? ==> r.value in s && key(r.value) == k
    ensures r.None? <==> forall i :: 0 <= i < |s| ==> key(s[i]) != k
  {
    Find(s, x => key(x) == k)
  }

  /** Inserting a record under the next key keeps the table keyed, makes the
      new record the one found under its key and changes no other key's lookup. */
  lemma InsertFresh<T>(s: seq<T>, x: T, key: T -> nat, next: nat, k: nat)
    requires Keyed(s, key, next) && key(x) == next
    ensures Keyed(s + [x], key, next + 1)
    ensures Lookup(s, key, next) == None
    ensures Lookup(s + [x], key, k) == if k == next then Some(x) else Lookup(s, key, k)
  {
    assert (s + [x])[..|s|] == s;
    KeyedBounds(s, key, next);
    FindAppend(s, x, y => key(y) == k);
    assert forall i :: 0 <= i < |s| ==> (s + [x])[i] == s[i];
  }

  /** Appending a record under the next key keeps the table keyed. */
  lemma KeyedAppend<T>(s: seq<T>, x: T, key: T -> nat, next: nat)
    requires Keyed(s, key, next) && key(x) == next
    ensures Keyed(s + [x], key, next + 1)
  {
    assert (s + [x])[..|s|] == s;
  }

  /** Keys are unique in a keyed table, so a lookup is decided by the key alone. */
  lemma KeyedLookupIsUnique<T>(s: seq<T>, key: T -> nat, next: nat, i: nat)
    requires Keyed(s, key, next) && i < |s|
    ensures Lookup(s, key, key(s[i])) == Some(s[i])
  {
    KeyedBounds(s, key, next);
    var r := Lookup(s, key, key(s[i]));
    var j :| 0 <= j < |s| && s[j] == r.value;
  }

  function ProjectKey(p: Project): nat { p.id }
  function LeadKey(l: Lead): nat { l.id }
  function UserKey(u: User): nat { u.id }
  function BlogPostKey(b: BlogPost): nat { b.id }
  function TestimonialKey(t: Testimonial): nat { t.id }

  // ---------------------------------------------------------------- queries

  predicate IsActiveProject(p: Project) { p.isActive }
  predicate IsFeaturedProject(p: Project) { p.isActive && p.isFeatured }
  predicate IsPublishedPost(b: BlogPost) { b.isPublished }
  predicate IsActiveTestimonial(t: Testimonial) { t.isActive }

  /** `getProjects`: the active projects, in insertion order. */
  function ActiveProjects(ps: seq<Project>): (r: seq<Project>)
    ensures forall p :: p in r <==> p in ps && p.isActive
  {
    Filter(ps, IsActiveProject)
  }

  /** `getFeaturedProjects`: the projects both active and featured. */
  function FeaturedProjects(ps: seq<Project>): (r: seq<Project>)
    ensures forall p :: p in r <==> p in ps && p.isActive && p.isFeatured
  {
    Filter(ps, IsFeaturedProject)
  }

  /** `getProjectBySlug`: the first project stored with that slug, active or not. */
  function ProjectBySlug(ps: seq<Project>, slug: string): (r: Option<Project>)
    ensures r.Some? ==> r.value.slug == slug
    ensures r.Some? ==>
      exists k :: 0 <= k < |ps| && ps[k] == r.value && forall j :: 0 <= j < k ==> ps[j].slug != slug
    ensures r.None? <==> forall j :: 0 <= j < |ps| ==> ps[j].slug != slug
  {
    Find(ps, (p: Project) => p.slug == slug)
  }

  /** `getUserByEmail`: the first user stored with that e-mail address. */
  function UserByEmail(us: seq<User>, email: string): (r: Option<User>)
    ensures r.Some? ==> r.value.email == email
    ensures r.Some? ==>
      exists k :: 0 <= k < |us| && us[k] == r.value && forall j :: 0 <= j < k ==> us[j].email != email
    ensures r.None? <==> forall j :: 0 <= j < |us| ==> us[j].email != email
  {
    Find(us, (u: User) => u.email == email)
  }

  /** `getPublishedBlogPosts` */
  function PublishedPosts(bs: seq<BlogPost>): (r: seq<BlogPost>)
    ensures forall b :: b in r <==> b in bs && b.isPublished
  {
    Filter(bs, IsPublishedPost)
  }

  /** `getBlogPostBySlug` */
  function PostBySlug(bs: seq<BlogPost>, slug: string): (r: Option<BlogPost>)
    ensures r.Some? ==> r.value.slug == slug
    ensures r.Some? ==>
      exists k :: 0 <= k < |bs| && bs[k] == r.value && forall j :: 0 <= j < k ==> bs[j].slug != slug
    ensures r.None? <==> forall j :: 0 <= j < |bs| ==> bs[j].slug != slug
  {
    Find(bs, (b: BlogPost) => b.slug == slug)
  }

  /** `getActiveTestimonials` */
  function ActiveTestimonials(ts: seq<Testimonial>): (r: seq<Testimonial>)
    ensures forall t :: t in r <==> t in ts && t.isActive
  {
    Filter(ts, IsActiveTestimonial)
  }

  /** A newly created project appears at the end of `getProjects` exactly when
      it is active, and at the end of `getFeaturedProjects` exactly when it is
      also featured; the earlier results keep their order. */
  lemma CreatedProjectListed(ps: seq<Project>, p: Project)
    ensures ActiveProjects(ps + [p]) == ActiveProjects(ps) + (if p.isActive then [p] else [])
    ensures FeaturedProjects(ps + [p]) == FeaturedProjects(ps) + (if p.isActive && p.isFeatured then [p] else [])
  {
    FilterConcat(ps, [p], IsActiveProject);
    FilterConcat(ps, [p], IsFeaturedProject);
    assert [p][1..] == [];
  }

  /** A new project with a slug already in use is not what `getProjectBySlug`
      finds: the first one stored keeps the slug. */
  lemma SlugLookupKeepsFirst(ps: seq<Project>, p: Project, slug: string)
    ensures ProjectBySlug(ps + [p], slug) ==
      if ProjectBySlug(ps, slug).Some? then ProjectBySlug(ps, slug)
      else if p.slug == slug then Some(p) else None
  {
    FindAppend(ps, p, (p: Project) => p.slug == slug);
  }

  lemma CreatedPostListed(bs: seq<BlogPost>, b: BlogPost)
    ensures PublishedPosts(bs + [b]) == PublishedPosts(bs) + (if b.isPublished then [b] else [])
  {
    FilterConcat(bs, [b], IsPublishedPost);
    assert [b][1..] == [];
  }

  lemma CreatedTestimonialListed(ts: seq<Testimonial>, t: Testimonial)
    ensures ActiveTestimonials(ts + [t]) == ActiveTestimonials(ts) + (if t.isActive then [t] else [])
  {
    FilterConcat(ts, [t], IsActiveTestimonial);
    assert [t][1..] == [];
  }

  // ---------------------------------------------------------------- sample data

  function SampleProjects(): seq<ProjectInput> {
    [ ProjectInput("Ghat Coco Idyll", "ghat-coco-idyll", "Wayanad, Kerala", "199", "coconut",
        Some(["Cottage Construction Approved", "Coconut Plantation", "Western Ghats Location", "Weekend Farming"]),
        "12-15%", Some(true), Some(true)),
      ProjectInput("Malabar Spice Gardens", "malabar-spice-gardens", "Wayanad, Kerala", "245", "spice",
        Some(["Spice Plantation", "Cardamom Cultivation", "Pepper Vines", "Organic Farming"]),
        "15-18%", Some(true), Some(true)),
      ProjectInput("Backwater Bliss", "backwater-bliss", "Alleppey, Kerala", "320", "backwater",
        Some(["Backwater Access", "Aquaculture Potential", "Waterfront Views", "Traditional Architecture"]),
        "18-22%", Some(true), Some(true)),
      ProjectInput("Hill Station Retreat", "hill-station-retreat", "Munnar, Kerala", "280", "hill-station",
        Some(["Tea Plantation", "Cool Climate", "Mountain Views", "Hill Station Location"]),
        "14-17%", Some(true), Some(false)) ]
  }

  function SampleBlogPosts(): seq<BlogPostInput> {
    [ BlogPostInput("Weekend Farming: A Complete Beginner's Guide", "weekend-farming-beginners-guide",
        "Farming Tips", 5, Some(true)),
      BlogPostInput("Building Your Dream Cottage on Farmland", "building-cottage-on-farmland",
        "Construction", 8, Some(true)),
      BlogPostInput("Maximizing Returns from Managed Farmland", "maximizing-farmland-returns",
        "Investment", 6, Some(true)) ]
  }

  function SampleTestimonials(): seq<TestimonialInput> {
    [ TestimonialInput("Rajesh Srinivasan", "Software Engineer, Bangalore", Some(5), Some(1), Some(true)),
      TestimonialInput("Priya Menon", "Doctor, Chennai", Some(5), Some(2), Some(true)),
      TestimonialInput("Arun Kumar", "Entrepreneur, Mumbai", Some(5), Some(3), Some(true)) ]
  }

  /** What seeding stores in a table: the k-th sample under id k + 1. */
  predicate StoredProjects(ps: seq<Project>, samples: seq<ProjectInput>) {
    |ps| == |samples| && forall k :: 0 <= k < |ps| ==> ps[k] == MakeProject(k + 1, samples[k])
  }

  predicate StoredPosts(bs: seq<BlogPost>, samples: seq<BlogPostInput>, now: int) {
    |bs| == |samples| && forall k :: 0 <= k < |bs| ==> bs[k] == MakeBlogPost(k + 1, samples[k], now)
  }

  predicate StoredTestimonials(ts: seq<Testimonial>, samples: seq<TestimonialInput>) {
    |ts| == |samples| && forall k :: 0 <= k < |ts| ==> ts[k] == MakeTestimonial(k + 1, samples[k])
  }

  predicate SeededProjects(ps: seq<Project>) {
    StoredProjects(ps, SampleProjects())
  }

  predicate SeededPosts(bs: seq<BlogPost>, now: int) {
    StoredPosts(bs, SampleBlogPosts(), now)
  }

  predicate SeededTestimonials(ts: seq<Testimonial>) {
    StoredTestimonials(ts, SampleTestimonials())
  }

  /** The members of the sample projects that the seeded counts depend on:
      four projects, all active, the first three featured, and the slug
      "hill-station-retreat" on the fourth only. */
  predicate ProjectSampleFlags(s: seq<ProjectInput>) {
    |s| == 4 &&
    s[0].isActive == Some(true) && s[1].isActive == Some(true) &&
    s[2].isActive == Some(true) && s[3].isActive == Some(true) &&
    s[0].isFeatured == Some(true) && s[1].isFeatured == Some(true) &&
    s[2].isFeatured == Some(true) && s[3].isFeatured == Some(false) &&
    s[0].slug != "hill-station-retreat" && s[1].slug != "hill-station-retreat" &&
    s[2].slug != "hill-station-retreat" && s[3].slug == "hill-station-retreat"
  }

  /** Three sample posts, all published. */
  predicate PostSampleFlags(s: seq<BlogPostInput>) {
    |s| == 3 && s[0].isPublished == Some(true) && s[1].isPublished == Some(true) && s[2].isPublished == Some(true)
  }

  /** Three sample testimonials, all active, rated 5, for projects 1, 2 and 3. */
  predicate TestimonialSampleFlags(s: seq<TestimonialInput>) {
    |s| == 3 &&
    s[0].isActive == Some(true) && s[1].isActive == Some(true) && s[2].isActive == Some(true) &&
    s[0].rating == Some(5) && s[1].rating == Some(5) && s[2].rating == Some(5) &&
    s[0].projectId == Some(1) && s[1].projectId == Some(2) && s[2].projectId == Some(3)
  }

  lemma ProjectSamplesFlagged()
    ensures ProjectSampleFlags(SampleProjects())
  {
  }

  lemma PostSamplesFlagged()
    ensures PostSampleFlags(SampleBlogPosts())
  {
  }

  lemma TestimonialSamplesFlagged()
    ensures TestimonialSampleFlags(SampleTestimonials())
  {
  }

  /** After seeding there are four active projects, the first three of them
      featured, and "hill-station-retreat" is found by slug although it is
      not featured. */
  lemma SeededProjectCounts(ps: seq<Project>, samples: seq<ProjectInput>)
    requires StoredProjects(ps, samples) && ProjectSampleFlags(samples)
    ensures |ActiveProjects(ps)| == 4 && ActiveProjects(ps) == ps
    ensures |FeaturedProjects(ps)| == 3 && FeaturedProjects(ps) == ps[..3]
    ensures ProjectBySlug(ps, "hill-station-retreat") == Some(ps[3]) && !ps[3].isFeatured
  {
    assert ps[0] == MakeProject(1, samples[0]) && ps[1] == MakeProject(2, samples[1]);
    assert ps[2] == MakeProject(3, samples[2]) && ps[3] == MakeProject(4, samples[3]);
    SeededAllActive(ps);
    SeededFeatured(ps);
    SeededHillStation(ps);
  }

  lemma SeededAllActive(ps: seq<Project>)
    requires |ps| == 4 && ps[0].isActive && ps[1].isActive && ps[2].isActive && ps[3].isActive
    ensures ActiveProjects(ps) == ps
  {
    assert forall k :: 0 <= k < 4 ==> ps[k].isActive;
    FilterAll(ps, IsActiveProject);
  }

  lemma SeededFeatured(ps: seq<Project>)
    requires |ps| == 4 && ps[0].isActive && ps[1].isActive && ps[2].isActive
    requires ps[0].isFeatured && ps[1].isFeatured && ps[2].isFeatured && !ps[3].isFeatured
    ensures FeaturedProjects(ps) == ps[..3]
  {
    assert forall k :: 0 <= k < 3 ==> ps[..3][k].isActive && ps[..3][k].isFeatured;
    assert ps == ps[..3] + [ps[3]];
    FilterConcat(ps[..3], [ps[3]], IsFeaturedProject);
    FilterAll(ps[..3], IsFeaturedProject);
    assert [ps[3]][1..] == [];
  }

  lemma SeededHillStation(ps: seq<Project>)
    requires |ps| == 4 && ps[3].slug == "hill-station-retreat"
    requires ps[0].slug != "hill-station-retreat" && ps[1].slug != "hill-station-retreat" && ps[2].slug != "hill-station-retreat"
    ensures ProjectBySlug(ps, "hill-station-retreat") == Some(ps[3])
  {
  }

  /** After seeding all three blog posts are published. */
  lemma SeededPostCounts(bs: seq<BlogPost>, samples: seq<BlogPostInput>, now: int)
    requires StoredPosts(bs, samples, now) && PostSampleFlags(samples)
    ensures PublishedPosts(bs) == bs && |bs| == 3
  {
    assert bs[0] == MakeBlogPost(1, samples[0], now) && bs[1] == MakeBlogPost(2, samples[1], now);
    assert bs[2] == MakeBlogPost(3, samples[2], now);
    assert forall k :: 0 <= k < 3 ==> bs[k].isPublished;
    FilterAll(bs, IsPublishedPost);
  }

  /** After seeding all three testimonials are active, rated 5, for the
      projects with ids 1, 2 and 3. */
  lemma SeededTestimonialCounts(ts: seq<Testimonial>, samples: seq<TestimonialInput>)
    requires StoredTestimonials(ts, samples) && TestimonialSampleFlags(samples)
    ensures ActiveTestimonials(ts) == ts && |ts| == 3
    ensures forall k :: 0 <= k < 3 ==> ts[k].projectId == Some(k + 1) && ts[k].rating == 5
  {
    assert ts[0] == MakeTestimonial(1, samples[0]) && ts[1] == MakeTestimonial(2, samples[1]);
    assert ts[2] == MakeTestimonial(3, samples[2]);
    FilterAll(ts, IsActiveTestimonial);
  }

  // ---------------------------------------------------------------- the repository

  class MemStorage {
    var projects: seq<Project>
    var leads: seq<Lead>
    var users: seq<User>
    var blogPosts: seq<BlogPost>
    var testimonials: seq<Testimonial>
    var currentProjectId: nat
    var currentLeadId: nat
    var currentUserId: nat
    var currentBlogPostId: nat
    var currentTestimonialId: nat

    /** Every table is keyed by ids below its counter, increasing in insertion order. */
    predicate Valid()
      reads this
    {
      Keyed(projects, ProjectKey, currentProjectId) &&
      Keyed(leads, LeadKey, currentLeadId) &&
      Keyed(users, UserKey, currentUserId) &&
      Keyed(blogPosts, BlogPostKey, currentBlogPostId) &&
      Keyed(testimonials, TestimonialKey, currentTestimonialId)
    }

    /** Empty tables, counters at 1, then the sample data; `now` is the seeding time. */
    constructor (now: int)
      ensures Valid()
      ensures SeededProjects(projects) && SeededPosts(blogPosts, now) && SeededTestimonials(testimonials)
      ensures leads == [] && users == []
      ensures currentProjectId == 5 && currentBlogPostId == 4 && currentTestimonialId == 4
      ensures currentLeadId == 1 && currentUserId == 1
    {
      projects, leads, users, blogPosts, testimonials := [], [], [], [], [];
      currentProjectId, currentLeadId, currentUserId, currentBlogPostId, currentTestimonialId := 1, 1, 1, 1, 1;
      new;
      InitializeData(now);
    }

    method InitializeData(now: int)
      requires Valid()
      requires projects == [] && blogPosts == [] && testimonials == []
      requires currentProjectId == 1 && currentBlogPostId == 1 && currentTestimonialId == 1
      modifies this
      ensures Valid()
      ensures SeededProjects(projects) && SeededPosts(blogPosts, now) && SeededTestimonials(testimonials)
      ensures leads == old(leads) && users == old(users)
      ensures currentLeadId == old(currentLeadId) && currentUserId == old(currentUserId)
      ensures currentProjectId == 5 && currentBlogPostId == 4 && currentTestimonialId == 4
      ensures |ActiveProjects(projects)| == 4 && |FeaturedProjects(projects)| == 3
      ensures |PublishedPosts(blogPosts)| == 3 && |ActiveTestimonials(testimonials)| == 3
    {
      SeedProjects(SampleProjects());
      SeedBlogPosts(SampleBlogPosts(), now);
      SeedTestimonials(SampleTestimonials());
      ProjectSamplesFlagged();
      PostSamplesFlagged();
      TestimonialSamplesFlagged();
      SeededProjectCounts(projects, SampleProjects());
      SeededPostCounts(blogPosts, SampleBlogPosts(), now);
      SeededTestimonialCounts(testimonials, SampleTestimonials());
    }

    /** `samples.forEach(project => this.createProject(project))` */
    method SeedProjects(samples: seq<ProjectInput>)
      requires Valid() && projects == [] && currentProjectId == 1
      modifies this
      ensures Valid() && StoredProjects(projects, samples) && currentProjectId == |samples| + 1
      ensures leads == old(leads) && users == old(users) && blogPosts == old(blogPosts) && testimonials == old(testimonials)
      ensures currentLeadId == old(currentLeadId) && currentUserId == old(currentUserId)
      ensures currentBlogPostId == old(currentBlogPostId) && currentTestimonialId == old(currentTestimonialId)
    {
      for i := 0 to |samples|
        invariant Valid()
        invariant |projects| == i && currentProjectId == i + 1
        invariant forall k :: 0 <= k < i ==> projects[k] == MakeProject(k + 1, samples[k])
        invariant leads == old(leads) && users == old(users) && blogPosts == old(blogPosts) && testimonials == old(testimonials)
        invariant currentLeadId == old(currentLeadId) && currentUserId == old(currentUserId)
        invariant currentBlogPostId == old(currentBlogPostId) && currentTestimonialId == old(currentTestimonialId)
      {
        var _ := CreateProject(samples[i]);
      }
    }

    method SeedBlogPosts(samples: seq<BlogPostInput>, now: int)
      requires Valid() && blogPosts == [] && currentBlogPostId == 1
      modifies this
      ensures Valid() && StoredPosts(blogPosts, samples, now) && currentBlogPostId == |samples| + 1
      ensures projects == old(projects) && leads == old(leads) && users == old(users) && testimonials == old(testimonials)
      ensures currentProjectId == old(currentProjectId) && currentLeadId == old(currentLeadId)
      ensures currentUserId == old(currentUserId) && currentTestimonialId == old(currentTestimonialId)
    {
      for i := 0 to |samples|
        invariant Valid()
        invariant |blogPosts| == i && currentBlogPostId == i + 1
        invariant forall k :: 0 <= k < i ==> blogPosts[k] == MakeBlogPost(k + 1, samples[k], now)
        invariant projects == old(projects) && leads == old(leads) && users == old(users) && testimonials == old(testimonials)
        invariant currentProjectId == old(currentProjectId) && currentLeadId == old(currentLeadId)
        invariant currentUserId == old(currentUserId) && currentTestimonialId == old(currentTestimonialId)
      {
        var _ := CreateBlogPost(samples[i], now);
      }
    }

    method SeedTestimonials(samples: seq<TestimonialInput>)
      requires Valid() && testimonials == [] && currentTestimonialId == 1
      modifies this
      ensures Valid() && StoredTestimonials(testimonials, samples) && currentTestimonialId == |samples| + 1
      ensures projects == old(projects) && leads == old(leads) && users == old(users) && blogPosts == old(blogPosts)
      ensures currentProjectId == old(currentProjectId) && currentLeadId == old(currentLeadId)
      ensures currentUserId == old(currentUserId) && currentBlogPostId == old(currentBlogPostId)
    {
      for i := 0 to |samples|
        invariant Valid()
        invariant |testimonials| == i && currentTestimonialId == i + 1
        invariant forall k :: 0 <= k < i ==> testimonials[k] == MakeTestimonial(k + 1, samples[k])
        invariant projects == old(projects) && leads == old(leads) && users == old(users) && blogPosts == old(blogPosts)
        invariant currentProjectId == old(currentProjectId) && currentLeadId == old(currentLeadId)
        invariant currentUserId == old(currentUserId) && currentBlogPostId == old(currentBlogPostId)
      {
        var _ := CreateTestimonial(samples[i]);
      }
    }

    // -------------------------------------------------------------- projects

    function GetProjects(): seq<Project>
      reads this
    {
      ActiveProjects(projects)
    }

    function GetFeaturedProjects(): seq<Project>
      reads this
    {
      FeaturedProjects(projects)
    }

    function GetProject(id: nat): Option<Project>
      reads this
    {
      Lookup(projects, ProjectKey, id)
    }

    function GetProjectBySlug(slug: string): Option<Project>
      reads this
    {
      ProjectBySlug(projects, slug)
    }

    /** Stores the project under the next id, with `isActive` true, `isFeatured`
        false and `features` empty unless given; nothing else changes. */
    method CreateProject(input: ProjectInput) returns (p: Project)
      requires Valid()
      modifies this
      ensures Valid()
      ensures p.id == old(currentProjectId) && currentProjectId == old(currentProjectId) + 1
      ensures p == MakeProject(p.id, input)
      ensures p.isActive == input.isActive.GetOr(true) && p.isFeatured == input.isFeatured.GetOr(false)
      ensures p.features == input.features.GetOr([])
      ensures projects == old(projects) + [p]
      ensures forall i :: 0 <= i < |old(projects)| ==> old(projects)[i].id < p.id
      ensures leads == old(leads) && users == old(users) && blogPosts == old(blogPosts) && testimonials == old(testimonials)
      ensures currentLeadId == old(currentLeadId) && currentUserId == old(currentUserId)
      ensures currentBlogPostId == old(currentBlogPostId) && currentTestimonialId == old(currentTestimonialId)
    {
      var id := currentProjectId;
      currentProjectId := currentProjectId + 1;
      p := MakeProject(id, input);
      KeyedAppend(projects, p, ProjectKey, id);
      KeyedBounds(projects, ProjectKey, id);
      projects := projects + [p];
    }

    // -------------------------------------------------------------- leads

    function GetLeads(): seq<Lead>
      reads this
    {
      leads
    }

    /** Stores the lead under the next id with source "website" and language
        "en" unless given (an empty string counts as not given), the optional
        details absent unless given, and the creation time `now`. */
    method CreateLead(input: LeadInput, now: int) returns (l: Lead)
      requires Valid()
      modifies this
      ensures Valid()
      ensures l.id == old(currentLeadId) && currentLeadId == old(currentLeadId) + 1
      ensures l.source == OrElse(input.source, "website") && l.language == OrElse(input.language, "en")
      ensures l.projectInterest == input.projectInterest && l.budget == input.budget
      ensures l.purpose == input.purpose && l.requirements == input.requirements
      ensures l.name == input.name && l.email == input.email && l.phone == input.phone && l.message == input.message
      ensures l.createdAt == now
      ensures leads == old(leads) + [l]
      ensures forall i :: 0 <= i < |old(leads)| ==> old(leads)[i].id < l.id
      ensures projects == old(projects) && users == old(users) && blogPosts == old(blogPosts) && testimonials == old(testimonials)
      ensures currentProjectId == old(currentProjectId) && currentUserId == old(currentUserId)
      ensures currentBlogPostId == old(currentBlogPostId) && currentTestimonialId == old(currentTestimonialId)
    {
      var id := currentLeadId;
      currentLeadId := currentLeadId + 1;
      l := Lead(id, input.name, input.email, input.phone, input.message,
        OrElse(input.source, "website"), OrElse(input.language, "en"),
        input.projectInterest, input.budget, input.purpose, input.requirements, now);
      KeyedAppend(leads, l, LeadKey, id);
      KeyedBounds(leads, LeadKey, id);
      leads := leads + [l];
    }

    // -------------------------------------------------------------- users

    function GetUsers(): seq<User>
      reads this
    {
      users
    }

    function GetUser(id: nat): Option<User>
      reads this
    {
      Lookup(users, UserKey, id)
    }

    function GetUserByEmail(email: string): Option<User>
      reads this
    {
      UserByEmail(users, email)
    }

    /** Stores the user under the next id, created and updated at `now`. */
    method CreateUser(input: UserInput, now: int) returns (u: User)
      requires Valid()
      modifies this
      ensures Valid()
      ensures u == User(old(currentUserId), input.email, input.name, input.password, now, now)
      ensures currentUserId == old(currentUserId) + 1
      ensures users == old(users) + [u]
      ensures forall i :: 0 <= i < |old(users)| ==> old(users)[i].id < u.id
      ensures projects == old(projects) && leads == old(leads) && blogPosts == old(blogPosts) && testimonials == old(testimonials)
      ensures currentProjectId == old(currentProjectId) && currentLeadId == old(currentLeadId)
      ensures currentBlogPostId == old(currentBlogPostId) && currentTestimonialId == old(currentTestimonialId)
    {
      var id := currentUserId;
      currentUserId := currentUserId + 1;
      u := User(id, input.email, input.name, input.password, now, now);
      KeyedAppend(users, u, UserKey, id);
      KeyedBounds(users, UserKey, id);
      users := users + [u];
    }

    // -------------------------------------------------------------- blog posts

    function GetBlogPosts(): seq<BlogPost>
      reads this
    {
      blogPosts
    }

    function GetPublishedBlogPosts(): seq<BlogPost>
      reads this
    {
      PublishedPosts(blogPosts)
    }

    function GetBlogPost(id: nat): Option<BlogPost>
      reads this
    {
      Lookup(blogPosts, BlogPostKey, id)
    }

    function GetBlogPostBySlug(slug: string): Option<BlogPost>
      reads this
    {
      PostBySlug(blogPosts, slug)
    }

    /** Stores the post under the next id, unpublished unless given, created at `now`. */
    method CreateBlogPost(input: BlogPostInput, now: int) returns (b: BlogPost)
      requires Valid()
      modifies this
      ensures Valid()
      ensures b.id == old(currentBlogPostId) && currentBlogPostId == old(currentBlogPostId) + 1
      ensures b == MakeBlogPost(b.id, input, now) && b.isPublished == input.isPublished.GetOr(false)
      ensures blogPosts == old(blogPosts) + [b]
      ensures forall i :: 0 <= i < |old(blogPosts)| ==> old(blogPosts)[i].id < b.id
      ensures projects == old(projects) && leads == old(leads) && users == old(users) && testimonials == old(testimonials)
      ensures currentProjectId == old(currentProjectId) && currentLeadId == old(currentLeadId)
      ensures currentUserId == old(currentUserId) && currentTestimonialId == old(currentTestimonialId)
    {
      var id := currentBlogPostId;
      currentBlogPostId := currentBlogPostId + 1;
      b := MakeBlogPost(id, input, now);
      KeyedAppend(blogPosts, b, BlogPostKey, id);
      KeyedBounds(blogPosts, BlogPostKey, id);
      blogPosts := blogPosts + [b];
    }

    // -------------------------------------------------------------- testimonials

    function GetTestimonials(): seq<Testimonial>
      reads this
    {
      testimonials
    }

    function GetActiveTestimonials(): seq<Testimonial>
      reads this
    {
      ActiveTestimonials(testimonials)
    }

    /** Stores the testimonial under the next id, with rating 5, active, and
        no project unless given. */
    method CreateTestimonial(input: TestimonialInput) returns (t: Testimonial)
      requires Valid()
      modifies this
      ensures Valid()
      ensures t.id == old(currentTestimonialId) && currentTestimonialId == old(currentTestimonialId) + 1
      ensures t == MakeTestimonial(t.id, input)
      ensures t.rating == input.rating.GetOr(5) && t.isActive == input.isActive.GetOr(true) && t.projectId == input.projectId
      ensures testimonials == old(testimonials) + [t]
      ensures forall i :: 0 <= i < |old(testimonials)| ==> old(testimonials)[i].id < t.id
      ensures projects == old(projects) && leads == old(leads) && users == old(users) && blogPosts == old(blogPosts)
      ensures currentProjectId == old(currentProjectId) && currentLeadId == old(currentLeadId)
      ensures currentUserId == old(currentUserId) && currentBlogPostId == old(currentBlogPostId)
    {
      var id := currentTestimonialId;
      currentTestimonialId := currentTestimonialId + 1;
      t := MakeTestimonial(id, input);
      KeyedAppend(testimonials, t, TestimonialKey, id);
      KeyedBounds(testimonials, TestimonialKey, id);
      testimonials := testimonials + [t];
    }
  }
}
