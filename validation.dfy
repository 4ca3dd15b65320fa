/** The request validators: the slug, phone and price patterns, coordinate
    bounds, the project-type enumeration, pagination bounds, and the lead,
    project, testimonial and user-update schemas. Formats that the schemas
    delegate to the validation library (e-mail, UUID, URL) are parameters. */
module Validation {
  import opened Wrappers
  import opened Strings
  import opened Seqs
  import Errors

  // ---------------------------------------------------------------- slug: ^[a-z0-9]+(?:-[a-z0-9]+)*$

  predicate IsSlugChar(c: char) {
    'a' <= c <= 'z' || '0' <= c <= '9'
  }

  predicate AllSlugChars(s: string) {
    forall i :: 0 <= i < |s| ==> IsSlugChar(s[i])
  }

  /** Where the slug pattern stands: expecting the first character of a run, or inside a run. */
  datatype SlugState = ExpectRun | InRun

  /** The slug pattern as a left-to-right matcher. */
  function SlugScan(s: string, st: SlugState): bool {
    if |s| == 0 then st == InRun
    else if IsSlugChar(s[0]) then SlugScan(s[1..], InRun)
    else if s[0] == '-' && st == InRun then SlugScan(s[1..], ExpectRun)
    else false
  }

  /** `slugRegex.test(s)` */
  predicate IsSlug(s: string) {
    SlugScan(s, ExpectRun)
  }

  /** Every piece is a non-empty run of `[a-z0-9]`. */
  predicate AllRuns(pieces: seq<string>) {
    forall i :: 0 <= i < |pieces| ==> |pieces[i]| >= 1 && AllSlugChars(pieces[i])
  }

  /** A slug is one or more runs of [a-z0-9] joined by single hyphens: the
      pieces between hyphens are all non-empty runs, so there is no leading,
      trailing or doubled hyphen. */
  lemma SlugIffRuns(s: string)
    ensures IsSlug(s) <==> AllRuns(Split(s, '-'))
  {
    SlugScanSpec(s);
  }

  lemma SlugCharsCons(c: char, x: string)
    ensures AllSlugChars([c] + x) <==> IsSlugChar(c) && AllSlugChars(x)
  {
    var y := [c] + x;
    assert y[0] == c;
    assert forall j :: 0 <= j < |x| ==> x[j] == y[j + 1];
  }

  lemma {:induction false} SlugScanSpec(s: string)
    ensures SlugScan(s, ExpectRun) <==> AllRuns(Split(s, '-'))
    ensures SlugScan(s, InRun) <==> AllSlugChars(Split(s, '-')[0]) && AllRuns(Split(s, '-')[1..])
  {
    var r := Split(s, '-');
    if |s| > 0 {
      SlugScanSpec(s[1..]);
      var rest := Split(s[1..], '-');
      if s[0] == '-' {
        assert r == [""] + rest;
        assert r[1..] == rest;
        assert !AllRuns(r) by { assert |r[0]| == 0; }
      } else {
        assert r == [[s[0]] + rest[0]] + rest[1..];
        assert r[1..] == rest[1..];
        assert r[0] == [s[0]] + rest[0];
        SlugCharsCons(s[0], rest[0]);
        assert AllRuns(r) <==> AllSlugChars(r[0]) && AllRuns(r[1..]) by {
          assert |r[0]| >= 1;
          assert forall i :: 1 <= i < |r| ==> r[i] == r[1..][i - 1];
        }
        assert AllRuns(rest) <==> |rest[0]| >= 1 && AllSlugChars(rest[0]) && AllRuns(rest[1..]) by {
          assert forall i :: 1 <= i < |rest| ==> rest[i] == rest[1..][i - 1];
        }
      }
    }
  }

  // ---------------------------------------------------------------- phone: ^\+?[\d\s-()]+$

  /** JavaScript's `\s`: the white-space and line-terminator code points. */
  predicate IsJsSpace(c: char) {
    var n := c as int;
    (9 <= n <= 13) || n == 0x20 || n == 0xA0 || n == 0x1680 || (0x2000 <= n <= 0x200A) ||
    n == 0x2028 || n == 0x2029 || n == 0x202F || n == 0x205F || n == 0x3000 || n == 0xFEFF
  }

  /** The class `[\d\s-()]`: a digit, white space, '-', '(' or ')'. */
  predicate IsPhoneChar(c: char) {
    IsDigit(c) || IsJsSpace(c) || c == '-' || c == '(' || c == ')'
  }

  predicate AllPhoneChars(s: string) {
    forall i :: 0 <= i < |s| ==> IsPhoneChar(s[i])
  }

  datatype PhoneState = PhoneStart | AfterPlus | InBody

  /** The phone pattern as a left-to-right matcher; as '+' is not in the class,
      the optional '+' never needs backtracking. */
  function PhoneScan(s: string, st: PhoneState): bool {
    if |s| == 0 then st == InBody
    else if s[0] == '+' && st == PhoneStart then PhoneScan(s[1..], AfterPlus)
    else if IsPhoneChar(s[0]) then PhoneScan(s[1..], InBody)
    else false
  }

  /** `phoneRegex.test(s)` */
  predicate IsPhone(s: string) {
    PhoneScan(s, PhoneStart)
  }

  lemma {:induction false} PhoneBody(s: string)
    ensures PhoneScan(s, AfterPlus) <==> |s| >= 1 && AllPhoneChars(s)
    ensures PhoneScan(s, InBody) <==> AllPhoneChars(s)
  {
    if |s| > 0 {
      PhoneBody(s[1..]);
      assert forall i :: 1 <= i < |s| ==> s[i] == s[1..][i - 1];
    }
  }

  /** A phone number is an optional '+' followed by one or more characters,
      each a digit, white space, '-', '(' or ')'. */
  lemma PhoneIff(s: string)
    ensures IsPhone(s) <==>
      var body := if |s| > 0 && s[0] == '+' then s[1..] else s;
      |body| >= 1 && AllPhoneChars(body)
  {
    if |s| > 0 {
      PhoneBody(s[1..]);
      assert forall i :: 1 <= i < |s| ==> s[i] == s[1..][i - 1];
    }
  }

  // ---------------------------------------------------------------- price: ^\d+(\.\d{1,2})?$

  datatype PriceState = PriceStart | IntDigits | AfterDot | OneDecimal | TwoDecimals

  function PriceScan(s: string, st: PriceState): bool {
    if |s| == 0 then st == IntDigits || st == OneDecimal || st == TwoDecimals
    else if IsDigit(s[0]) then
      match st
      case PriceStart => PriceScan(s[1..], IntDigits)
      case IntDigits => PriceScan(s[1..], IntDigits)
      case AfterDot => PriceScan(s[1..], OneDecimal)
      case OneDecimal => PriceScan(s[1..], TwoDecimals)
      case TwoDecimals => false
    else if s[0] == '.' && st == IntDigits then PriceScan(s[1..], AfterDot)
    else false
  }

  /** The `pricePerSqFt` pattern. */
  predicate IsPrice(s: string) {
    PriceScan(s, PriceStart)
  }

  predicate AllDigits(s: string) {
    forall i :: 0 <= i < |s| ==> IsDigit(s[i])
  }

  lemma PriceFraction(s: string)
    ensures PriceScan(s, AfterDot) <==> 1 <= |s| <= 2 && AllDigits(s)
  {
    if |s| > 0 && IsDigit(s[0]) {
      var s1 := s[1..];
      assert PriceScan(s, AfterDot) == PriceScan(s1, OneDecimal);
      if |s1| > 0 {
        var s2 := s1[1..];
        assert s1[0] == s[1] && s2 == s[2..];
        if IsDigit(s1[0]) {
          assert PriceScan(s1, OneDecimal) == PriceScan(s2, TwoDecimals);
          if |s2| > 0 {
            assert !PriceScan(s2, TwoDecimals);
          }
        }
      }
    }
  }

  lemma {:induction false} PriceIntegerPart(s: string)
    ensures PriceScan(s, IntDigits) <==>
      var k := DigitRun(s);
      k == |s| || (s[k] == '.' && AllDigits(s[k + 1..]) && 1 <= |s| - k - 1 <= 2)
  {
    if |s| > 0 {
      if IsDigit(s[0]) {
        PriceIntegerPart(s[1..]);
        assert DigitRun(s) == 1 + DigitRun(s[1..]);
        var k := DigitRun(s[1..]);
        if k < |s[1..]| {
          assert s[1..][k] == s[k + 1];
          assert s[1..][k + 1..] == s[k + 2..];
        }
      } else if s[0] == '.' {
        PriceFraction(s[1..]);
        assert DigitRun(s) == 0;
      }
    }
  }

  /** A price is one or more digits, optionally followed by '.' and one or two digits. */
  lemma PriceIff(s: string)
    ensures IsPrice(s) <==>
      var k := DigitRun(s);
      k >= 1 && (k == |s| || (s[k] == '.' && 1 <= |s| - k - 1 <= 2 && AllDigits(s[k + 1..])))
  {
    if |s| > 0 && IsDigit(s[0]) {
      PriceIntegerPart(s[1..]);
      var k := DigitRun(s[1..]);
      if k < |s[1..]| {
        assert s[1..][k] == s[k + 1];
        assert s[1..][k + 1..] == s[k + 2..];
      }
    }
  }

  // ---------------------------------------------------------------- coordinates

  datatype Coordinates = Coordinates(lat: real, lng: real)

  /** The issues `coordinatesSchema` reports, in the order the checks run:
      each bound of each member is checked on its own, so an out-of-range
      value gives exactly one issue, under its own key. */
  function CoordinateIssues(c: Coordinates): seq<Errors.ZodIssue> {
    (if c.lat < -90.0 then [Errors.ZodIssue([Errors.Key("lat")], "Number must be greater than or equal to -90", "too_small")] else []) +
    (if c.lat > 90.0 then [Errors.ZodIssue([Errors.Key("lat")], "Latitude must be between -90 and 90", "too_big")] else []) +
    (if c.lng < -180.0 then [Errors.ZodIssue([Errors.Key("lng")], "Number must be greater than or equal to -180", "too_small")] else []) +
    (if c.lng > 180.0 then [Errors.ZodIssue([Errors.Key("lng")], "Longitude must be between -180 and 180", "too_big")] else [])
  }

  /** Coordinates are accepted exactly when -90 <= lat <= 90 and -180 <= lng <= 180;
      otherwise every issue names the offending member, and the error
      response built from them lists the field "lat" or "lng". */
  lemma CoordinatesAcceptedIff(c: Coordinates)
    ensures CoordinateIssues(c) == [] <==> -90.0 <= c.lat <= 90.0 && -180.0 <= c.lng <= 180.0
    ensures |CoordinateIssues(c)| <= 2
    ensures forall i :: 0 <= i < |CoordinateIssues(c)| ==>
      Errors.HandleZodError(CoordinateIssues(c)).details.value[i].field in {"lat", "lng"}
  {
    var issues := CoordinateIssues(c);
    forall i | 0 <= i < |issues|
      ensures Errors.HandleZodError(issues).details.value[i].field in {"lat", "lng"}
    {
      assert issues[i].path == [Errors.Key("lat")] || issues[i].path == [Errors.Key("lng")];
    }
  }

  // ---------------------------------------------------------------- project type

  datatype ProjectType = Coconut | Spice | Backwater

  function ProjectTypeName(t: ProjectType): string {
    match t
    case Coconut => "coconut"
    case Spice => "spice"
    case Backwater => "backwater"
  }

  /** `projectTypeSchema.safeParse(s)` */
  function ParseProjectType(s: string): (r: Option<ProjectType>)
    ensures r.Some? <==> s in ["coconut", "spice", "backwater"]
  {
    if s == "coconut" then Some(Coconut)
    else if s == "spice" then Some(Spice)
    else if s == "backwater" then Some(Backwater)
    else None
  }

  /** The enumeration accepts exactly the names of its members, so
      "hill-station", a type the seed data uses, is rejected. */
  lemma ProjectTypeRoundTrip(t: ProjectType, s: string)
    ensures ParseProjectType(ProjectTypeName(t)) == Some(t)
    ensures ParseProjectType(s) == Some(t) ==> s == ProjectTypeName(t)
    ensures ParseProjectType("hill-station") == None
  {
  }

  // ---------------------------------------------------------------- pagination bounds

  datatype QueryKind = ProjectsQuery | LeadsQuery | BlogQuery

  /** The largest `limit` each query schema accepts. */
  function MaxLimit(k: QueryKind): nat {
    match k
    case ProjectsQuery => 50
    case LeadsQuery => 100
    case BlogQuery => 20
  }

  /** The `limit` and `offset` members of a query schema, after `parseInt`:
      a limit must lie in 1..MaxLimit(k) and an offset must not be negative. */
  predicate ValidPage(k: QueryKind, limit: Option<int>, offset: Option<int>) {
    (limit.None? || 1 <= limit.value <= MaxLimit(k)) && (offset.None? || offset.value >= 0)
  }

  /** A validated query never asks for more rows than its schema's maximum. */
  lemma ValidPageIsBounded<T>(k: QueryKind, limit: int, offset: int, rows: seq<T>)
    requires ValidPage(k, Some(limit), Some(offset))
    ensures 0 <= offset && 1 <= limit
    ensures |Page(rows, Some(limit as nat), offset as nat)| <= MaxLimit(k)
  {
  }

  // ---------------------------------------------------------------- lead schema

  datatype LeadSource = Website | Referral | Social | Advertisement

  function ParseLeadSource(s: string): Option<LeadSource> {
    if s == "website" then Some(Website)
    else if s == "referral" then Some(Referral)
    else if s == "social" then Some(Social)
    else if s == "advertisement" then Some(Advertisement)
    else None
  }

  /** The request body of a lead submission, before validation. */
  datatype LeadInput = LeadInput(
    name: string, email: string, phone: string, projectId: Option<string>,
    message: Option<string>, source: Option<string>, interests: Option<seq<string>>)

  /** A lead submission that passed `createLeadSchema`. */
  datatype CreateLead = CreateLead(
    name: string, email: string, phone: string, projectId: Option<string>,
    message: Option<string>, source: LeadSource, interests: seq<ProjectType>)

  predicate LengthIn(s: string, lo: nat, hi: nat) {
    lo <= |s| <= hi
  }

  function ParseInterests(xs: seq<string>): (r: Option<seq<ProjectType>>)
    ensures r.Some? <==> forall i :: 0 <= i < |xs| ==> ParseProjectType(xs[i]).Some?
    ensures r.Some? ==> |r.value| == |xs| && forall i :: 0 <= i < |xs| ==> ParseProjectType(xs[i]) == Some(r.value[i])
  {
    if |xs| == 0 then Some([])
    else
      match (ParseProjectType(xs[0]), ParseInterests(xs[1..]))
      case (Some(t), Some(ts)) => Some([t] + ts)
      case _ => None
  }

  /** `createLeadSchema.safeParse(input)`; `isEmail` and `isUuid` are the
      library's format checks. */
  function ParseCreateLead(input: LeadInput, isEmail: string -> bool, isUuid: string -> bool): (r: Option<CreateLead>)
    ensures r.Some? <==>
      LengthIn(input.name, 2, 100) && isEmail(input.email) && IsPhone(input.phone) &&
      (input.projectId.None? || isUuid(input.projectId.value)) &&
      (input.message.None? || |input.message.value| <= 500) &&
      (input.source.None? || ParseLeadSource(input.source.value).Some?) &&
      input.interests.Some? && |input.interests.value| <= 3 &&
      (forall i :: 0 <= i < |input.interests.value| ==> ParseProjectType(input.interests.value[i]).Some?)
  {
    if LengthIn(input.name, 2, 100) && isEmail(input.email) && IsPhone(input.phone) &&
      (input.projectId.None? || isUuid(input.projectId.value)) &&
      (input.message.None? || |input.message.value| <= 500) &&
      (input.source.None? || ParseLeadSource(input.source.value).Some?) &&
      input.interests.Some? && |input.interests.value| <= 3 &&
      ParseInterests(input.interests.value).Some?
    then
      var source := if input.source.None? then Website else ParseLeadSource(input.source.value).value;
      Some(CreateLead(input.name, input.email, input.phone, input.projectId, input.message,
        source, ParseInterests(input.interests.value).value))
    else None
  }

  /** An accepted lead has at most three interests, each the project type that
      was named, and a source of "website" when none was given. */
  lemma AcceptedLead(input: LeadInput, isEmail: string -> bool, isUuid: string -> bool)
    requires ParseCreateLead(input, isEmail, isUuid).Some?
    ensures var lead := ParseCreateLead(input, isEmail, isUuid).value;
      |lead.interests| <= 3 &&
      (forall i :: 0 <= i < |lead.interests| ==> ProjectTypeName(lead.interests[i]) == input.interests.value[i]) &&
      (input.source.None? ==> lead.source == Website) &&
      lead.name == input.name && lead.email == input.email && lead.phone == input.phone
  {
    var lead := ParseCreateLead(input, isEmail, isUuid).value;
    forall i | 0 <= i < |lead.interests|
      ensures ProjectTypeName(lead.interests[i]) == input.interests.value[i]
    {
      ProjectTypeRoundTrip(lead.interests[i], input.interests.value[i]);
    }
  }

  function LeadSourceName(s: LeadSource): string {
    match s
    case Website => "website"
    case Referral => "referral"
    case Social => "social"
    case Advertisement => "advertisement"
  }

  /** The request body that carries an accepted lead as it is. */
  function LeadToBody(lead: CreateLead): LeadInput {
    LeadInput(lead.name, lead.email, lead.phone, lead.projectId, lead.message,
      Some(LeadSourceName(lead.source)), Some(seq(|lead.interests|, i requires 0 <= i < |lead.interests| => ProjectTypeName(lead.interests[i]))))
  }

  /** Validation is idempotent on leads: sending an accepted lead again, with
      its defaults written out, is accepted and gives the same lead. */
  lemma LeadReparse(input: LeadInput, isEmail: string -> bool, isUuid: string -> bool)
    requires ParseCreateLead(input, isEmail, isUuid).Some?
    ensures ParseCreateLead(LeadToBody(ParseCreateLead(input, isEmail, isUuid).value), isEmail, isUuid) ==
      ParseCreateLead(input, isEmail, isUuid)
  {
    var lead := ParseCreateLead(input, isEmail, isUuid).value;
    var body := LeadToBody(lead);
    var names := body.interests.value;
    forall i | 0 <= i < |names|
      ensures ParseProjectType(names[i]) == Some(lead.interests[i])
    {
      ProjectTypeRoundTrip(lead.interests[i], names[i]);
    }
    assert ParseInterests(names).value == lead.interests;
    assert ParseLeadSource(LeadSourceName(lead.source)) == Some(lead.source) by {
      match lead.source
      case Website =>
      case Referral =>
      case Social =>
      case Advertisement =>
    }
  }

  // ---------------------------------------------------------------- user update schema

  datatype UpdateUserInput = UpdateUserInput(
    name: Option<string>, phone: Option<string>, currentPassword: Option<string>, newPassword: Option<string>)

  /** JavaScript truthiness of an optional string. */
  predicate Truthy(s: Option<string>) {
    s.Some? && s.value != ""
  }

  /** The refinement callback: false when a new password is given without the current one. */
  predicate PasswordChangeRefine(u: UpdateUserInput) {
    !(Truthy(u.newPassword) && !Truthy(u.currentPassword))
  }

  /** The issue the refinement reports when it fails: at path `currentPassword`. */
  function PasswordChangeIssues(u: UpdateUserInput): (r: seq<Errors.ZodIssue>)
    ensures r == [] <==> PasswordChangeRefine(u)
    ensures forall i :: 0 <= i < |r| ==> Errors.FieldName(r[i].path) == "currentPassword"
  {
    if PasswordChangeRefine(u) then []
    else [Errors.ZodIssue([Errors.Key("currentPassword")], "Current password is required when changing password", "custom")]
  }

  /** `updateUserSchema.safeParse(u).success` */
  predicate UpdateUserValid(u: UpdateUserInput) {
    (u.name.None? || LengthIn(u.name.value, 2, 100)) &&
    (u.phone.None? || IsPhone(u.phone.value)) &&
    (u.currentPassword.None? || |u.currentPassword.value| >= 8) &&
    (u.newPassword.None? || |u.newPassword.value| >= 8) &&
    PasswordChangeRefine(u)
  }

  /** A new password without the current one is always rejected; given both
      (long enough) passwords, the refinement never objects. */
  lemma PasswordChangeNeedsCurrent(u: UpdateUserInput)
    ensures u.newPassword.Some? && u.currentPassword.None? ==> !UpdateUserValid(u)
    ensures UpdateUserValid(u) && Truthy(u.newPassword) ==> u.currentPassword.Some? && |u.currentPassword.value| >= 8
    ensures u.newPassword.None? ==> PasswordChangeRefine(u)
  {
  }

  // ---------------------------------------------------------------- project schema

  datatype ProjectInput = ProjectInput(
    name: string, location: string, pricePerSqFt: string, projectType: string,
    coordinates: Coordinates, description: string, features: seq<string>, images: seq<string>,
    availableArea: real, minInvestment: real, expectedReturns: string,
    featured: Option<bool>, active: Option<bool>)

  datatype CreateProject = CreateProject(
    name: string, location: string, pricePerSqFt: string, projectType: ProjectType,
    coordinates: Coordinates, description: string, features: seq<string>, images: seq<string>,
    availableArea: real, minInvestment: real, expectedReturns: string,
    featured: bool, active: bool)

  /** `createProjectSchema.safeParse(p)`; `isUrl` is the library's URL check. */
  function ParseCreateProject(p: ProjectInput, isUrl: string -> bool): (r: Option<CreateProject>)
    ensures r.Some? ==> 1 <= |r.value.features| <= 10 && |r.value.images| <= 5
    ensures r.Some? ==> IsPrice(r.value.pricePerSqFt) && CoordinateIssues(r.value.coordinates) == []
    ensures r.Some? ==> r.value.featured == p.featured.GetOr(false) && r.value.active == p.active.GetOr(true)
    ensures r.Some? <==>
      LengthIn(p.name, 2, 100) && LengthIn(p.location, 2, 100) && IsPrice(p.pricePerSqFt) &&
      ParseProjectType(p.projectType).Some? && CoordinateIssues(p.coordinates) == [] &&
      LengthIn(p.description, 10, 1000) && 1 <= |p.features| <= 10 &&
      |p.images| <= 5 && (forall i :: 0 <= i < |p.images| ==> isUrl(p.images[i])) &&
      p.availableArea > 0.0 && p.minInvestment > 0.0 && |p.expectedReturns| <= 50
  {
    if LengthIn(p.name, 2, 100) && LengthIn(p.location, 2, 100) && IsPrice(p.pricePerSqFt) &&
      ParseProjectType(p.projectType).Some? && CoordinateIssues(p.coordinates) == [] &&
      LengthIn(p.description, 10, 1000) && 1 <= |p.features| <= 10 &&
      |p.images| <= 5 && (forall i :: 0 <= i < |p.images| ==> isUrl(p.images[i])) &&
      p.availableArea > 0.0 && p.minInvestment > 0.0 && |p.expectedReturns| <= 50
    then
      Some(CreateProject(p.name, p.location, p.pricePerSqFt, ParseProjectType(p.projectType).value,
        p.coordinates, p.description, p.features, p.images, p.availableArea, p.minInvestment,
        p.expectedReturns, p.featured.GetOr(false), p.active.GetOr(true)))
    else None
  }

  /** The request body that carries an accepted project as it is. */
  function ProjectToBody(c: CreateProject): ProjectInput {
    ProjectInput(c.name, c.location, c.pricePerSqFt, ProjectTypeName(c.projectType), c.coordinates,
      c.description, c.features, c.images, c.availableArea, c.minInvestment, c.expectedReturns,
      Some(c.featured), Some(c.active))
  }

  /** Validation is idempotent on projects: an accepted project, sent again
      with its defaults written out, is accepted unchanged. */
  lemma ProjectReparse(p: ProjectInput, isUrl: string -> bool)
    requires ParseCreateProject(p, isUrl).Some?
    ensures ParseCreateProject(ProjectToBody(ParseCreateProject(p, isUrl).value), isUrl) == ParseCreateProject(p, isUrl)
  {
    ProjectTypeRoundTrip(ParseCreateProject(p, isUrl).value.projectType, "");
  }

  // ---------------------------------------------------------------- testimonial schema

  datatype TestimonialInput = TestimonialInput(
    name: string, location: string, content: string, rating: real,
    projectId: Option<string>, featured: Option<bool>, approved: Option<bool>)

  datatype CreateTestimonial = CreateTestimonial(
    name: string, location: string, content: string, rating: real,
    projectId: Option<string>, featured: bool, approved: bool)

  /** `createTestimonialSchema.safeParse(t)` */
  function ParseCreateTestimonial(t: TestimonialInput, isUuid: string -> bool): (r: Option<CreateTestimonial>)
    ensures r.Some? ==> 1.0 <= r.value.rating <= 5.0
    ensures r.Some? ==> r.value.featured == t.featured.GetOr(false) && r.value.approved == t.approved.GetOr(false)
    ensures r.Some? <==>
      LengthIn(t.name, 2, 100) && LengthIn(t.location, 2, 100) && LengthIn(t.content, 10, 500) &&
      1.0 <= t.rating <= 5.0 && (t.projectId.None? || isUuid(t.projectId.value))
  {
    if LengthIn(t.name, 2, 100) && LengthIn(t.location, 2, 100) && LengthIn(t.content, 10, 500) &&
      1.0 <= t.rating <= 5.0 && (t.projectId.None? || isUuid(t.projectId.value))
    then
      Some(CreateTestimonial(t.name, t.location, t.content, t.rating, t.projectId,
        t.featured.GetOr(false), t.approved.GetOr(false)))
    else None
  }

  /** The request body that carries an accepted testimonial as it is. */
  function TestimonialToBody(c: CreateTestimonial): TestimonialInput {
    TestimonialInput(c.name, c.location, c.content, c.rating, c.projectId, Some(c.featured), Some(c.approved))
  }

  /** Validation is idempotent on testimonials. */
  lemma TestimonialReparse(t: TestimonialInput, isUuid: string -> bool)
    requires ParseCreateTestimonial(t, isUuid).Some?
    ensures ParseCreateTestimonial(TestimonialToBody(ParseCreateTestimonial(t, isUuid).value), isUuid) == ParseCreateTestimonial(t, isUuid)
  {
  }
}
