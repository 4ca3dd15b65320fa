# Farmland real-estate site — verified model of its core

The system is a web site for selling managed farmland plots (coconut, spice
and backwater projects). Its server keeps projects, leads, users,
blog posts and testimonials either in memory or in Postgres behind a
read-through cache; Express middleware authenticates bearer tokens, checks
roles, validates sessions and rate-limits each user; zod schemas validate
request bodies; an error handler maps failures to response envelopes. Its
client keeps a list of toast notifications in module state and translates
dotted keys into English, Malayalam or Tamil.

This project models those pieces in Dafny and proves what they promise:

- `MemStore` (`MemStorage`): five insertion-ordered tables with
  id counters as a class; every `create*` assigns a fresh, increasing id,
  fills in the defaults and changes nothing else; the getters are filters
  whose results are characterised exactly; the seed data gives the stated
  counts.
- `Auth`: token issue and verification over an abstract signer, the
  authenticate / requireAdmin / optionalAuthenticate / validateSession
  decisions, and the per-user fixed-window rate limiter as a class holding
  its table.
- `DbStorage`: tables as sequences and the cache as a map, with a class
  invariant that every cached value is what its query returns on the current
  tables; cache keys are proved injective (through `Json`, a reader for the
  text `JSON.stringify` writes), and each write's invalidation is proved to
  restore that invariant.
- `Validation`: the slug, phone and price patterns as matchers proved equal
  to their descriptions, the numeric bounds, enumerations, list limits, the
  password-change refinement, and idempotence of the create schemas.
- `Errors`: the error classes and the total mappings of database codes, JWT
  error names and zod issues to envelopes.
- `Toasts`: the reducer and the `toast` / `dismiss` helpers over a class
  holding the toast list.
- `Language`: the `t` loop, proved against a walk over a JavaScript value,
  the `nav` section of the translation tables as a fixture, and
  `detectLanguage`.
- `Strings`, `Seqs`, `Wrappers`: the JavaScript string and array operations
  the others use (`split`, `join`, `startsWith`, `includes`, `filter`,
  `find`, `slice`, decimal rendering), with their round trips.

Clocks, random ids, hashing and signing are parameters: `now`, `freshId`,
`hash`, `sign`/`verify` and the library's e-mail, URL and UUID checks are
passed in, so every result holds for all of them.

## Model

| member | source | states |
|---|---|---|
| MemStore.OrElse | server/storage.ts:255-256 | `s \|\| fallback`: a present non-empty string is kept, an absent or empty one gives the fallback |
| MemStore.Lookup | server/storage.ts:228-230 | `map.get(id)` finds a record stored under that id, and finds nothing exactly when no record has it |
| MemStore.InsertFresh | server/storage.ts:237-245 | storing under the current counter keeps ids unique and increasing, the id was free before, and afterwards it finds the new record while every other lookup is unchanged |
| MemStore.KeyedLookupIsUnique | server/storage.ts:228-247 | every stored record is the one its own id finds |
| MemStore.ActiveProjects | server/storage.ts:220-222 | a project is listed exactly when it is stored and active |
| MemStore.FeaturedProjects | server/storage.ts:224-226 | a project is listed exactly when it is stored, active and featured |
| MemStore.ProjectBySlug | server/storage.ts:232-234 | gives the first stored project with the slug, whatever its active flag, and nothing exactly when no project has the slug |
| MemStore.UserByEmail | server/storage.ts:290-292 | gives the first stored user with the address, and nothing exactly when none has it |
| MemStore.PublishedPosts | server/storage.ts:299-301 | a post is listed exactly when it is stored and published |
| MemStore.PostBySlug | server/storage.ts:307-309 | gives the first stored post with the slug, and nothing exactly when none has it |
| MemStore.ActiveTestimonials | server/storage.ts:328-330 | a testimonial is listed exactly when it is stored and active |
| MemStore.CreatedProjectListed | server/storage.ts:220-247 | a new project is added at the end of the active list exactly when it is active, and at the end of the featured list exactly when it is featured as well |
| MemStore.SlugLookupKeepsFirst | server/storage.ts:232-247 | adding a project with a slug already in use does not change what the slug finds |
| MemStore.CreatedPostListed | server/storage.ts:299-321 | a new post is added at the end of the published list exactly when it is published |
| MemStore.CreatedTestimonialListed | server/storage.ts:328-343 | a new testimonial is added at the end of the active list exactly when it is active |
| MemStore.KeyedBounds | server/storage.ts:237-245 | in a table filled from the counter every id lies between 1 and the counter, below it, and ids strictly increase in insertion order |
| MemStore.KeyedAppend | server/storage.ts:237-245 | storing a record under the counter and raising the counter by one keeps the table keyed |
| MemStore.ProjectSamplesFlagged | server/storage.ts:77-143 | the sample projects are four, all active, the first three featured and the fourth not, and only the fourth has the slug "hill-station-retreat" |
| MemStore.PostSamplesFlagged | server/storage.ts:149-181 | the sample posts are three, all published |
| MemStore.TestimonialSamplesFlagged | server/storage.ts:187-213 | the sample testimonials are three, all active, rated 5, for projects 1, 2 and 3 |
| MemStore.SeededProjectCounts | server/storage.ts:77-146 | once such samples are stored under ids 1.., all four projects are active, exactly the first three are featured, and "hill-station-retreat" is found by slug although it is not featured |
| MemStore.SeededPostCounts | server/storage.ts:149-184 | once such samples are stored, all three posts are published |
| MemStore.SeededTestimonialCounts | server/storage.ts:187-216 | once such samples are stored, all three testimonials are active, rated 5 and tied to projects 1, 2 and 3 |
| MemStore.MemStorage.constructor | server/storage.ts:59-73 | the sample data is stored under ids 1.., leads and users are empty, the lead and user counters are 1 and the others stand one past the samples |
| MemStore.MemStorage.CreateProject | server/storage.ts:236-247 | stores the project at the end under the old counter, which then goes up by one; `isActive` defaults to true, `isFeatured` to false and `features` to empty; every id already stored is below the new one; nothing else changes |
| MemStore.MemStorage.CreateLead | server/storage.ts:250-265 | stores the lead under the next id; source becomes "website" and language "en" when they are absent or empty; the four optional details stay absent unless given; every id already stored is below the new one; nothing else changes |
| MemStore.MemStorage.CreateUser | server/storage.ts:271-280 | stores the user under the next id, created and updated at the given time; every id already stored is below the new one; nothing else changes |
| MemStore.MemStorage.CreateBlogPost | server/storage.ts:311-321 | stores the post under the next id, unpublished unless told otherwise; every id already stored is below the new one; nothing else changes |
| MemStore.MemStorage.CreateTestimonial | server/storage.ts:332-343 | stores the testimonial under the next id with rating 5, active and no project unless given; every id already stored is below the new one; nothing else changes |
| Auth.GenerateToken | server/middleware/auth.ts:27-33 | the signed claims carry the payload, issuer "tag-carrot", audience "tag-carrot-users" and expire `expiresIn` after signing |
| Auth.VerifyToken | server/middleware/auth.ts:47-58 | a token is accepted exactly when the signature check decodes it and issuer, audience and expiry all check out; then the payload is returned, otherwise null |
| Auth.GeneratedTokenVerifies | server/middleware/auth.ts:27-58 | a token the server issued verifies, to its own payload, exactly until it expires |
| Auth.BearerToken | server/middleware/auth.ts:65-72 | a token is extracted exactly when the header starts with "Bearer ", and the header is the prefix followed by the token |
| Auth.BearerRoundTrip | server/middleware/auth.ts:72 | stripping the prefix from "Bearer " + token gives the token back |
| Auth.Authenticate | server/middleware/auth.ts:61-83 | the request proceeds exactly when a bearer token verifies, with `req.user` set to its claims; every refusal is 401; no bearer token gives AUTH_TOKEN_MISSING with "Authorization token required", and a bearer token that fails to verify gives AUTH_TOKEN_INVALID with "Invalid or expired token" |
| Auth.RequireAdmin | server/middleware/auth.ts:94-117 | passes exactly an admin; 401 with AUTH_REQUIRED exactly when there is no user, 403 with AUTH_INSUFFICIENT_PERMISSIONS exactly for a non-admin user |
| Auth.AdminChainIff | server/middleware/auth.ts:61-117 | authenticate-then-requireAdmin lets a request through exactly when its bearer token verifies to an admin; 403 exactly for a verified non-admin |
| Auth.OptionalAuthenticate | server/middleware/auth.ts:120-137 | always proceeds; `req.user` becomes the verified claims when there are some and otherwise keeps its value |
| Auth.ValidateSession | server/middleware/auth.ts:180-204 | refuses (401 SESSION_INVALID) exactly when there is a user and a bearer token that fails to verify or verifies to another id; otherwise proceeds with the user unchanged |
| Auth.AuthenticatedSessionIsValid | server/middleware/auth.ts:180-204 | a request authenticate let through is never refused by validateSession on the same header |
| Auth.IssuedTokenAuthenticates | server/middleware/auth.ts:27-83 | a freshly issued token sent as a bearer header before expiry authenticates as its own payload |
| Auth.CeilDiv | server/middleware/auth.ts:170 | the wait in whole seconds is the least integer not below the remaining milliseconds over 1000 |
| Auth.RateLimitStep | server/middleware/auth.ts:150-175 | only the caller's entry may change and it always exists afterwards; the request is refused exactly when its window is still open and the count has reached the maximum |
| Auth.StepKeepsCountsBounded | server/middleware/auth.ts:152-175 | every entry's count stays between 1 and the maximum (at least 1) |
| Auth.StepEffect | server/middleware/auth.ts:152-175 | a refusal leaves the map unchanged and reports the wait rounded up; an accepted request inside the window adds one to the count; a new or expired entry restarts at count 1 with a new window |
| Auth.ReplayWithinWindow | server/middleware/auth.ts:150-175 | within one window, at most maxRequests minus the requests already counted get through, and the window end does not move |
| Auth.UserRateLimiter.Handle | server/middleware/auth.ts:140-176 | anonymous requests pass and leave the map alone; otherwise the map becomes the step's new map and the response is next() or 429 RATE_LIMIT_EXCEEDED with retryAfter |
| DbStorage.WithoutPassword | server/database-storage.ts:379 | the returned user keeps id, e-mail and name and carries no password |
| DbStorage.GetCacheKey | server/database-storage.ts:53-56 | the prefix alone without parameters, otherwise prefix, ':' and the JSON text of the parameters |
| DbStorage.ProjectQueryEntriesInjective | server/database-storage.ts:69 | different project queries give different parameter objects (absent members are left out) |
| DbStorage.LeadQueryEntriesInjective | server/database-storage.ts:221 | different lead queries give different parameter objects |
| DbStorage.KeySuffixInjective | server/database-storage.ts:54 | two keys with the same prefix are equal only for equal parameter objects |
| DbStorage.KeyKindsDiffer | server/database-storage.ts:53-56 | keys of project lists, slug lookups, lead lists and e-mail lookups never coincide across kinds |
| DbStorage.KeyOfInjective | server/database-storage.ts:53-56 | different read queries never share a cache key |
| DbStorage.ProjectsResult | server/database-storage.ts:78-97 | the result is the window, from a truthy offset and of at most a truthy limit, of all active stored projects that match the type filter (when truthy) and the featured filter (when given), in table order; without limit and offset a project is returned exactly when it is stored, active and matches |
| DbStorage.ActiveBySlug | server/database-storage.ts:119-125 | finds an active stored project with the slug, and nothing exactly when no active project has it |
| DbStorage.LeadsResult | server/database-storage.ts:229-258 | the result is the window, from a truthy offset and of at most a truthy limit, of all stored leads that match the status and source filters when they are truthy; without limit and offset a lead is returned exactly when it is stored and matches |
| DbStorage.UserWithEmail | server/database-storage.ts:336-342 | finds a stored user with the e-mail, and nothing exactly when none has it |
| DbStorage.RemoveMatching | server/database-storage.ts:59-65 | an entry survives exactly when its key contains none of the patterns, and keeps its value |
| DbStorage.SubmapStaysCoherent | server/database-storage.ts:59-65 | dropping cache entries never makes a cached value stale |
| DbStorage.InvalidationCovers | server/database-storage.ts:59-65 | "projects" matches every project-list key; "project" matches those and every slug key; "leads" every lead-list key; "user" every user key |
| DbStorage.CachingFreshValue | server/database-storage.ts:69-100 | storing a query's current result under its own key keeps every cached value current |
| DbStorage.ProjectListsInvalidated | server/database-storage.ts:137-166 | after a project-table change that keeps every slug lookup that finds a row, dropping the "projects" keys makes the cache current again |
| DbStorage.AllProjectKeysInvalidated | server/database-storage.ts:168-217 | after any project-table change, dropping the "projects" and "project" keys makes the cache current again |
| DbStorage.LeadListsInvalidated | server/database-storage.ts:272-324 | after any lead-table change, dropping the "leads" keys makes the cache current again |
| DbStorage.UserKeysInvalidated | server/database-storage.ts:354-390 | after any user-table change, dropping the "user" keys makes the cache current again |
| DbStorage.SlugLookupUnique | server/database-storage.ts:119-125 | with unique slugs, an active row is found by its own slug and an inactive row never is |
| DbStorage.UpdateWhere | server/database-storage.ts:170-177 | `UPDATE ... WHERE id = ?` changes exactly the rows with that id and keeps the length and order |
| DbStorage.UpdateLeadWhere | server/database-storage.ts:300-307 | only the leads with the id get the new status |
| DbStorage.UpdateKeepsKeys | server/database-storage.ts:170-177 | an update that changes neither id nor slug keeps both unique |
| DbStorage.DeletedProjectNotFoundBySlug | server/database-storage.ts:196-203 | after a soft delete the project's slug finds nothing |
| DbStorage.InsertKeepsSlugLookups | server/database-storage.ts:145-153 | inserting a project with a new slug keeps every slug lookup that found a row |
| DbStorage.InsertedUserFound | server/database-storage.ts:365-374 | a user inserted with a new e-mail is then found by it |
| DbStorage.DatabaseStorage.InvalidateCache | server/database-storage.ts:59-65 | the cache becomes the entries, of those present on entry, whose key contains no pattern; the tables do not change |
| DbStorage.DatabaseStorage.GetProjects | server/database-storage.ts:68-108 | on a hit and on a miss alike the result is the query's result on the current table; a miss caches it under the query's key; coherence is kept |
| DbStorage.DatabaseStorage.GetProjectBySlug | server/database-storage.ts:110-135 | the result is the active project with the slug; only a found project is cached; coherence is kept |
| DbStorage.DatabaseStorage.CreateProject | server/database-storage.ts:137-166 | 409 CONFLICT exactly when an active project has the slug; a unique violation exactly when otherwise the id or slug is taken; else the row is appended and the cache becomes the old one without the keys containing "projects", keeping coherence; a unique violation leaves the cache alone, and a conflict leaves it as the slug lookup left it (the found project cached under its slug key when it was not already) |
| DbStorage.DatabaseStorage.UpdateProject | server/database-storage.ts:168-194 | "Project not found" exactly when no row has the id, and then nothing changes; otherwise the rows with the id are updated, the updated row is returned and all project keys are invalidated |
| DbStorage.DatabaseStorage.DeleteProject | server/database-storage.ts:196-217 | "Project not found" exactly when no row has the id; otherwise `active` is cleared on that row and all project keys are invalidated |
| DbStorage.DatabaseStorage.GetLeads | server/database-storage.ts:220-270 | the result is the query's result on the current lead table, cached on a miss; coherence is kept |
| DbStorage.DatabaseStorage.CreateLead | server/database-storage.ts:272-296 | the lead is appended with status "new" and the "leads" keys invalidated; a taken id is a unique violation that changes nothing |
| DbStorage.DatabaseStorage.UpdateLead | server/database-storage.ts:298-324 | "Lead not found" exactly when no row has the id; otherwise the status is set and the "leads" keys invalidated |
| DbStorage.DatabaseStorage.GetUserByEmail | server/database-storage.ts:327-352 | the result is the stored user with the e-mail; only a found user is cached |
| DbStorage.DatabaseStorage.CreateUser | server/database-storage.ts:354-390 | 409 CONFLICT exactly when the e-mail is taken; otherwise the user is stored with the hashed password, returned without it, found by its e-mail, and the cache becomes the old one without the keys containing "user"; a unique violation leaves the cache alone, and a conflict leaves the found user cached under its e-mail key |
| DbStorage.DatabaseStorage.AuthenticateUser | server/database-storage.ts:392-415 | gives the user without the password exactly when one has the e-mail and the password matches its hash; the tables do not change, and only a found user is cached, under its e-mail key when that key was not cached already |
| Validation.SlugIffRuns | shared/validation.ts:5-11 | a string matches the slug pattern exactly when, split at '-', every piece is a non-empty run of [a-z0-9]: no leading, trailing or doubled hyphen |
| Validation.SlugScanSpec | shared/validation.ts:5 | the left-to-right matcher for the slug pattern accepts exactly the strings whose hyphen-separated pieces are runs, from either matcher state |
| Validation.PhoneIff | shared/validation.ts:4-10 | a string matches the phone pattern exactly when, after an optional leading '+', it is non-empty and every character is a digit, JavaScript white space, '-', '(' or ')' |
| Validation.PriceIff | shared/validation.ts:25 | a price is accepted exactly when it is one or more digits, optionally followed by '.' and one or two digits |
| Validation.PriceIntegerPart | shared/validation.ts:25 | after the first digit, the rest is accepted exactly when the digit run ends the string or is followed by '.' and one or two digits |
| Validation.CoordinatesAcceptedIff | shared/validation.ts:14-17 | coordinates pass exactly when -90 <= lat <= 90 and -180 <= lng <= 180; there are at most two issues, and each one's error detail names "lat" or "lng" |
| Validation.ParseProjectType | shared/validation.ts:20 | the enumeration accepts exactly "coconut", "spice" and "backwater" |
| Validation.ProjectTypeRoundTrip | shared/validation.ts:20 | every member's name parses back to that member, only its name parses to it, and "hill-station" is rejected |
| Validation.ValidPageIsBounded | shared/validation.ts:43-44 | a query whose limit and offset pass the bounds (limit 1..50, 1..100 or 1..20; offset >= 0) never gives more rows than the maximum |
| Validation.ParseInterests | shared/validation.ts:55 | a list of interests is accepted exactly when every entry is a project type, and each parsed entry is the type that was named |
| Validation.ParseCreateLead | shared/validation.ts:48-56 | a lead is accepted exactly when name length is 2..100, the e-mail and phone formats hold, projectId (if any) is a UUID, message (if any) has at most 500 characters, source (if any) is in the enumeration, and interests are given, at most 3, all project types |
| Validation.AcceptedLead | shared/validation.ts:48-56 | an accepted lead has at most three interests, each the type named, keeps its name, e-mail and phone, and has source "website" when none was given |
| Validation.LeadReparse | shared/validation.ts:48-56 | validation is idempotent: an accepted lead, sent again with its defaults written out, gives the same lead |
| Validation.PasswordChangeIssues | shared/validation.ts:92-103 | the refinement reports no issue exactly when it holds, and its one issue is filed under the field "currentPassword" |
| Validation.PasswordChangeNeedsCurrent | shared/validation.ts:87-103 | a new password without the current one is always rejected; an accepted update with a new password carries a current password of at least 8 characters; without a new password the refinement holds |
| Validation.ParseCreateProject | shared/validation.ts:22-36 | a project is accepted exactly when every bound holds (name and location 2..100, price pattern, type, coordinates, description 10..1000, 1..10 features, at most 5 URL images, positive area and investment, returns at most 50); then featured defaults to false and active to true |
| Validation.ProjectReparse | shared/validation.ts:22-36 | an accepted project, sent again with its defaults written out, is accepted unchanged |
| Validation.ParseCreateTestimonial | shared/validation.ts:127-135 | a testimonial is accepted exactly when name and location are 2..100 characters, content 10..500, rating 1..5 and projectId (if any) a UUID; featured and approved default to false |
| Validation.TestimonialReparse | shared/validation.ts:127-135 | an accepted testimonial, sent again with its defaults written out, is accepted unchanged |
| Errors.NewAppError | server/middleware/errorHandler.ts:7-20 | every AppError is operational and keeps its message and code; the status defaults to 500 |
| Errors.ValidationError | server/middleware/errorHandler.ts:22-26 | status 400; a missing or empty code becomes "VALIDATION_ERROR" and any other code is kept |
| Errors.AuthenticationError | server/middleware/errorHandler.ts:28-32 | status 401, code "AUTH_ERROR", message "Authentication required" unless given |
| Errors.AuthorizationError | server/middleware/errorHandler.ts:34-38 | status 403, code "AUTHORIZATION_ERROR", message "Insufficient permissions" unless given |
| Errors.NotFoundError | server/middleware/errorHandler.ts:40-44 | status 404, code "NOT_FOUND", message "Resource not found" unless given |
| Errors.ConflictError | server/middleware/errorHandler.ts:46-50 | status 409, code "CONFLICT", with the given message |
| Errors.SubclassStatusIdentifiesClass | server/middleware/errorHandler.ts:22-50 | every subclass is an operational 4xx error with a code, and two subclasses with the same status are the same subclass |
| Errors.FieldNameRecoversPath | server/middleware/errorHandler.ts:63 | when no path key contains '.', splitting the joined field name at '.' gives back the path segments |
| Errors.IssueDetails | server/middleware/errorHandler.ts:62-66 | one detail per issue, in order, with the joined path, the message and the code |
| Errors.HandleZodError | server/middleware/errorHandler.ts:61-73 | "Validation failed" / VALIDATION_ERROR with a detail for each issue giving its field, message and code |
| Errors.HandleDatabaseError | server/middleware/errorHandler.ts:76-110 | each of the five known SQLSTATE codes gets its own message and code, and exactly the unknown or missing codes get DATABASE_ERROR |
| Errors.DatabaseCodesDistinct | server/middleware/errorHandler.ts:78-103 | different known SQLSTATE codes give different client codes |
| Errors.HandleJwtError | server/middleware/errorHandler.ts:113-135 | each of the three known error names gets its own message and code, and exactly the other or missing names get TOKEN_ERROR |
| Toasts.Merge | client/src/hooks/use-toast.ts:37-39 | `{ ...t, ...rest }` keeps the toast's id, takes every member the patch gives and keeps the rest |
| Toasts.UpdateMatching | client/src/hooks/use-toast.ts:38-40 | same length; each toast with the id is merged with the patch and every other toast is unchanged |
| Toasts.AddAppends | client/src/hooks/use-toast.ts:34-35 | ADD_TOAST puts the toast last and leaves the earlier toasts as they were |
| Toasts.UpdateKeepsShape | client/src/hooks/use-toast.ts:36-40 | UPDATE_TOAST keeps the length, the order and every id, changes only toasts with the id, and applying it twice equals applying it once |
| Toasts.DismissRemovesExactly | client/src/hooks/use-toast.ts:41-42 | a toast survives DISMISS_TOAST exactly when it was there and does not have the id |
| Toasts.DismissConcat | client/src/hooks/use-toast.ts:42 | dismissing works piece by piece, so the surviving toasts keep their relative order |
| Toasts.DismissAbsentIsNoop | client/src/hooks/use-toast.ts:41-42 | dismissing with no id, or with an id no toast has, leaves the list unchanged |
| Toasts.AddThenDismiss | client/src/hooks/use-toast.ts:34-42 | dismissing a toast just added under a fresh id gives back the list as it was before |
| Toasts.ToastStore.Dispatch | client/src/hooks/use-toast.ts:27-44 | the stored list becomes the reducer's result for the action |
| Toasts.ToastStore.Toast | client/src/hooks/use-toast.ts:63-94 | appends a toast under the fresh id with duration 5000 when none or 0 is given, priority "normal" when none is given and progress 100, and returns the id |
| Toasts.ToastStore.Dismiss | client/src/hooks/use-toast.ts:100 | removes the toasts with the id; with no id nothing changes |
| Language.Step | client/src/components/language-provider.tsx:48 | `value?.[k]` on `undefined` stays `undefined`, and on an object lacking the member is `undefined` |
| Language.WalkAppend | client/src/components/language-provider.tsx:47-49 | walking a path in two parts is walking the second part from where the first ends |
| Language.WalkUndefined | client/src/components/language-provider.tsx:48 | once the value is `undefined` the rest of the walk keeps it undefined and never throws |
| Language.MissingSegmentGivesKey | client/src/components/language-provider.tsx:44-51 | when some segment of the key is missing where the walk has got to, `t` returns the key itself |
| Language.FollowsSegments | client/src/components/language-provider.tsx:43-51 | for a key made of '.'-free segments, `t` returns the value found by following exactly those segments when it is truthy, and the key otherwise |
| Language.Translate | client/src/components/language-provider.tsx:43-52 | corrected `t`: the string the key leads to when that is a non-empty string, otherwise the key |
| Language.TranslateAgrees | client/src/components/language-provider.tsx:43-52 | the corrected lookup agrees with the original whenever the original returns a string, and returns the key otherwise |
| Language.NavTable | client/src/lib/translations.ts:3-81 | each language's `nav` section has exactly the entries projects, features, blog, contact and callNow, all non-empty strings |
| Language.NavEntryFound | client/src/components/language-provider.tsx:43-52 | in every language, `t("nav.<entry>")` returns that entry's text |
| Language.NavEntryMissing | client/src/components/language-provider.tsx:47-51 | a `nav` key with an entry the table lacks returns the key |
| Language.SectionMissing | client/src/components/language-provider.tsx:47-51 | a key whose first segment is none of the table's sections (`nav`, `hero`, `features`, `leadForm`, `chatbot`) returns the key, whatever follows |
| Language.SectionKeyGivesTable | client/src/components/language-provider.tsx:45-51 | as written, `t("nav")` returns the whole `nav` object, not a string; the corrected lookup returns "nav" |
| Language.LengthKeyGivesNumber | client/src/components/language-provider.tsx:45-51 | as written, `t("nav.<entry>.length")` returns the entry's length as a number; the corrected lookup returns the key |
| Language.DetectLanguage | client/src/components/language-provider.tsx:21-29 | 'ml' exactly when the browser language (or, when it is empty, the legacy one) starts with "ml", 'ta' exactly for "ta", 'en' otherwise; a throw exactly when neither is present |
| Language.LanguageProvider.constructor | client/src/components/language-provider.tsx:17 | the language is 'en' before detection |
| Language.LanguageProvider.Detect | client/src/components/language-provider.tsx:19-32 | the detected language becomes current; when detection throws the language stays as it was |
| Language.LanguageProvider.T | client/src/components/language-provider.tsx:43-52 | the loop's result is the value the walk along the split key finds, or the key when that value is falsy |
| Json.StringifyRoundTrip | server/database-storage.ts:54 | reading back the text JSON.stringify writes for a flat parameter object gives the object, with its members in order |
| Json.StringifyInjective | server/database-storage.ts:54 | two parameter objects with the same JSON text are equal |
| Strings.JoinSplit | client/src/components/language-provider.tsx:44 | joining the pieces of `split('.')` with '.' gives the key back |
| Strings.SplitJoin | server/middleware/errorHandler.ts:63 | splitting a '.'-join of '.'-free pieces gives the pieces back |
| Strings.NatToStringRoundTrip | server/database-storage.ts:54 | the decimal rendering of a number reads back as that number |
| Seqs.Page | server/database-storage.ts:92-97 | a page holds at most `limit` rows, starting at the offset, in order |
| Seqs.FilterConcat | server/storage.ts:221 | filtering a concatenation is concatenating the filtered parts, so `filter` keeps the order |
| Auth.UserRateLimiter.constructor | server/middleware/auth.ts:141 | each limiter starts with an empty table of users |
| DbStorage.DatabaseStorage.constructor | server/database-storage.ts:49 | empty tables and an empty cache, which is coherent |
| DbStorage.DatabaseStorage.Expire | server/database-storage.ts:49 | the cache's time to live may drop any entry at any moment and the cache stays coherent |
| MemStore.MemStorage.InitializeData | server/storage.ts:75-216 | seeds the four projects, three posts and three testimonials under ids 1.., leaving 4 active projects, 3 featured, 3 published posts and 3 active testimonials, and leaves leads, users and their counters alone |
| MemStore.MemStorage.SeedProjects | server/storage.ts:144-146 | each given sample project is stored, in order, under ids 1 to n with `createProject`'s defaults, and the counter ends at n + 1 |
| MemStore.MemStorage.SeedBlogPosts | server/storage.ts:182-184 | each given sample post is stored, in order, under ids 1 to n, and the counter ends at n + 1 |
| MemStore.MemStorage.SeedTestimonials | server/storage.ts:214-216 | each given sample testimonial is stored, in order, under ids 1 to n, and the counter ends at n + 1 |
| Toasts.ToastStore.constructor | client/src/hooks/use-toast.ts:21-23 | the module state starts with no toasts |
| Language.LanguageProvider.SetLanguage | client/src/components/language-provider.tsx:17-32 | the current language becomes the one given |

## Left out

- DbStorage.ProjectsResult: Drizzle's repeated `.where` calls in `getProjects` (server/database-storage.ts:78-86) are modelled as the conjunction of the filters, not as the builder's own semantics; row order is insertion order rather than SQL ordering, here and in `getLeads`.
- DbStorage.LeadsResult: the `dateFrom` / `dateTo` filters are not modelled, since they depend on date parsing.
- `getBlogPosts`, `getTestimonials`, `healthCheck` and `close` in server/database-storage.ts are not part of this model.
- DbStorage.DatabaseStorage.CreateProject: `createdAt` / `updatedAt` timestamps are not stored; rows carry only the fields the cache and the rules depend on.
- DbStorage.DatabaseStorage.UpdateLead: only `status` is written; the `notes` and `followUpDate` members that `...updates` also stores (updateLeadSchema in shared/validation.ts:58-62) are dropped, since lead rows carry only the fields the cache and the rules depend on.
- DbStorage.DatabaseStorage.CreateProject: the input is assumed to carry a `slug`. The declared input type, `createProjectSchema` in shared/validation.ts:22-36, has no `slug` member, yet server/database-storage.ts:140 reads `projectData.slug`. What happens when the slug is undefined (a lookup by an undefined slug, then an insert without one) is left out.
- DbStorage.DatabaseStorage.UpdateProject: the update is a record of optional name, type and flags, not every member of `updateProjectSchema`'s partial object.
- DbStorage.DatabaseStorage.Expire: NodeCache's time to live is modelled as the possibility of dropping any entry, not as a clock.
- Auth.Authenticate, Auth.ValidateSession and Auth.OptionalAuthenticate: the `catch` branches that answer 500 on an unexpected exception are not modelled, since the modelled code cannot throw.
- `jwt.sign`, `jwt.verify`, `bcrypt.hash`, `bcrypt.compare`, `uuid()` and `Date.now()` are parameters; their behaviour is not modelled.
- The express-rate-limit limiters and the routes in server/routes.ts are not part of this model.
- MemStore.MemStorage.CreateProject and the other `create*` methods keep the fields their defaults and getters depend on; pass-through fields such as descriptions, images and content are dropped.
- MemStore.MemStorage.GetProjects and the other class getters carry no contract of their own; what they return is stated on the module functions they call (`ActiveProjects`, `ProjectBySlug` and so on).
- String lengths are counts of Dafny characters, not of JavaScript UTF-16 code units; they differ only outside the Basic Multilingual Plane.
- Validation.ParseCreateLead, Validation.ParseCreateProject and Validation.ParseCreateTestimonial: the zod e-mail, URL and UUID checks are parameters, and only the stated bounds are modelled.
- Validation.ValidPage: `parseInt` is not modelled; the bounds apply to the parsed number.
- `createUserSchema`, `loginSchema`, `updateLeadSchema`, `createBlogSchema`, `blogQuerySchema` and the `.partial()` update schemas are not modelled beyond the bounds shared with the modelled schemas.
- Toasts: the progress `setInterval` with its floating-point computation (client/src/hooks/use-toast.ts:78-92), the listener array and the React hook are left out; titles and descriptions are strings rather than React nodes.
- Toasts.UpdateMatching: an `UPDATE_TOAST` without an id is not modelled, since every call the module makes passes one.
- Language.Step: members inherited from `Object.prototype` (such as `t("constructor")`) are not modelled; only own members, and a string's `length` and index members, are.
- Language.Translations: only the `nav` section of client/src/lib/translations.ts is the fixture.
- The effect that sets font classes on `document.body` (client/src/components/language-provider.tsx:34-40) is left out.
- Logging calls are left out everywhere.

## Findings

| source | as written | input that shows it | evidently intended | confidence | as-written member | corrected member |
|---|---|---|---|---|---|---|
| client/src/components/language-provider.tsx:43-51 | `t` returns whatever truthy value the walk reaches, although it is typed to return a string | `t("nav")` gives the whole `nav` object, and `t("nav.projects.length")` gives the number 8 | return the translation only when the walk ends at a non-empty string, and the key otherwise | not executed | Language.SectionKeyGivesTable | Language.TranslateAgrees |
