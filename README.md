# livefireinstruction: the decision logic of the site, in Dafny

The site is an Astro marketing site for a firearms-training business. Almost
all of it is an adapter around outside services. This project models the
few places where the site decides something itself, and proves what those
decisions guarantee:

- **Comment submission** (`addComment`, behind the edge middleware):
  1. the zod input schema;
  2. an origin guard, which both the middleware and the handler apply;
  3. the optional reCAPTCHA rule;
  4. the one unapproved `comments` row, with its parent id normalised;
  5. the mapping of the stored row back to the caller.

  The pure stages are functions. `Submission` is the whole action as a
  function of its inputs and oracles. `CommentsTable` is the table as a
  class that the `AddComment` method appends to.
- **JSON-LD builder** (`generateSchema` and every `schemaGenerators` entry):
  - JavaScript values are a recursive `Json` datatype, and objects are
    `map<string, Json>`.
  - `Schema` is the specification function. `GenerateSchema` builds the map
    and then assigns `publisher`/`provider` into it, as `generateSchema` does.
  - The `@context`/`@type` keywords follow sections 3.1 and 3.5 of the
    JSON-LD 1.1 W3C Recommendation.
- **Preview-mode endpoints** (`/api/preview/start` and `/api/preview/end`):
  methods over a `Cookies.Jar` class that holds the request's pending
  `Set-Cookie` entries. `End` keeps the local `redirectTo` that `end.ts`
  reassigns.
- **Contact e-mail endpoint** (`/actions/send-email`): the field check, the
  recipient fallback, the message fields and the status mapping.

Every outside effect is a parameter:
- `isEmail` decides zod's e-mail check.
- `siteverify` is the reCAPTCHA service, a function of the request body.
- a `StoreReply` is the database's answer to the one insert.
- `urlPathname` is `new URL(...).pathname`, where `None` means the
  constructor threw.
- the Keystatic read, the template file, the EJS render and the mail
  transport are `Result` or `bool` inputs.

`import.meta.env` values (`ALLOWED_DOMAIN`, `RECAPTCHA_SECRET_KEY`,
`PUBLIC_SITE_URL`, `PROD`) are explicit arguments. Some properties say that
a call never happens ("no reCAPTCHA call after an origin rejection", "no
reader call for an incomplete form"). Each is stated one of two ways:
- a lemma shows the result is the same for any two oracles;
- or a component of the result (`inserted`, `attempted`) records what was
  sent.

Modules:
- `Wrappers`: `Option`, `Result`.
- `Strings`: JavaScript string operations over `seq<char>`.
- `Http`: responses.
- `Cookies`: the outgoing cookie jar.
- `Origin`: the shared guard.
- `Middleware`, `CommentActions`, `JsonLd`, `Preview`, `ContactEmail`: one
  module per source file.

## Model

| member | source | states |
|---|---|---|
| `Strings.IndexOfFrom` | src/pages/api/preview/end.ts:16 | the result is an occurrence at or after the start index, and no earlier index from the start holds one; `None` means there is no occurrence anywhere from the start |
| `Strings.IndexOf` | src/pages/api/preview/end.ts:16 | `indexOf` finds an index exactly when `includes` holds, and that index is the first occurrence |
| `Strings.ReplaceFirst` | src/pages/api/preview/end.ts:16 | `replace` with a string pattern leaves the string unchanged when the pattern does not occur; otherwise the result is the text before the first occurrence, the replacement, and the text after that occurrence |
| `Strings.StartsWithIsFirstOccurrence` | src/pages/api/preview/end.ts:16 | a prefix is always the first occurrence |
| `Strings.ReplacePrefix` | src/pages/api/preview/end.ts:14-16 | removing a pattern the string starts with drops exactly that prefix |
| `Strings.ReplaceFirstKeepsRest` | src/pages/api/preview/end.ts:16 | removing the first occurrence keeps everything before it and everything after it unchanged |
| `Strings.ContainsInfix` | src/actions/index.ts:22-24 | `includes` holds for any string built around the needle, whatever surrounds it |
| `Strings.EmptyContainsOnlyEmpty` | src/actions/index.ts:22-24 | the empty header contains no non-empty domain |
| `Strings.NotContainsByFirstChar` | src/actions/index.ts:22-24 | a string holding the needle's first character at no usable index does not contain it |
| `Http.Plain` | src/middleware.ts:24 | `new Response(body, { status })` has that status and body and no `Location` |
| `Http.Redirect` | src/pages/api/preview/start.ts:19 | a redirect is status 302 with `Location` equal to the target, verbatim |
| `Http.MessageJson` | src/pages/actions/send-email.ts:21-26 | the body is `{"message":"`, then the message itself, then `"}` |
| `Cookies.Jar.Set` | src/pages/api/preview/start.ts:12-17 | `cookies.set` replaces the pending entry for that name only |
| `Cookies.Jar.Delete` | src/pages/api/preview/end.ts:19 | `cookies.delete` replaces the pending entry for that name only, with an expiry |
| `Origin.IsAllowed` | src/actions/index.ts:22-24 | with a domain configured, the request is allowed exactly when `origin` contains it or `referer` contains it; an absent header contains nothing |
| `Origin.GuardPasses` | src/actions/index.ts:18-30 | an unset or empty `ALLOWED_DOMAIN` lets every request pass; otherwise a request passes exactly when the origin-or-referer substring test holds |
| `Origin.EmbeddedDomainPasses` | src/actions/index.ts:22-24 | an origin whose host merely embeds the allowed domain (`https://<domain>.attacker.example`) passes the guard |
| `Middleware.OnRequest` | src/middleware.ts:3-30 | paths not starting with `/_astro/actions` go to `next()`; an unset domain sends every request to `next()`; a blocked request gets 403 "Unauthorized origin"; `next()` is reached exactly when the path is unguarded or the guard passes |
| `Middleware.PrefixIsLiteral` | src/middleware.ts:7 | the prefix test is literal: `/x/_astro/actions/addComment` is not guarded |
| `CommentActions.MinOneIssues` | src/actions/index.ts:10 | `z.string().min(1, msg)` reports nothing exactly when the field is present and non-empty, and at most one issue, on that field |
| `CommentActions.EmailIssues` | src/actions/index.ts:11 | `z.string().email(msg)` reports nothing exactly when the field is present and e-mail-shaped, and at most one issue, on the e-mail field |
| `CommentActions.Issues` | src/actions/index.ts:8-15 | at most five issues, each naming a field that fails its rule |
| `CommentActions.IssuesNameFailingFields` | src/actions/index.ts:8-15 | a field fails its rule exactly when some issue names it |
| `CommentActions.Validate` | src/actions/index.ts:8-15 | the form is accepted exactly when every field meets its rule (`postSlug` any string, `name`/`message`/`recaptchaToken` length at least 1, `email` e-mail-shaped); the accepted values are copied unchanged; a rejection lists the issues and is never empty |
| `CommentActions.ParentIdNeverRejected` | src/actions/index.ts:13 | `parentId` never decides whether the schema accepts the form |
| `CommentActions.OriginStage` | src/actions/index.ts:17-30 | the handler goes on exactly when the shared origin guard passes, and otherwise throws "Unauthorized origin. Submission blocked." |
| `CommentActions.SiteverifyBody` | src/actions/index.ts:39 | the body is `secret=`, the secret, `&response=`, and the token, each at its own position, with no encoding |
| `CommentActions.RecaptchaRejects` | src/actions/index.ts:44 | an answer is accepted exactly when `success` holds and the score is absent or at least 0.5 |
| `CommentActions.RecaptchaStage` | src/actions/index.ts:32-50 | without a secret the stage passes; a failed fetch propagates its error; otherwise it passes exactly when `success` holds and the score is absent or at least 0.5, and it rejects with "Security verification failed. Please try again." |
| `CommentActions.SiteverifyRequest` | src/actions/index.ts:34-40 | the service is asked exactly when the origin guard passed and a secret is set |
| `CommentActions.PreInsert` | src/actions/index.ts:17-50 | an origin rejection comes first and stops the flow; otherwise the reCAPTCHA stage decides |
| `CommentActions.SiteverifyConsultedOnlyAtRequest` | src/actions/index.ts:35-42 | two services that agree on the one request body give the same outcome, so no other call is made |
| `CommentActions.ParentOrNull` | src/actions/index.ts:60 | `parentId` or null keeps a non-empty parent and turns an absent or empty one into null |
| `CommentActions.NewRow` | src/actions/index.ts:52-63 | the inserted row carries the submitted fields, `is_approved = false`, and the parent only when it is non-empty |
| `CommentActions.ToView` | src/actions/index.ts:72-80 | every returned field is the stored column of that name, in camelCase |
| `CommentActions.Submission` | src/actions/index.ts:16-81 | at most one row is inserted; a row is inserted exactly when validation, the origin guard, the reCAPTCHA stage and the database all succeed; that row is `NewRow` of the validated input (the submitted fields, `is_approved = false`, the normalised parent) with the database's id and timestamp, and its camelCase copy is what the caller gets; a schema failure returns exactly `Validate`'s issues; a thrown guard or reCAPTCHA error returns that message and inserts nothing |
| `CommentActions.OriginRejectionStopsEverything` | src/actions/index.ts:26-29 | an origin rejection throws before any reCAPTCHA request is built and inserts nothing, whatever the service and database would say |
| `CommentActions.LowScoreRejected` | src/actions/index.ts:44-47 | a successful answer with score below 0.5 rejects and inserts nothing |
| `CommentActions.MissingScoreAccepted` | src/actions/index.ts:44 | a successful answer without a score passes verification |
| `CommentActions.NoSecretSkipsVerification` | src/actions/index.ts:35-50 | without a secret no request is sent and only the origin guard stands before the insert |
| `CommentActions.StoreErrorReported` | src/actions/index.ts:67-70 | a database error yields "Failed to save comment to database: " followed by the database's message, and no row |
| `CommentActions.EdgeAndHandlerAgree` | src/middleware.ts:14-17 | on an action path the middleware lets a request through exactly when the handler's own origin check passes |
| `CommentActions.ScenarioOpenConfiguration` | src/actions/index.ts:16-81 | with nothing configured, a valid form is stored unapproved with a null parent and returned |
| `CommentActions.ScenarioForeignOrigin` | src/actions/index.ts:19-29 | `https://evil.example.com` with no referer is rejected when `livefireinstruction.com` is configured |
| `CommentActions.ScenarioEmbeddingHostAccepted` | src/actions/index.ts:22-24 | `https://livefireinstruction.com.attacker.example` is accepted and the comment saved |
| `CommentActions.ScenarioBadEmail` | src/actions/index.ts:11 | a malformed e-mail gives exactly one issue, "Valid email is required", and nothing is written |
| `CommentActions.ScenarioChallengeFailed` | src/actions/index.ts:44-47 | an answer with `success` false blocks the insert |
| `CommentActions.ScenarioReply` | src/actions/index.ts:60 | a reply keeps its parent id as given |
| `CommentActions.CommentsTable.Insert` | src/actions/index.ts:52-65 | an accepted insert appends exactly one stored row with the server's id and timestamp; an error leaves the table unchanged |
| `CommentActions.AddComment` | src/actions/index.ts:6-82 | the action returns what `Submission` says, appends exactly the rows `Submission` inserts, and keeps a table of pending comments pending |
| `JsonLd.PublishedKinds` | src/utils/schema.ts:6-20 | of the page kinds, exactly Blog, Course and Event are organisation-published |
| `JsonLd.SchemaTypeName` | src/utils/schema.ts:6-20 | `schemaTypes` maps home and organization to "Organization", courses and partners to "ItemList", landing page and calendar to "WebPage", and no other key to these names |
| `JsonLd.Published` | src/utils/schema.ts:152 | a type is organisation-published exactly when it is in the list `["Course", "Event", "Blog"]` |
| `JsonLd.BaseOrganization` | src/utils/schema.ts:135-141 | the organisation has exactly the keys `@type`, `name`, `url`, `logo`, `sameAs`; `@type` is "Organization" and `url` is the site URL |
| `JsonLd.Schema` | src/utils/schema.ts:144-158 | the keys are `@context`, `@type`, the page data's keys and, for Course/Event/Blog, `publisher`/`provider`; `@context`/`@type` are "https://schema.org"/`type` unless the page data supplies them; published types get the organisation as `publisher` and `provider`, overriding the page data; every other page-data key is copied unchanged |
| `JsonLd.GenerateSchema` | src/utils/schema.ts:144-158 | building the object, then assigning the organisation in place, gives `Schema` |
| `JsonLd.DefaultPageData` | src/utils/schema.ts:144 | with the default empty page data the result holds only the fixed keys (plus the organisation for published types) |
| `JsonLd.UnpublishedKeysFromPageData` | src/utils/schema.ts:145-149 | for a non-published type, every key other than `@context`/`@type` comes from the page data with its value |
| `JsonLd.HomePage` | src/utils/schema.ts:164-177 | the page data `home` passes on sets none of `@context`, `@type`, `publisher`, `provider` |
| `JsonLd.Home` | src/utils/schema.ts:163-177 | `home` is an Organization under schema.org with no publisher or provider, and carries each field of its page data unchanged |
| `JsonLd.HomeDefaults` | src/utils/schema.ts:165-169 | each of name, description, telephone, email and url is the input value when truthy and its default otherwise, the empty string included |
| `JsonLd.AddressPartDefaults` | src/utils/schema.ts:170-176 | the address built by `home` is a PostalAddress whose every part is the input's part when truthy and its default otherwise |
| `JsonLd.HomeAddressParts` | src/utils/schema.ts:170-176 | `home`'s `address` is that address, built from the input's `address` |
| `JsonLd.EmptyStreetDefaults` | src/utils/schema.ts:172 | a present address with an empty street gets the default street |
| `JsonLd.HomeAddressDefaults` | src/utils/schema.ts:170-176 | without an address input every address part takes its default |
| `JsonLd.Blog` | src/utils/schema.ts:180-189 | `blog` is a Blog published and provided by the organisation, carrying the input's `blogPostings` and `name` |
| `JsonLd.BlogPost` | src/utils/schema.ts:190-199 | `blogpost` is a BlogPosting with no publisher or provider, carrying the input's headline and author |
| `JsonLd.Courses` | src/utils/schema.ts:202-208 | `courses` is an ItemList with no publisher or provider, carrying the input's `itemListElement` |
| `JsonLd.Course` | src/utils/schema.ts:210-214 | `course` is a Course published and provided by the organisation |
| `JsonLd.LandingPage` | src/utils/schema.ts:215-221 | `landingpage` is a WebPage with no publisher or provider, carrying the input's image |
| `JsonLd.Calendar` | src/utils/schema.ts:224-229 | `calendar` is a WebPage with no publisher or provider, carrying the input's url |
| `JsonLd.ItemList` | src/utils/schema.ts:237-240 | the `mainEntity` wrapper has exactly `@type` "ItemList" and the given list |
| `JsonLd.Partners` | src/utils/schema.ts:232-241 | `partners` is an ItemList with no publisher or provider whose `mainEntity` wraps the partner list |
| `JsonLd.Contact` | src/utils/schema.ts:244-253 | `contact` is a ContactPage with no publisher or provider whose `mainEntity` wraps `itemListElement` |
| `Preview.PreviewCookieOptions` | src/pages/api/preview/start.ts:12-17 | the cookie is set with path "/", sameSite lax, httpOnly, and secure exactly in production |
| `Preview.Start` | src/pages/api/preview/start.ts:3-20 | a missing or empty `branch` or `to` gives 400 "Missing branch or to params" and touches no cookie; otherwise exactly the preview cookie is set to the branch and the redirect goes to `to` verbatim |
| `Preview.EndTarget` | src/pages/api/preview/end.ts:8-17 | the target is "/" unless the referer is present and contains "/preview/"; in that case it fails exactly when the URL constructor throws (its value is stated by `Preview.FirstPreviewRemoved`) |
| `Preview.End` | src/pages/api/preview/end.ts:3-22 | with a target, exactly the preview cookie is deleted at path "/" and the response redirects to the target; when the URL constructor throws, no cookie changes |
| `Preview.PreviewPathStripped` | src/pages/api/preview/end.ts:12-16 | a pathname beginning with "/preview" loses exactly that prefix |
| `Preview.BlogSlugExample` | src/pages/api/preview/end.ts:14 | `/preview/blog/slug` redirects to `/blog/slug` |
| `Preview.FirstPreviewRemoved` | src/pages/api/preview/end.ts:12-16 | wherever the first "/preview" sits in the pathname, the target is the text before it joined to the text after it |
| `Preview.MidPathPreviewRemoved` | src/pages/api/preview/end.ts:16 | `/a/preview/b` redirects to `/a/b` |
| `Preview.QueryOnlyPreviewKeepsPath` | src/pages/api/preview/end.ts:12-16 | when "/preview/" is in the referer but not in its pathname, the pathname comes back unchanged |
| `Preview.FirstOccurrenceOnly` | src/pages/api/preview/end.ts:16 | only the first "/preview" goes, even inside a longer segment: `/previews/preview/a` becomes `s/preview/a` |
| `ContactEmail.Recipient` | src/pages/actions/send-email.ts:33-34 | the recipient is the CMS `formInfoEmail` when truthy, the fixed fallback otherwise, and never empty |
| `ContactEmail.Post` | src/pages/actions/send-email.ts:11-66 | the answer is 400 exactly when a field is missing or empty, and then no message is built; it is always one of the three responses; for a complete form anything but 200 is 500; 200 exactly when a message was built and sent; a built message has the chosen recipient, the fixed sender, `replyTo` equal to the submitter's e-mail and the submitted subject |
| `ContactEmail.FormSubmission` | src/pages/actions/send-email.ts:38 | the template receives the submitted name, e-mail, subject and message unchanged |
| `ContactEmail.SendOutcomeDecides` | src/pages/actions/send-email.ts:40-65 | once read, template and render succeed, the message with the chosen recipient and rendered body is handed to the transport, and the answer is 200 if it is delivered and 500 otherwise |
| `ContactEmail.MissingFieldsCallNothing` | src/pages/actions/send-email.ts:20-27 | an incomplete form gets status 400 whatever the reader, template, render and send would do, so none of them is consulted |
| `ContactEmail.OracleFailureIs500` | src/pages/actions/send-email.ts:31-57 | a failing reader, template read or render gives 500 "Failed to send email" and no message |

## Left out

- Logging (`console.error`, `console.warn`) has no effect on any result and is not modelled.
- The HTTP request to the reCAPTCHA service, the Supabase client, the Keystatic reader, the file system, EJS and nodemailer are outside the model. Each is an oracle parameter, as described above.
- Astro's form decoding (`accept: "form"`, `request.formData()`) is not modelled. Fields arrive as `Option<string>`, where `None` is a missing field.
- The issue messages and the `postSlug` rule are zod's behaviour on the object it is given. Astro's form-to-object decoding may hand zod `null` or `undefined` for a field submitted empty. In that case, on the deployed site, an empty `postSlug` is rejected, and zod's invalid-type message replaces "Required" and the custom `min(1)` messages for an empty required field.
- zod's e-mail regular expression is the `isEmail` parameter. A missing field gets zod's default message "Required". zod's standard error object is reduced to a list of (field, message) issues.
- The reCAPTCHA score is an exact `Option<real>`. Floating point, `NaN`, a `null` score and a non-boolean `success` are not modelled.
- WHATWG URL parsing is the `urlPathname` parameter. In `end.ts` the unused `new URL(request.url)` (end.ts:4) is left out; it only parses the request's own URL, which is well formed.
- `Preview.Start`: the query lookup of `start.ts` (`new URL(request.url).searchParams.get`, start.ts:4-6) is abstracted into the `branch` and `to` arguments. Percent-decoding, `+` read as a space, and `null` for an absent parameter are all left to the caller; `None` stands for `null`.
- `Preview.End`: the error thrown by `new URL(referer)` is a bare `Threw` outcome. When it is thrown, the cookie is not deleted: the code throws before reaching `cookies.delete`. So the deletion does not happen on every call.
- `Strings.ReplaceFirst`: the replacement is taken literally. JavaScript's `$` patterns cannot occur, because the only replacement used is "".
- `Http.MessageJson`: `JSON.stringify` is modelled only for the fixed messages used, which hold no character that needs escaping.
- `JsonLd`: the key order of JavaScript objects is not modelled; maps are unordered.
- `JsonLd.Schema`: the one `baseOrganization` object being shared by reference between `publisher` and `provider` is modelled as two equal values.
- `JsonLd`: the TypeScript interfaces of the generators' inputs do not constrain the model. Every input is an arbitrary `map<string, Json>`, and a missing property reads as `Undefined`.
- `JsonLd.Home`: the full key set of `home`'s result (`@context`, `@type` and the six page fields) is not stated as a set equality, only as the page fields being carried unchanged and the organisation keys being absent.
- `CommentActions.CommentsTable`: the database is reduced to an append-only sequence of rows. The reply to `insert(...).select().single()` is assumed to hold exactly the inserted column values plus the server's `id` and `created_at`, with no column defaults, triggers or policies rewriting them. The response's `isApproved: false` (and the other returned values) rests on that assumption: the source returns `data.is_approved` as the database reports it. The `parent_id` foreign key is not checked.
- The comment form component, `src/utils/email.ts`, `src/lib/supabase.ts`, `src/pages/api/live-schedule.ts`, `astro.config.mjs` and the site data file are not part of this model. The site data contributes only the logo path inside `baseOrganization`.
- `ContactEmail.Post`: the `redirect` argument is unused by the endpoint and is not modelled.
