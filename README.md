# LegiTech AI — a verified model of its core

LegiTech AI is a regulatory-compliance dashboard for Mexican companies. This
project models its core logic in Dafny and proves properties of that model:

- the regulation store of the dashboard, with its tab and search filters, its
  compliance aggregate and the AI enrichment of a record (`Records`);
- the simulated "real regulation" endpoint, with its table of regulations per
  industry and its fine-range parsing (`Simulate`);
- the legal-advisor chat widget (`Chat`) and the document-audit panel (`Audit`);
- the server-side membership controller and its two HTTP handlers
  (`Membership`);
- the browser-side membership context (`MembershipClient`), the session
  context (`Auth`), the route gates and route table (`Routes`) and the pricing
  page (`Pricing`);
- the two register handlers and the two login handlers (`Accounts`), with
  the e-mail format check of the normalising register (`EmailFormat`).

`Types` holds the shared records. `Text` models the JavaScript string
operations the code relies on: `trim`, `toLowerCase`, `includes`, `split`,
`indexOf` and `parseInt`. `Common` holds `Option` and the filter and
subsequence lemmas.

Each stateful component is a class whose fields are its state cells. An
`async` handler becomes one method, or two when the model call sits in the
middle: the part before the `await`, and a continuation that takes the
oracle's answer. The following are all parameters of the operations:

- the AI model's answers;
- the hosted database and its failures;
- the clock, `Math.random` and the clipboard;
- the session service.

Each HTTP handler is a function from the request (and the table) to the reply
and the new table. Where a handler writes, a method on a table class is proved
equal to that function.

Passwords and tokens are symbolic. A hash is `Bcrypt(secret, rounds)` and
matches exactly its own secret. A token is its claims and its lifetime in
days.

## Model

| member | source | states |
|---|---|---|
| Types.ParseImpactLevel | types.ts:8 | a string is an impact level exactly when it is one of "Alto", "Medio", "Bajo" |
| Types.ImpactLevelRoundTrip | types.ts:8 | every impact level reads back from its label, and only its label reads back as it |
| Types.ParseLawStatus | types.ts:9 | a string is a status exactly when it is one of the four status labels |
| Types.LawStatusRoundTrip | types.ts:9 | every status reads back from its label, and only its label reads back as it |
| Records.Iso14001TabSelects | App.tsx:73-74 | on the ISO 14001 tab a record is kept iff its standard reference mentions 14001 or its category is "Ambiental"; order is kept |
| Records.Iso45001TabSelects | App.tsx:75-76 | on the ISO 45001 tab a record is kept iff its reference mentions 45001 or its category is "Seguridad"; order is kept |
| Records.OtherTabEmptySearchShowsAll | App.tsx:70-83 | any other tab applies no context filter, and an empty search shows the whole store in order |
| Records.SearchSelects | App.tsx:80-83 | the search keeps a record iff the lower-cased query occurs in its lower-cased title or description |
| Records.DisplayLawsIsSubsequence | App.tsx:69-84 | the view is an order-preserving subsequence of the store, and every record in it matches the search |
| Records.Iso14001Examples | App.tsx:73-74 | an environmental record with no reference is on the 14001 matrix; a safety record without "14001" is not |
| Records.RoundedMean | App.tsx:115 | `Math.round(sum / n)`: the result is within one half of the exact mean, with halves rounded up |
| Records.SumProgressBounds | App.tsx:114 | with every progress a percentage, the progress sum (absent counts as 0) lies between 0 and 100 per record |
| Records.ComplianceStatsInRange | App.tsx:112-116 | the aggregate is 0 for an empty view and always a percentage |
| Records.SeedStats | App.tsx:30-65 | the two seed records give an aggregate of 43 (42.5 rounded) |
| Records.MergePatchSpec | App.tsx:101 | the merge keeps every required field, takes each field the analysis carries, keeps the others, and is idempotent |
| Records.AnalysisSettles | App.tsx:99-103 | after an analysis with a non-empty summary (the fallback included) the record no longer asks for analysis |
| Records.EnrichById | App.tsx:101 | the enriched store has the same length, and each record is merged exactly when its id matches |
| Records.EnrichByIdSpec | App.tsx:101 | enrichment keeps the ids in order and every record with another id, and is idempotent |
| Records.PrependSpec | App.tsx:90-91 | a discovered record becomes the first, with the rest untouched; no discovery leaves the store as it was |
| Records.Dashboard.constructor | App.tsx:18-30 | starts with the seed records, no selection, not fetching, an empty search, the "Auditoría Viva" tab and the mining industry |
| Records.Dashboard.SetSearchQuery | App.tsx:20 | sets the search and nothing else |
| Records.Dashboard.SetActiveTab | App.tsx:23 | sets the tab and nothing else |
| Records.Dashboard.SetIndustry | App.tsx:281 | sets the industry and nothing else |
| Records.Dashboard.BeginFetch | App.tsx:86-89 | sets the fetching flag and nothing else; the discovery is asked for the current industry |
| Records.Dashboard.FinishFetch | App.tsx:89-93 | the store becomes the prepended store; the fetching flag is cleared |
| Records.Dashboard.SelectLaw | App.tsx:96-100 | selects the record; asks for an analysis, for the current industry, exactly when its summary is absent or empty |
| Records.Dashboard.ApplyAnalysis | App.tsx:100-103 | the store becomes its enrichment by the record's id; the selection is merged only if it still has that id |
| Simulate.Lookup | api/laws/real-simulate.ts:248-258 | the table has regulations for exactly the five industry keys, and none of them is empty |
| Simulate.FineTextParses | api/laws/real-simulate.ts:264-266 | on a range written "a - b UMAS", the minimum and the maximum are a and b, each read after dropping its first comma |
| Simulate.MineriaFine0 | api/laws/real-simulate.ts:12 | the first mining fine reads as 1500 to 15000 |
| Simulate.MineriaFine1 | api/laws/real-simulate.ts:36 | the second mining fine reads as 8000 to 80000 |
| Simulate.MineriaFine2 | api/laws/real-simulate.ts:59 | the third mining fine reads as 5000 to 50000 |
| Simulate.ConstructionFine0 | api/laws/real-simulate.ts:84 | the first construction fine reads as 3000 to 30000 |
| Simulate.ConstructionFine1 | api/laws/real-simulate.ts:106 | the second construction fine reads as 500 to 10000 |
| Simulate.ManufacturaFine0 | api/laws/real-simulate.ts:130 | the first manufacturing fine reads as 1000 to 8000 |
| Simulate.ManufacturaFine1 | api/laws/real-simulate.ts:152 | the second manufacturing fine reads as 800 to 6000 |
| Simulate.AlimentosFine0 | api/laws/real-simulate.ts:176 | the food-industry fine reads as 5000 to 40000 |
| Simulate.TecnologiaFine0 | api/laws/real-simulate.ts:200 | the technology fine reads as 10000 to 100000 |
| Simulate.TableFinesOrdered | api/laws/real-simulate.ts:4-218 | every regulation in the table has a parseable fine range whose minimum does not exceed its maximum |
| Simulate.RandomIndex | api/laws/real-simulate.ts:260 | `floor(random * n)` is a valid index |
| Simulate.HandleMethodGuards | api/laws/real-simulate.ts:228-234 | OPTIONS is answered 200; any other method but POST is 405, and 405 is only that |
| Simulate.HandleMissingIndustry | api/laws/real-simulate.ts:239-246 | a POST is 400 exactly when the industry is absent or empty, and the reply lists the five keys |
| Simulate.HandleLookup | api/laws/real-simulate.ts:248-266 | an industry is 404 exactly when it is not a key; a key is always answered 200 with the randomly chosen regulation of that industry and ordered fine amounts |
| Simulate.DetectionLabels | api/laws/real-simulate.ts:269-305 | risk, investment and priority are the high labels exactly for "ALTO"; deadline and actions come from the regulation |
| Chat.NatToString | components/ChatWidget.tsx:28 | an id rendered from the clock is a non-empty string of digits |
| Chat.NatToStringRoundTrip | components/ChatWidget.tsx:48 | rendering a message id and parsing it back gives the number again |
| Chat.HistorySpec | components/ChatWidget.tsx:58-61 | the history has one turn per message, in order, with its text; the role is "user" exactly for user messages and "model" otherwise |
| Chat.HistoryAppend | components/ChatWidget.tsx:58-61 | the history of a concatenation is the concatenation of the histories |
| Chat.ContextString | components/ChatWidget.tsx:64-66 | a context is sent exactly when a law is selected |
| Chat.ContextStringNamesLaw | components/ChatWidget.tsx:65 | the context names the law's title, its description and its impact level, in that order |
| Chat.ContextNoticeNamesTitle | components/ChatWidget.tsx:30 | the notice names the selected law's title |
| Chat.ChatWidget.constructor | components/ChatWidget.tsx:12-17 | closed, the log is just the greeting, the input is empty, nothing is pending |
| Chat.ChatWidget.ForceOpenEffect | components/ChatWidget.tsx:20-22 | `forceOpen` opens the widget and never closes it |
| Chat.ChatWidget.ContextNoticeEffect | components/ChatWidget.tsx:25-34 | with a law selected and the widget open, exactly one ai notice naming the title is appended; otherwise nothing changes |
| Chat.ChatWidget.Toggle | components/ChatWidget.tsx:174 | flips the open flag only |
| Chat.ChatWidget.SetInput | components/ChatWidget.tsx:156 | sets the input only |
| Chat.ChatWidget.BeginSend | components/ChatWidget.tsx:44-68 | blank input changes nothing and calls nothing; otherwise it appends the untrimmed input as a user message, clears the box, sets typing, and sends the history of the log before the send |
| Chat.ChatWidget.FinishSend | components/ChatWidget.tsx:68-78 | appends exactly one ai message with the reply and clears typing; the log still starts with the greeting |
| Chat.SendExchange | components/ChatWidget.tsx:44-78 | a non-blank send and its reply add exactly the user's message and then the answer to the old log |
| Audit.AuditModal.constructor | components/AuditModal.tsx:12-14 | upload step, empty text, no verdict |
| Audit.AuditModal.SetText | components/AuditModal.tsx:81 | sets the text only |
| Audit.AuditModal.Paste | components/AuditModal.tsx:18-25 | a successful clipboard read replaces the text; a failed one leaves it |
| Audit.AuditModal.StartAudit | components/AuditModal.tsx:27-31 | blank text sends nothing and stays; otherwise the text is sent as is and the step is analyzing |
| Audit.AuditModal.FinishAudit | components/AuditModal.tsx:31-33 | stores the verdict and shows the result step |
| Audit.AuditModal.Reset | components/AuditModal.tsx:36-40 | back to the upload step with empty text and no verdict |
| Audit.AuditRun | components/AuditModal.tsx:27-33 | auditing non-blank text ends showing exactly the verdict for the text in the box |
| Membership.AddYear | server/controllers/membership.controller.ts:38-40 | the end date is after the start date |
| Membership.StatusNoRow | server/controllers/membership.controller.ts:12-14 | no row: not a member, no membership, no write |
| Membership.StatusWithRow | server/controllers/membership.controller.ts:16-26 | with a row, the user is a member iff it is active and not yet ended; the row returned is the one read |
| Membership.AfterReadSpec | server/controllers/membership.controller.ts:19-24 | the expiry write changes only the reader's row and only its status, exactly when it is active and past its end date |
| Membership.ExpiryWritesOnce | server/controllers/membership.controller.ts:16-24 | a second read at the same instant writes nothing and gives the same answer |
| Membership.PlanOf | server/controllers/membership.controller.ts:36 | the plan defaults to "annual" only when absent |
| Membership.UpsertedSpec | server/controllers/membership.controller.ts:38-57 | after activation the user has one row, active from now for a year with the plan, keeping an existing id; other rows are untouched |
| Membership.ReadAfterActivate | server/controllers/membership.controller.ts:16-57 | a status read right after activation finds a member and writes nothing |
| Membership.UpsertIdempotent | server/controllers/membership.controller.ts:42-57 | activating twice at the same instant and plan is the same as once |
| Membership.StatusEndpointGuards | api/membership/status.ts:6-34 | a non-GET is 405 and writes nothing; 401 exactly for the two token messages; token errors never write; read failures are 500 |
| Membership.ActivateEndpointGuards | api/membership/activate.ts:6-40 | a non-POST is 405; 401 exactly for the two token messages; anything but 200 writes nothing; success is the upsert |
| Membership.ActivateUnauthorizedUnreachable | api/membership/activate.ts:10-40 | as written, the handler never answers 401 and never writes: every POST, a valid token included, gets 500, where the intended handler answers 401 for a rejected token and activates for a verified one |
| Membership.StatusAlwaysFails | api/membership/status.ts:10-34 | as written, the handler never answers 401 or 200 and never writes: every GET gets 500, where the intended handler answers 200 for a verified user |
| Membership.MembershipStore.GetMembershipStatus | server/controllers/membership.controller.ts:7-31 | reply and new table are those of the status read |
| Membership.MembershipStore.ActivateMembership | server/controllers/membership.controller.ts:33-64 | reply and new table are those of the activation |
| Membership.MembershipStore.HandleStatus | api/membership/status.ts:5-40 | reply and new table are those of the status handler |
| Membership.MembershipStore.HandleActivate | api/membership/activate.ts:5-46 | reply and new table are those of the activation handler with its 401 mapping |
| MembershipClient.PayloadFor | src/context/MembershipContext.tsx:64-70 | the upsert sends the user, the plan, status "active", start now and no end date |
| MembershipClient.UpsertSpec | src/context/MembershipContext.tsx:62-72 | the upserted row is the user's only row, a membership, with the payload's plan and end date; other users' rows are untouched |
| MembershipClient.GatesDisagree | src/context/MembershipContext.tsx:99 | a row past its end date but still marked active is no membership for the server and is one for the client, whatever its dates |
| MembershipClient.MembershipContext.constructor | src/context/MembershipContext.tsx:26-27 | no membership, not loading |
| MembershipClient.MembershipContext.Refresh | src/context/MembershipContext.tsx:30-52 | no user clears the membership; a failed read clears it; otherwise it is the user's row or none; loading ends false |
| MembershipClient.MembershipContext.Activate | src/context/MembershipContext.tsx:55-88 | no user throws and changes nothing; success upserts and stores a membership; 23505 refreshes; other errors are rethrown with the state kept; loading ends false |
| Auth.FullName | src/context/AuthContext.tsx:52 | the default name is non-empty, has no "@", and is "User" or a prefix of the e-mail |
| Auth.FullNameLocalPart | src/context/AuthContext.tsx:52 | with the first "@" at k, the name is the text before it, or "User" when that is empty |
| Auth.FullNameNoAt | src/context/AuthContext.tsx:52 | without "@", the name is the whole e-mail, or "User" for the empty one |
| Auth.FetchOrCreateFailures | src/context/AuthContext.tsx:21-71 | no user, a failed read or a failed insert gives no profile and leaves the table |
| Auth.FetchOrCreateSpec | src/context/AuthContext.tsx:28-63 | a returned profile is the user's row afterwards; the table only gains the user's default row, and only when the user had none |
| Auth.FetchOrCreateIdempotent | src/context/AuthContext.tsx:28-42 | after a success, a second call returns the same profile and writes nothing |
| Auth.ProfileTable.FetchOrCreateProfile | src/context/AuthContext.tsx:20-75 | the profile and the new table are those of the fetch-or-create |
| Auth.AuthContext.constructor | src/context/AuthContext.tsx:16-18 | no user, no profile, loading |
| Auth.AuthContext.Adopt | src/context/AuthContext.tsx:89-98 | sets the user, and the profile the fetch-or-create gives for it |
| Auth.AuthContext.Init | src/context/AuthContext.tsx:80-106 | loading is released in every case; a thrown session read sets nothing; otherwise authenticated iff there is a user |
| Auth.AuthContext.SessionChanged | src/context/AuthContext.tsx:110-124 | adopts the new session's user and profile and releases loading; sign-out clears the profile without writing |
| Auth.AuthContext.Logout | src/context/AuthContext.tsx:132-137 | no user, no profile, empty storage, not authenticated |
| Routes.MemberGateSpec | src/router/ProtectedRoute.tsx:17-31 | spinner iff a context loads; then /login iff signed out; /pricing iff signed in and not a member; the page iff both hold |
| Routes.SessionGateSpec | src/components/ProtectedRoute.tsx:8-20 | "Cargando..." iff loading; /login iff signed out; the children iff signed in |
| Routes.GatesCompared | src/components/ProtectedRoute.tsx:8-20 | the older gate lets through all the newer one does, and also signed-in non-members, whom the newer one sends to /pricing |
| Routes.RootRedirectSpec | src/components/RootRedirect.tsx:9-23 | no navigation while loading, then /app iff signed in, else /landing; always renders a spinner |
| Routes.RouteTableSpec | src/router/AppRouter.tsx:13-23 | after lower-casing and dropping trailing slashes, the four public paths are open, only /app is gated, everything else redirects to /landing |
| Routes.NormaliseMatches | src/router/AppRouter.tsx:13-23 | a path matches a route exactly when it is the route in any letter case followed only by slashes |
| Routes.RouteSpellings | src/router/AppRouter.tsx:13-23 | "/app", "/app/" and "/APP" reach the gate, "/Pricing" is the pricing page, "/" and "/apps" redirect to /landing |
| Routes.DashboardOnlyForMembers | src/router/AppRouter.tsx:13-23 | the dashboard is rendered iff the path is /app in any letter case followed only by slashes, both contexts have loaded, and the user is a signed-in member |
| Pricing.AlertText | src/pages/PricingPage.tsx:33 | the alert is the prefix followed by the error's message, or by the fallback when the message is empty |
| Pricing.OfferViewSpec | src/pages/PricingPage.tsx:12-18 | spinner iff the session loads; the buy button iff signed in, disabled exactly while a purchase runs |
| Pricing.PricingPage.constructor | src/pages/PricingPage.tsx:10 | not loading |
| Pricing.PricingPage.Subscribe | src/pages/PricingPage.tsx:20-37 | signed out: to /register with no activation; success or 23505: to /app; any other error: the alert and no navigation; loading ends false |
| EmailFormat.IsEmailMatchesPattern | api/auth/register.ts:36-42 | the check accepts exactly the strings of the form a@b.c with a, b, c non-empty runs without white space or "@" |
| EmailFormat.IsEmailShape | api/auth/register.ts:36-42 | an accepted e-mail has no white space, exactly one "@" with text before it, and an inner dot after it |
| EmailFormat.IsEmailLower | api/auth/register.ts:36-66 | lower-casing neither makes nor breaks an e-mail |
| EmailFormat.TrimLowerEmail | api/auth/register.ts:60-66 | trimming a lower-cased accepted e-mail changes nothing |
| Accounts.RegisterNormalisingRejects | api/auth/register.ts:16-42 | every rejection leaves the table; preflight, wrong method, missing field and bad format are answered in that order |
| Accounts.RegisterNormalisingBadRequest | api/auth/register.ts:28-54 | 400 iff a field is missing, the format is bad, the lower-cased e-mail is taken, or the database reports P2002 |
| Accounts.RegisterNormalisingSucceeds | api/auth/register.ts:16-87 | registration succeeds iff every guard passes and the database does not fail |
| Accounts.NormalisedRowSpec | api/auth/register.ts:60-66 | the stored e-mail is the lower-cased one, which is still a valid e-mail |
| Accounts.RegisterNormalisingCreates | api/auth/register.ts:57-87 | success adds exactly one row under the lower-cased e-mail, with trimmed name, cost-12 hash and default role; the 201 carries that row without its password |
| Accounts.RegisterExactSpec | api/register.ts:11-55 | stores name and e-mail as typed with a cost-10 hash; rejects only the same e-mail; every database failure is 500 |
| Accounts.LoginNormalisingSpec | api/auth/login.ts:16-88 | login succeeds iff the password matches the row under the lower-cased e-mail; unknown user and wrong password give the same 401; P1001 names the connection |
| Accounts.LoginExactSpec | api/login.ts:22-74 | login succeeds iff the password matches the row under the e-mail as typed; every other POST failure without a database error is the same 400 |
| Accounts.LoginIndistinguishable | api/auth/login.ts:41-54 | an unknown e-mail and a wrong password cannot be told apart, in both login variants |
| Accounts.RegisterThenLogin | api/auth/login.ts:41-74 | after registering, login accepts the same password under any casing of the e-mail |
| Accounts.CaseSensitivityAcrossVariants | api/login.ts:37-49 | an e-mail with a capital letter registered through the normalising handler is not found by the exact login and is found by the normalising one |
| Accounts.UserTable.HandleRegister | api/auth/register.ts:14-106 | reply and new table are those of the normalising register |
| Accounts.UserTable.HandleRegisterExact | api/register.ts:9-56 | reply and new table are those of the exact register |

## Left out

- The AI model calls (chat reply, law discovery, law analysis, document audit) are oracles: their answers are parameters, and their prompts and parsing are not part of this model.
- The hosted database and Prisma are modelled as maps. Their failures are parameters. Connection handling and `$disconnect` are not modelled.
- Concurrency is not modelled. Each handler is one atomic step, and there are no interleavings of two pending `await`s. Unmounting, the `mounted` flag and the 4-second abort of the profile fetch are not modelled; the abort is just one more failure.
- The clock is a parameter. `Membership.AddYear` adds 365 days: leap years and time zones are not modelled.
- `Math.random` is a real in [0, 1).
- The displayed fine amounts (`toLocaleString`) are not modelled. The float UMA value 112.50 is kept as 11250 centavos.
- Simulate.Lookup: only the table's own keys are modelled. Prototype keys of the object literal are not.
- `parseInt` radix prefixes and leading signs on the fine figures are not modelled. Only the decimal digits the table uses are.
- `toLowerCase` is modelled for ASCII and Latin-1 letters only.
- bcrypt's 72-byte truncation and salts are not modelled.
- JWT signing, expiry and verification are symbolic. A token keeps its claims and lifetime, and the token check of the membership handlers is a parameter.
- StatusEndpointGuards: modelled with the token check its 401 mapping is written for. As written, api/membership/status.ts imports `allowCors` from lib/auth.ts, which does not export it, so the module cannot load. Its `verifyToken` is handed the request instead of a token string and throws "jwt must be a string", which the 401 mapping does not name. The handler body as written is `Membership.StatusEndpointAsWritten`.
- HandleStatus: performs `StatusEndpointGuards`, so it is subject to the same gap as the line above.
- ActivateEndpointGuards: modelled with the token check its 401 mapping is written for. As written, api/membership/activate.ts imports `allowCors` from api/lib/auth.ts, which does not export it, so the module cannot load. Its `verifyToken` is handed the request instead of a token string and returns null for every request, a valid token included. The handler body as written is `Membership.ActivateEndpointAsWritten`.
- HandleActivate: performs `ActivateEndpointGuards`, so it is subject to the same gap as the line above.
- Membership end dates are never null in the model. A row with a null end date would compare as already ended, because `new Date() < null` is false.
- Accounts.RegisterExact uses the cost-10 `hashPassword` of lib/auth.ts. The `api/lib/auth.ts` it imports from does not export one.
- The imports of api/login.ts point outside the repository. The model gives them the meaning of lib/auth.ts.
- CORS headers and preflight header values are not modelled. Only the preflight reply is.
- The `success` flags and the `umasValue` and `realData` fields of the replies are not modelled. Neither is the membership included in the normalising login's reply.
- The constant fields of the simulated regulation replies are not modelled: `year` (also in the 400 and 404 replies), `complianceStatus`, `regulatoryTrend`, `digitalTransformation.required` and `technologies`, `recommendations.focus2025`, `complianceRoadmap`, and the 404 reply's `suggestion`.
- CaseSensitivityAcrossVariants: assumes that the unique email column compares case-sensitively, as Prisma's default on PostgreSQL does. The database provider is not part of this model.
- RouteFor: percent-decoding of paths and case folding beyond ASCII and Latin-1 letters are not modelled.
- Accounts.DefaultRole: the role "user" for rows the register handlers create is assumed. The database schema that sets it is not part of this model.
- Body fields are modelled as absent or as strings. Non-string JSON values are not modelled.
- The login and register pages, the landing page, the sidebar and the law detail panel are not part of this model. They only render and call the operations above.
- Scrolling, styling and focus effects are not modelled.

## Findings

| source | as written | input that shows it | evidently intended | confidence | as-written member | corrected member |
|---|---|---|---|---|---|---|
| api/membership/activate.ts:3-40 | `verifyToken(req)` comes from api/lib/auth.ts, which returns null instead of throwing; handed the request rather than a token string, it returns null for every request. Reading `userId` of null throws a TypeError, whose message is neither "No token provided" nor "Invalid token", so the handler answers 500. The imported `allowCors` is not exported by api/lib/auth.ts either. | any POST, a valid token included | 401 with the token error's message, as the catch block is written for | not executed | Membership.ActivateUnauthorizedUnreachable | Membership.ActivateEndpointGuards |
| api/membership/status.ts:3-34 | `verifyToken(req)` comes from lib/auth.ts, which calls `jwt.verify` on the request object; it throws "jwt must be a string", which the catch block does not map to 401, so the handler answers 500. The imported `allowCors` is not exported by lib/auth.ts either. | any GET, a valid token included | 200 with the reader's membership, or 401 with the token error's message | not executed | Membership.StatusAlwaysFails | Membership.StatusEndpointGuards |
