# Risk register server: the decision logic, modelled and proved in Dafny

The server of this risk register (an Express and Mongoose application) has four pieces of real decision logic. This project models each of them and proves what they promise.

- **Duplicate-risk check** (`duplicate_checker.dfy`, module `DuplicateChecker`). `checkDuplicateRisk` compares a new risk description with the existing ones in three tiers, in strict order. The first tier is a verbatim membership test. The second compares the best fuzzy string rating against 0.85, strictly. The third scans the per-document TF-IDF measures for the largest one and its earliest position, then applies the verdict rule: duplicate above 2.5, and a reason that names the matched risk with 1-based numbering. The scan loop is a method with invariants. It is proved equal to two specification functions, `MaxScore` and `BestIndex`, and those functions are characterised on their own.
- **Risk document** (`risk_model.dfy`, module `RiskModel`). This holds the schema validators for title, description, impact, probability, severity, owner, target date and status, as pure functions. It also holds the `pre('save')` hook. A `RiskDocument` class carries the document's fields. Its `PreSave` method overwrites `severity` in place with the band of `impact * probability`, using `SeverityOf`. Its `Save` method validates first and runs the hook only when validation passes, which is the order Mongoose uses.
- **Authentication middleware** (`auth.dfy`, module `Auth`). `authenticate` takes the token from the Authorization header, removing only the first `'Bearer '`. It then runs a failure ladder that always ends in 401 and, on success, records the user and the token on the request. `authorize(...roles)` is a role-membership gate that ends in 403. `Text` (`text.dfy`) holds the JavaScript string operations used here and by the schema: `trim`, `replace` with a string pattern, and `length`, which counts UTF-16 code units.
- **Route policy** (`routes.dfy`, module `Routes`). The risk router and the user router are modelled as the lists of layers they register: `router.use(authenticate)` and routes, each route with its `authorize` guard. `Dispatch` runs a request through those layers. The access matrix (`RiskEndpoint`, `AllowedRoles`) is stated separately, and lemmas connect the two.

Token verification (`verifyToken`), the user lookup (`User.findById`), the fuzzy rating library and the TF-IDF library are outside the model. The two services are function parameters, each with its own failure outcome. The two libraries' results are parameters too: one best rating, and one measure per existing description. The clock (`Date.now()`) is the parameter `now`.

`server/utils/riskDuplicateChecker.js` has no embedding tier and no cosine-similarity tier. It compares the new description verbatim, without trimming it first. It returns only `isDuplicate` and `reason`, with no field naming the matched risk. The model's `Verdict` has exactly those two fields.

## Model

| member | source | states |
|---|---|---|
| `DuplicateChecker.MaxScore` | server/utils/riskDuplicateChecker.js:28-36 | the best score is never negative, is at least every measure, and is either 0 or one of the measures |
| `DuplicateChecker.FirstIndexOf` | server/utils/riskDuplicateChecker.js:32-35 | the position returned holds the value and no earlier position does (why strict `>` keeps the earliest tie) |
| `DuplicateChecker.ScanResultUnique` | server/utils/riskDuplicateChecker.js:28-36 | the scan's promise (largest of 0 and the measures; earliest position of it when positive; index 0 otherwise) determines the pair `(maxScore, bestIndex)` uniquely |
| `DuplicateChecker.ScanSpec` | server/utils/riskDuplicateChecker.js:28-36 | `MaxScore` and `BestIndex` satisfy the scan's promise |
| `DuplicateChecker.ScanMeasures` | server/utils/riskDuplicateChecker.js:28-36 | the loop starting from 0 and index 0 and taking only strictly larger measures ends with the maximum of 0 and all measures, and with the smallest index holding it when it is positive (0 otherwise) |
| `DuplicateChecker.CheckDuplicateRisk` | server/utils/riskDuplicateChecker.js:4-42 | the three tiers run in order and the first that decides returns; the result is a duplicate iff there is a verbatim match, a rating above 0.85 or a best measure above 2.5 |
| `DuplicateChecker.ExactMatchShortCircuits` | server/utils/riskDuplicateChecker.js:6-8 | a verbatim match (no trimming, no case folding) gives `{isDuplicate: true, reason: 'Exact match found'}` whatever the rating and the measures are |
| `DuplicateChecker.ExactMatchReasonIff` | server/utils/riskDuplicateChecker.js:6-8 | the exact-match reason appears iff the new description is one of the existing ones |
| `DuplicateChecker.StringTier` | server/utils/riskDuplicateChecker.js:11-17 | without a verbatim match, a rating strictly above 0.85 gives a high-string-similarity duplicate; a rating of 0.85 or less passes on to the TF-IDF tier, so exactly 0.85 does not trigger |
| `DuplicateChecker.DuplicateIff` | server/utils/riskDuplicateChecker.js:6-41 | `isDuplicate` holds iff there is a verbatim match, or the rating exceeds 0.85, or some measure exceeds 2.5 |
| `DuplicateChecker.TfIdfTier` | server/utils/riskDuplicateChecker.js:38-41 | the final tier is a duplicate iff the best score exceeds 2.5; the reason is 'No similarity detected' iff no measure is positive, and otherwise names risk `#k` with `1 <= k <= number of descriptions`, where document `k-1` holds the best score and no earlier document does |
| `DuplicateChecker.WeakSimilarityNamesRisk` | server/utils/riskDuplicateChecker.js:39-40 | a best score in (0, 2.5] gives a non-duplicate whose reason still names risk `#(bestIndex + 1)` |
| `RiskModel.SeverityOf` | server/models/Risk.js:63-69 | the hook's band for a score is always one of `severityLevels` |
| `RiskModel.Rank` | server/models/Risk.js:3 | the position of a band in `severityLevels`, from 'low' to 'critical' |
| `RiskModel.SeverityBands` | server/models/Risk.js:64-69 | 'low' iff score <= 4, 'medium' iff 5..10, 'high' iff 11..20, 'critical' iff > 20 |
| `RiskModel.SeverityMonotone` | server/models/Risk.js:64-69 | a larger score never gives a milder band |
| `RiskModel.SeveritySymmetric` | server/models/Risk.js:64 | swapping impact and probability gives the same band |
| `RiskModel.CriticalOnlyAtFiveByFive` | server/models/Risk.js:19-30 | for impact and probability in 1..5 the score is in 1..25, and the band is 'critical' iff both are 5 |
| `RiskModel.HookSeverity` | server/models/Risk.js:63-69 | the hook's band is always in `severityLevels`; with both factors present it is `SeverityOf(impact * probability)`; an absent impact or an absent probability (a NaN score) falls through to 'critical' |
| `RiskModel.Errors` | server/models/Risk.js:5-60 | a path is reported iff one of its validators fails, with the first failing validator of that path |
| `RiskModel.RatingAccepted` | server/models/Risk.js:19-30 | impact and probability are accepted iff 1 <= value <= 5; an absent one fails `required` |
| `RiskModel.TitleAccepted` | server/models/Risk.js:6-11 | a title is accepted iff its trimmed form has a `length` of 1 to 100 UTF-16 code units (empty fails `required`) |
| `RiskModel.DescriptionAccepted` | server/models/Risk.js:12-18 | a description is accepted iff its trimmed form has a `length` of 10 to 500 UTF-16 code units |
| `RiskModel.AstralCharactersCountTwice` | server/models/Risk.js:10-17 | lengths count characters above U+FFFF twice: 51 to 100 such characters make a title too long, and 5 to 9 make a description long enough |
| `RiskModel.DeclaredMessages` | server/models/Risk.js:8-52 | a missing title, a too-short description, an out-of-range impact or probability and a past target date are reported on their path with the message the schema declares for them |
| `RiskModel.TargetDateAccepted` | server/models/Risk.js:45-54 | an absent target date is accepted; a present one is accepted iff it is strictly later than now |
| `RiskModel.AcceptedIff` | server/models/Risk.js:5-60 | a document passes validation iff every path meets its rule: title and description lengths in UTF-16 code units, impact, probability, severity and status enums, owner present, target date in the future or absent |
| `RiskModel.ClientSeverityRejected` | server/models/Risk.js:31-35 | a severity outside `severityLevels` fails the enum check, because validation runs before the hook would replace it |
| `RiskModel.DefaultsAccepted` | server/models/Risk.js:31-59 | a document built without severity or status gets 'low' and 'open', and both pass their enum checks |
| `RiskModel.SavedSeverity` | server/models/Risk.js:19-30 | a document that passes validation has a score in 1..25 for the hook, and it is 'critical' exactly when impact and probability are both 5 |
| `RiskModel.RiskDocument.constructor` | server/models/Risk.js:5-60 | building a document trims title, description and mitigation plan, and fills severity 'low' and status 'open' when absent |
| `RiskModel.RiskDocument.PreSave` | server/models/Risk.js:63-72 | the hook overwrites `severity` with the band of the score, whatever it held before, and changes nothing else |
| `RiskModel.RiskDocument.Save` | server/models/Risk.js:62-72 | the save step returns the validation errors; only when there are none is `severity` set to `SeverityOf(impact * probability)`, and nothing else changes |
| `Text.Trim` | server/models/Risk.js:9 | the trimmed string is no longer than the input and neither starts nor ends with whitespace |
| `Text.TrimIsSlice` | server/models/Risk.js:14 | trimming keeps a contiguous slice of the input and drops only whitespace on either side |
| `Text.TrimIdempotent` | server/models/Risk.js:43 | trimming an already trimmed value changes nothing |
| `Text.JsLength` | server/models/Risk.js:10-17 | a string's `length` lies between its number of characters and twice that; it equals the character count iff no character is above U+FFFF, twice it iff all are, and 0 iff the string is empty |
| `Text.IndexFrom` | server/middlewares/auth.js:6 | the search returns the first occurrence of the pattern at or after the start, or reports there is none |
| `Text.ReplaceFirstAbsent` | server/middlewares/auth.js:6 | `replace` with a string pattern returns the string unchanged when the pattern does not occur |
| `Text.ReplaceFirstAt` | server/middlewares/auth.js:6 | `replace` with a string pattern rewrites the first occurrence only |
| `Auth.ExtractFromBearerHeader` | server/middlewares/auth.js:6 | the header 'Bearer ' + t yields the token t |
| `Auth.ExtractWithoutPrefix` | server/middlewares/auth.js:6 | a header without 'Bearer ' is used unchanged as the token |
| `Auth.ExtractRemovesFirstOccurrence` | server/middlewares/auth.js:6 | the first 'Bearer ' is removed wherever it stands, and later ones stay |
| `Auth.NoUsableToken` | server/middlewares/auth.js:6-10 | a missing header yields no token, and a header exactly 'Bearer ' yields the empty token |
| `Auth.ErrorMessage` | server/middlewares/auth.js:25 | the error text is never empty: the error's own message if it has one, else 'Authentication failed' |
| `Auth.AuthenticatedIff` | server/middlewares/auth.js:5-21 | a request gets through iff the header yields a non-empty token that verifies and whose user is found, and it then carries that user and that token |
| `Auth.MissingTokenRejected` | server/middlewares/auth.js:6-10 | a missing header or a bare 'Bearer ' is rejected with 'Authentication required' |
| `Auth.UnknownUserRejected` | server/middlewares/auth.js:13-17 | a verified token whose user is not found is rejected with 'User not found' |
| `Auth.RejectionHasMessage` | server/middlewares/auth.js:22-27 | every rejection carries a non-empty error message |
| `Auth.Response.SendError` | server/middlewares/auth.js:23-26 | the response gets the status and the body `{success: false, error: message}` |
| `Auth.Authenticate` | server/middlewares/auth.js:4-28 | on success `req.user` and `req.token` are set, `next` is called and nothing is sent; on every failure, a verification error included, 401 `{success: false, error}` is sent, `next` is not called and the request is left as it was |
| `Auth.AuthorizationIff` | server/middlewares/auth.js:30-39 | an authenticated user passes iff their role is listed, and otherwise gets 403 'Unauthorized access' |
| `Auth.EmptyRolesRejectAll` | server/middlewares/auth.js:30-32 | `authorize()` with no roles rejects every user |
| `Auth.Authorize` | server/middlewares/auth.js:30-40 | the middleware calls `next` and sends nothing iff the role is listed, answers 403 otherwise, and faults when no user is recorded |
| `Routes.SkipRoute` | server/routes/risks.js:14-20 | a route whose method and path do not match passes the request to the next layer |
| `Routes.RiskRoutesAfterAuthentication` | server/routes/risks.js:14-20 | behind `authenticate`, a request for POST or GET `/`, or for PUT or DELETE `/:id`, reaches its controller iff the role is allowed there, else gets 403; any other request falls through |
| `Routes.RiskAccessMatrix` | server/routes/risks.js:12-20 | on the risk router, failing authentication gives 401 for every method and path; otherwise the outcome is the access matrix: create and update for risk_manager and admin, list for viewer, risk_manager and admin, delete for admin only |
| `Routes.RiskRoutesNeedAuthentication` | server/routes/risks.js:12 | a risk controller runs only for an authenticated user, with that user on the request, and `authorize` never faults there |
| `Routes.ViewerReadsAdminDoesAll` | server/routes/risks.js:15-20 | a viewer reaches a risk route iff it is a read; an admin reaches every risk route |
| `Routes.SignupAndLoginArePublic` | server/routes/users.js:12-15 | POST `/signup` and POST `/login` reach their controllers whatever the Authorization header, since they come before `authenticate` |
| `Routes.ListUsersNeedsAdmin` | server/routes/users.js:15-16 | GET `/` on the user router gives 401 without authentication, then reaches the controller iff the role is admin, else 403 |
| `Routes.NonAdminCannotListUsers` | server/routes/users.js:16 | a viewer or a risk manager gets 403 when listing users |

## Left out

- The fuzzy rating (`string-similarity`'s `findBestMatch`) is not modelled; its best rating is a parameter of `CheckDuplicateRisk`.
- The TF-IDF computation is not modelled either: `natural`'s `WordTokenizer`, `TfIdf`, the index built at server/utils/riskDuplicateChecker.js:20-27 and `toLowerCase`. The per-document measures are a parameter, one per existing description, in document order.
- `DuplicateChecker.CheckDuplicateRisk` requires a non-empty list of existing descriptions. What `findBestMatch` (server/utils/riskDuplicateChecker.js:11) does with an empty list of targets belongs to the string-similarity library, which is outside this model, so that case is left out.
- The percentage text in the high-string-similarity reason (`toFixed(0)` of the rating times 100) is not rendered. The reason carries the rating itself.
- Ratings and measures are exact reals, not IEEE doubles.
- Non-integer impact and probability values are not modelled (the schema's type is Number). Neither is Mongoose's casting of input values or its `CastError`.
- Mongoose's default validation messages (for `maxlength` on title and description, `required` on impact, probability and owner, and the enums) are not modelled. `SchemaMessage` gives only the messages the schema declares.
- `timestamps`, the `ref` on `owner`, and persistence itself are not modelled.
- `RiskModel.HookScore` treats every absent factor as `undefined`, whose product is NaN. A `null` factor, whose product is 0, is not modelled separately.
- `Date.now()` is the parameter `now`, in milliseconds.
- `verifyToken` (`jsonwebtoken`) and `User.findById` are parameters with explicit outcomes. Their internals are not modelled, nor is the `User` model, which is not part of this model.
- The asynchronous scheduling of `authenticate` is not modelled.
- Express's error handler is not modelled. It turns a thrown TypeError into a 500 response; here that case is the `Fault` outcome of `authorize` on a request with no user.
- Routes: Express's case-insensitive and trailing-slash path matching, automatic OPTIONS responses and the routers' mount points are not modelled (server/index.js mounts neither router). Paths are lists of segments relative to the router.
- The controllers (`createRisk`, `getRisks`, `signup`, `login`, `getAllUsers`) are not modelled; a request that reaches one is `Handled`. `updateRisk` and `deleteRisk` are imported at server/routes/risks.js:4-5 but not exported by server/controllers/risks.js. Only the policy for those routes is modelled.
- server/utils/authToken.js, server/index.js, the client and the lint configuration are not part of this model.
