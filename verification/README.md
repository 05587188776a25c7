# Cloud misconfiguration scanner: a Dafny model

This project models the backend of a small cloud-security service. The
service scans an AWS account for three kinds of misconfiguration:

- S3 buckets readable by everyone;
- IAM roles with an "allow everything" policy;
- security groups open to 0.0.0.0/0.

It scores every finding, keeps the ones whose confidence reaches a threshold
and attaches an AI remediation suggestion to each of them. It records the
scan for a dashboard. Access is guarded by bearer tokens for a fixed set of
users.

The model is pure and functional:

- A finding (a Python dict) is the datatype `Findings.Finding`. An absent key
  is `None`.
- The cloud SDK's answers are the parameters `Listing`, `Bucket`, `Role` and
  `SecurityGroup`.
- The language-model service is a flag saying whether an API key is
  configured, plus an oracle `ask` that gives the reply for a finding.
- The process-global scan and remediation histories are a `History` value,
  passed in and returned.
- The clock is an integer number of seconds, `now`.
- Scores are exact reals.

Modules:

| module | models |
|---|---|
| `Wrappers` | `Option` and `Result` |
| `Text` | substring search, ASCII lower-casing, decimal rendering of integers |
| `Findings` | the finding record and its AI and access annotations |
| `Sequences` | occurrence counts and order-preserving selections |
| `Ranking` | `collections.Counter.most_common` |
| `Scanner` | the three detectors, their placeholder findings and the combined scan (backend/app/scanner.py) |
| `Suggestions` | confidence scoring, filtering and enrichment (backend/app/ai_suggestions.py) |
| `Analytics` | scan and remediation records, the dashboard and the demonstration data (backend/app/analytics.py) |
| `Auth` | users, login, tokens and role gates (backend/app/auth.py) |
| `Api` | the scan endpoints (backend/app/main.py) |
| `Scenarios` | concrete worked cases: the scoring examples, the bulk-filtering test input, the dashboard over the demonstration history |

Three behaviours of the code are easy to misread. The model follows the code
in each case:

- **Invalid strictness:** an unknown strictness is not an error. It scores like
  "balanced" (multiplier 1.0).
- **Findings without the prompt keys:** these fail a bulk run only when an API
  key is configured. Then the prompt reads `type`, `resource_id` and `details`
  by subscript, and the `KeyError` becomes a 500. Without a key they are scored
  and filtered normally.
- **Default threshold:** the endpoint applies `or 0.7` to the threshold
  (backend/app/main.py:110). So an explicit threshold of 0.0 behaves like 0.7,
  although the request model's own comment at backend/app/main.py:32 says
  "0.0 = show all".

## Model

| member | source | states |
|---|---|---|
| Suggestions.ConfidenceScore | backend/app/ai_suggestions.py:77-99 | The score lies in [0, 1] and is one of eight values. Under "balanced" it reaches 0.8 exactly for a public/unrestricted type. Under "balanced" a permissive/IAM type scores in [0.6, 0.8) and any other type in [0.5, 0.7). Under "strict" a high-risk type scores 1.0. |
| Suggestions.BalancedScore | backend/app/ai_suggestions.py:81-90 | Under "balanced" the score is exactly 0.9 for a public/unrestricted type, 0.7 for a permissive/IAM type and 0.6 for any other type, including a missing one. |
| Suggestions.StrictnessFactors | backend/app/ai_suggestions.py:92-99 | The lenient score is exactly 0.8 times the balanced score, and the strict score is 1.2 times the balanced score capped at 1.0. So a lenient public bucket scores 0.72. |
| Suggestions.Clamp | backend/app/ai_suggestions.py:99 | The result is in [0, 1]. A value already in range is unchanged, anything above 1 becomes 1, and anything below 0 becomes 0. |
| Suggestions.StrictnessOrder | backend/app/ai_suggestions.py:92-96 | For every finding, strict scores strictly more than balanced, high-risk types included (1.0 against 0.9, the case backend/tests/test_ai_suggestions.py:42-52 checks), and balanced scores strictly more than lenient. Any other strictness string scores exactly like balanced. |
| Suggestions.BandOfScore | backend/app/ai_suggestions.py:116-122 | The band is "high" exactly for a high-risk type under any strictness but "lenient", or a permissive/IAM type under "strict". It is "low" exactly for a type that is not high-risk under "lenient". |
| Suggestions.RoundKeepsScores | backend/app/ai_suggestions.py:128 | Rounding to two decimals leaves every possible score unchanged. |
| Suggestions.MissingPromptKey | backend/app/ai_suggestions.py:31-33 | No key is missing exactly when the finding has `type`, `resource_id` and `details`. Otherwise the missing key reported is the first absent one in prompt order: `type`, then `resource_id`, then `details`. |
| Suggestions.RemediationSuggestions | backend/app/ai_suggestions.py:17-75 | Without a key the result is the fixed "unavailable" text with low confidence. With a key and a missing prompt key the result is a KeyError whose text is the first missing key, quoted. Otherwise an answer gets high or medium confidence by the same risk words, and a failed call gets low confidence with the error text. |
| Suggestions.Kept | backend/app/ai_suggestions.py:106-112 | A finding is kept exactly when it is in the input and its score reaches the threshold. |
| Suggestions.KeptIsSubsequence | backend/app/ai_suggestions.py:106-112 | The kept findings appear in input order: the filter selects and never reorders. |
| Suggestions.KeptAppend | backend/app/ai_suggestions.py:106-112 | Filtering a concatenation is the concatenation of the filtered parts, so each finding is judged on its own. |
| Suggestions.KeptIdempotent | backend/app/ai_suggestions.py:106-112 | Filtering twice at the same threshold equals filtering once. |
| Suggestions.KeptMonotone | backend/app/ai_suggestions.py:106-112 | Filtering at a higher threshold equals filtering the low-threshold result again. |
| Suggestions.KeptExtremes | backend/app/ai_suggestions.py:106-112 | A threshold at or below 0.48 keeps every finding, and one above 1.0 keeps none. |
| Suggestions.EnrichKeepsPromise | backend/app/ai_suggestions.py:124-130 | The emitted finding keeps all keys of its input. It adds the suggestion, the band of its score, the score rounded to two decimals and the strictness. |
| Suggestions.BulkSuggestions | backend/app/ai_suggestions.py:101-131 | On success, the findings the suggestions are built from are exactly the kept findings, one emitted item for each. |
| Suggestions.BulkItemsEnriched | backend/app/ai_suggestions.py:114-130 | Each emitted item is its kept input, enriched as promised, in the same position. |
| Suggestions.BulkFailsIff | backend/app/ai_suggestions.py:108-114 | A bulk run fails exactly when a key is configured and some kept finding lacks a prompt key. A finding dropped by the filter never causes a failure. |
| Text.ContainsIffOccurs | backend/app/ai_suggestions.py:85 | Substring search (`in`) holds exactly when the needle occurs at some position. |
| Text.IntRoundTrip | backend/app/scanner.py:146 | Reading back the decimal rendering of an integer gives the integer. |
| Ranking.Counted | backend/app/analytics.py:164 | The tally has one entry per distinct value, holding that value's number of occurrences. |
| Ranking.SortDesc | backend/app/analytics.py:167 | The result is sorted by descending count and is a permutation of the input. |
| Ranking.MostCommon | backend/app/analytics.py:167 | The result has min(n, number of distinct values) entries. |
| Ranking.MostCommonEntries | backend/app/analytics.py:164-167 | The most common entries are distinct values of the input with their true counts, largest first. |
| Ranking.MostCommonComplete | backend/app/analytics.py:164-167 | A value left out is no more frequent than any listed value, and then all n places are filled. |
| Analytics.CategorizeByService | backend/app/analytics.py:105-118 | Each finding is counted once under the first service its type names. A service is a key exactly when some finding maps to it. The counts sum to the number of findings. |
| Analytics.CategorizeBySeverity | backend/app/analytics.py:121-132 | Each finding is counted once under the first severity its type names. A severity is a key exactly when some finding maps to it. The counts sum to the number of findings. |
| Analytics.RecordScan | backend/app/analytics.py:13-27 | Exactly one scan is appended and earlier ones are untouched. Its id is the new length, its time is now, its total is the number of findings, its findings are the given ones, its breakdowns are the service and severity categorisations of those findings, and its duration is the fixed 1500 ms. |
| Analytics.RecordRemediation | backend/app/analytics.py:30-42 | Exactly one remediation is appended and earlier ones are untouched. Its id is the new length, its time is now, its user, issue, action and outcome are the given ones, and its time to remediate is the fixed 0.5 hours. |
| Analytics.RecordingKeepsNumbering | backend/app/analytics.py:16 | If every id equals its position plus one, recording either kind of record keeps that true. |
| Analytics.MockHistory | backend/app/analytics.py:171-207 | The demonstration history has 15 scans and 8 remediations. They are numbered by position, and no scan and no remediation is later than now. |
| Analytics.MockScansDiffer | backend/app/analytics.py:187-189 | A demonstration scan's total can differ from its findings count, and a zero Low count is stored as a key. |
| Analytics.ScansAfter | backend/app/analytics.py:48-51 | A scan is selected exactly when it is in the history and strictly after the cutoff. History order is kept. |
| Analytics.RemediationsAfter | backend/app/analytics.py:52-55 | A remediation is selected exactly when it is in the history and strictly after the cutoff. The selection keeps history order and never repeats a record (it is a subsequence). |
| Analytics.RemediationsAfterAppend | backend/app/analytics.py:52-55 | The remediation window of a concatenation is the concatenation of the windows. |
| Analytics.ScansAfterAppend | backend/app/analytics.py:48-51 | The window of a concatenation is the concatenation of the windows. |
| Analytics.CountSuccessful | backend/app/analytics.py:61 | The count is the number of `success` flags that are true, so it is never more than the number of remediations. |
| Analytics.SuccessExtremes | backend/app/analytics.py:61 | The success count is 0 exactly when no remediation succeeded, and equals the number of remediations exactly when every one succeeded. |
| Analytics.CountSuccessfulAppend | backend/app/analytics.py:61 | The successes of a concatenation are the sum of the successes of its parts. |
| Analytics.ServiceBreakdownCounts | backend/app/analytics.py:64-68 | A service is listed exactly when some recent scan has it as a key. Its metric is the number of such scans and the sum of their counts. |
| Analytics.SeverityBreakdownSums | backend/app/analytics.py:71-74 | Each severity's total is the sum of the recent scans' counts for it. It is a key exactly when some scan has it. |
| Analytics.LastTen | backend/app/analytics.py:100 | The result is the suffix of length min(10, n). |
| Analytics.TopIssuesRanked | backend/app/analytics.py:157-168 | There are at most ten distinct issue types, with their true counts, most frequent first. A type left out is no more frequent than any listed type. |
| Analytics.Percent | backend/app/analytics.py:90-93 | The rate is `part / whole * 100`: times `whole` it gives `part * 100`. It is in [0, 100], 0 when there is nothing to divide by, and 100 when every remediation succeeded. |
| Analytics.Average | backend/app/analytics.py:80-83 | The average times the count gives back the total, and it is 0 for an empty list. |
| Analytics.DashboardOverview | backend/app/analytics.py:57-96 | Successes never exceed remediations, and the success rate is in [0, 100]. With no remediations the rate and the average time are 0, and with no scans the average issue count is 0. |
| Analytics.OverviewTotals | backend/app/analytics.py:57-96 | The overview's figures are those of the window. The scan count and issue total come from the recent scans. The remediation count, the successes, the success rate and the average time to remediate come from the recent remediations. The average issue count is the issue total over the scan count. |
| Analytics.DashboardMetrics | backend/app/analytics.py:45-102 | Successes never exceed remediations, and the success rate is in [0, 100]. Empty denominators give 0. At most ten recent scans and ten top issues are returned. |
| Analytics.DashboardWindow | backend/app/analytics.py:47-102 | The window holds exactly the scans and remediations strictly after now minus the given days. The overview is the window's overview. The service and severity breakdowns and the top issues are computed from the window's scans. The recent list is the last ten of those scans. |
| Analytics.SumIssuesAppend | backend/app/analytics.py:59 | The issue sum distributes over concatenation. |
| Analytics.RecordedScanIsCounted | backend/app/analytics.py:13-61 | A scan recorded now shows in the dashboard overview over any positive window as one more scan with its findings added. The remediation count is unchanged. |
| Scanner.MockDetails | backend/app/scanner.py:7-14 | A placeholder finding's details always say it is mock data. |
| Scanner.BucketFindings | backend/app/scanner.py:26-51 | A bucket yields one finding if its readable ACL grants AllUsers, plus one if its ACL was read and its policy names a wildcard principal, and nothing else. The ACL finding appears exactly when its ACL was read and grants AllUsers. The policy finding appears exactly when the ACL was read and the policy names a wildcard principal. When both appear, the ACL finding comes first. |
| Scanner.FindPublicS3Buckets | backend/app/scanner.py:5-62 | Missing credentials give the "no credentials" placeholder, and a refused listing gives the "invalid credentials" placeholder. Otherwise a finding is reported exactly when it is a finding of some listed bucket. |
| Scanner.S3Append | backend/app/scanner.py:24-53 | A real scan of no buckets reports nothing, and one more listed bucket appends exactly its own findings at the end, so the result is the buckets' findings in listing order, with each counted once. |
| Scanner.FlattenAppend | backend/app/scanner.py:24-53 | Collecting per-item findings yields nothing for no items, and one more item appends its findings at the end. |
| Scanner.S3Detection | backend/app/scanner.py:25-53 | A real scan reports a bucket name's ACL or policy exactly when some listed bucket of that name has it public. |
| Scanner.PolicyFindings | backend/app/scanner.py:99-108 | A policy yields exactly one finding when a statement allows "*" on "*", and none otherwise. |
| Scanner.FindPermissiveIamRoles | backend/app/scanner.py:64-120 | Missing credentials, or a refused role or policy listing, give the matching placeholder. Otherwise a finding is reported exactly when it is a finding of some listed role. |
| Scanner.IamAppend | backend/app/scanner.py:83-112 | A real scan of no roles reports nothing, and one more listed role appends exactly its own findings at the end, so roles are reported in listing order. |
| Scanner.RoleFindingsAppend | backend/app/scanner.py:89-108 | A role's findings follow its attached policies in order: one more policy appends its finding, if any, at the end. |
| Scanner.IamDetection | backend/app/scanner.py:84-110 | A real scan reports a role and policy pair exactly when that role has that policy attached with an allow-everything statement. |
| Scanner.SuffixCancel | backend/app/scanner.py:105 | The policy name can be read back from the finding's details. |
| Scanner.PortInfoReadable | backend/app/scanner.py:146 | The text is "all ports" exactly for a missing or zero FromPort. Otherwise it is "port " followed by a rendering that reads back as the port. |
| Scanner.OpenFlags | backend/app/scanner.py:142-149 | A rule is flagged exactly when one of its IP ranges has CidrIp equal to "0.0.0.0/0". |
| Scanner.GroupFindings | backend/app/scanner.py:142-152 | A group yields one finding per open rule, however many open ranges the rule has. Each finding names the group. |
| Scanner.GroupFindingsAppend | backend/app/scanner.py:142-152 | A group's findings follow its rules in order. One more rule appends, when it is open to the world, the finding that names the group and that rule's port text. |
| Scanner.FindUnrestrictedSecurityGroups | backend/app/scanner.py:122-160 | Missing credentials or a refused listing give the matching placeholder. Otherwise a finding is reported exactly when it is a finding of some listed group. |
| Scanner.SgAppend | backend/app/scanner.py:139-154 | A real scan of no groups reports nothing, and one more listed group appends exactly its own findings at the end, so groups are reported in listing order. |
| Scanner.SgDetection | backend/app/scanner.py:142-152 | A real scan reports a group id exactly when some listed group with that id has a rule with a range whose CidrIp is 0.0.0.0/0. |
| Scanner.ScanWithCredentials | backend/app/scanner.py:169-174 | The scan is the S3 findings, then the IAM findings, then the security-group findings. |
| Scanner.MissingCredentialsScan | backend/app/scanner.py:162-167 | Without a usable key and secret any account scans like scan_all: three placeholders, one per service. |
| Scanner.RejectedScan | backend/app/scanner.py:54-62 | When every listing is refused, the scan is the three "invalid credentials" placeholders. |
| Scanner.MocksAreLabelled | backend/app/scanner.py:7-14 | Every placeholder is a complete finding marked as mock data, with S3, IAM and security-group types in that order. |
| Scanner.ScanOutputIsRaw | backend/app/scanner.py:162-174 | Every scanner finding has a type, a resource id and details, and carries no annotations. |
| Auth.ParseRole | backend/app/auth.py:16-18 | Parsing succeeds exactly for "admin" and "viewer". |
| Auth.RoleRoundTrip | backend/app/auth.py:16-18 | A role's value parses back to the role, and the two values differ. |
| Auth.AuthenticateUser | backend/app/auth.py:75-84 | Login succeeds exactly for a known user with the matching password. It returns that user's stored role and email. |
| Auth.OnlyMockUsersLogIn | backend/app/auth.py:30-34 | Exactly three username/password pairs log in, and only "admin" is an administrator. |
| Auth.CreateAccessToken | backend/app/auth.py:36-43 | The token names the user and role value, and expires 24 hours after issue. |
| Auth.Decode | backend/app/auth.py:48 | A token is expired exactly when issued with an expiry not after now. It is invalid exactly when not issued by the service. |
| Auth.VerifyToken | backend/app/auth.py:45-60 | Expiry gives 401 "Token expired". A bad token, or a missing sub or role, gives 401 "Invalid token". An unknown role escapes as an error. Otherwise the user is returned without email. |
| Auth.TokenRoundTrip | backend/app/auth.py:36-60 | An issued token verifies to its user for 24 hours and is reported expired from then on. |
| Auth.RequireAdmin | backend/app/auth.py:62-69 | The gate passes exactly administrators, unchanged. Others get 403 with the fixed message. |
| Auth.RequireAuthenticated | backend/app/auth.py:71-73 | Every verified user passes unchanged. |
| Auth.LoginToAdminGate | backend/app/auth.py:62-84 | A user who logged in and presents the token within a day is authenticated. They pass the admin gate exactly when they are "admin". |
| Api.ThresholdUsed | backend/app/main.py:110 | The threshold used is 0.7 exactly when it is missing, 0.0 or 0.7. Any other given value is used as is. |
| Api.StrictnessUsed | backend/app/main.py:111 | The strictness used is "balanced" exactly when it is missing, empty or "balanced". Any other value is used as is. |
| Api.DefaultRequestScan | backend/app/main.py:30-33 | A request body with every field left out runs the placeholder scan (the three "no credentials" findings), filtered at 0.7 under "balanced". |
| Api.RunScan | backend/app/main.py:94-103 | A request with credentials runs the credentialed scan, and one without runs scan_all. Either way the findings are raw. |
| Api.EmptyCredentialsScanLikeNone | backend/app/main.py:76-83 | Credentials with an empty key or secret give the same findings as no credentials. |
| Api.RunScanWithCredentials | backend/app/main.py:70-83 | The result is the dispatched scan: the credentialed scan with the given key and secret when credentials are given, and scan_all otherwise. Findings are raw, and without credentials there are three. |
| Api.Annotate | backend/app/main.py:116-118 | Each returned finding gains `can_remediate` (the caller is an admin) and `scanned_by` (the caller's name). Nothing else changes. |
| Api.AnnotateAll | backend/app/main.py:116-118 | Every finding, in order, keeps all its keys and suggestion fields and gains `can_remediate` (the caller is an admin) and `scanned_by` (the caller's name). |
| Api.ScanWithAiSuggestions | backend/app/main.py:85-141 | A failure is a 500 that records nothing. A success reports its own finding count and the caller. The history gains exactly the scan of the returned findings. |
| Api.SuggestionScanSucceeds | backend/app/main.py:108-112 | Scanner findings always carry the prompt keys, so for every modelled cloud answer the endpoint cannot fail with a missing prompt key. |
| Api.SuggestionScanFindings | backend/app/main.py:108-135 | The response is the kept scanner findings in scan order. Each carries the suggestion text for that finding, the band of its score, its score and the strictness, plus the caller's annotations. The timestamp is always None. |
| Api.SuggestionScanRecordsOnce | backend/app/main.py:121-125 | One ai_powered scan is appended by the caller at now. It lists the returned findings, and its total equals the response's count. |
| Api.ZeroThresholdStillFilters | backend/app/main.py:32 | An explicit 0.0 filters like 0.7 and drops findings below 0.7, where a literal 0.0 would keep everything. |
| Scenarios.ExampleRisks | backend/tests/test_ai_suggestions.py:12-40 | Under "balanced", "Public S3 Bucket" is high risk with score 0.9, and "Some Other Issue" is unclassified with 0.6. |
| Scenarios.EndToEnd | backend/app/ai_suggestions.py:101-131 | At 0.7 only the public bucket is emitted (0.9, high). At 0.3 both are emitted in input order, the other issue with 0.6, medium. |
| Scenarios.FindingsWithoutDetails | backend/tests/test_ai_suggestions.py:132-151 | Without a key, the test's detail-less input gives one finding at 0.8 and two at 0.3. |
| Scenarios.FindingsWithoutDetailsFail | backend/app/ai_suggestions.py:31-33 | With a key, the same input fails with the KeyError text `'details'`. |
| Scenarios.MockDashboard | backend/app/analytics.py:180-207 | Over 30 days at start-up, the dashboard overview shows 15 scans and 8 remediations, 6 of them successful, a rate of 75.0. |
| Scenarios.SuccessPattern | backend/app/analytics.py:204 | When exactly the positions not divisible by 4 succeeded, one record in four, rounded up, failed. |

## Left out

- The AWS SDK calls are not modelled. Their results are the `Listing`, `Bucket`, `Role` and `SecurityGroup` parameters, and the region argument, which only selects an endpoint, is dropped.
- Of the per-bucket exceptions, only the ACL and policy outcomes are modelled: an ACL that cannot be read, and a bucket without a policy. Other SDK errors and malformed documents are not.
- The language-model call, its prompt text and its model parameters are not modelled. The reply is the oracle `ask`, and a failed call is its `Failure` reply.
- JWT signing, the secret and the algorithm are not modelled. A token is either one the service issued, with its claims, or `Forged`, and PyJWT's expiry rule is taken to be "expired when exp <= now".
- FastAPI routing, CORS, logging prints, and the login, me, dashboard and remediation endpoints are left out; only the scan endpoints are modelled. The functions behind the other endpoints are modelled.
- `_get_daily_metrics` (the dashboard's per-day series) is left out because it depends on calendar dates rendered as ISO strings. `Analytics.DashboardMetrics` has no time series.
- Timestamps are integer seconds rather than ISO strings. A timezone or sub-second ordering difference between `isoformat` values is not modelled.
- Analytics.DashboardOverview: the averages are exact quotients; the source's `round(x, 2)` and `round(x, 1)` are not applied.
- Suggestions.ConfidenceScore: scores are exact reals, not IEEE doubles. In Python, 0.7 * 0.8 is 0.5599999999999999, so a lenient medium-risk finding at threshold exactly 0.56 would be dropped; the model keeps it.
- Text.Lower: lower-casing maps ASCII letters only; Python's Unicode case mapping is not modelled.
- Ranking.MostCommon: the order of entries with equal counts is not stated. `Counter.most_common` keeps first-seen order, and the model only proves descending counts.
- Api.SuggestionScanSucceeds: SDK errors other than the `NoCredentialsError` and `ClientError` that the finders catch, such as a `BotoCoreError` from the bucket listing, escape to the endpoint's `except Exception` and become a 500. The model's listings only succeed or are refused, so it does not promise anything about those errors.
- Scanner.PortInfo: the `'all'` default in the port text is dead code, because that branch runs only when FromPort is present and non-zero. The model has no such branch, and a missing FromPort gives "all ports" as in the source.
- The module-level `scan_history` and `remediation_history` lists are threaded through as a `History` value. Concurrent requests are not modelled.
