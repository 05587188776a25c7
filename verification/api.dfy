/** The scan endpoints of backend/app/main.py: request defaulting, the
    choice between a credentialed and a placeholder scan, the per-finding
    access annotation and the single analytics record a suggestion scan
    leaves behind. The caller is already authenticated; what the cloud
    account would answer is the `Account` parameter. */
module Api {
  import opened Wrappers
  import opened Findings
  import opened Scanner
  import opened Suggestions
  import opened Auth
  import Analytics

  datatype AwsCredentials = AwsCredentials(accessKeyId: string, secretAccessKey: string, region: Option<string>)

  datatype ScanRequest = ScanRequest(
    credentials: Option<AwsCredentials>,
    threshold: Option<real>,
    strictness: Option<string>)

  /** The request body's defaults when a field is left out. */
  const DefaultRequest := ScanRequest(None, Some(0.7), Some("balanced"))

  /** What the cloud account's listing calls return for the request's
      credentials. */
  datatype Account = Account(buckets: Listing<Bucket>, roles: Listing<Role>, groups: Listing<SecurityGroup>)

  datatype HttpError = HttpError(status: int, detail: string)

  /** `request.ai_confidence_threshold or 0.7`: a missing threshold and an
      explicit 0.0 (falsy) both become 0.7. */
  function ThresholdUsed(t: Option<real>): (r: real)
    ensures r == 0.7 <==> t.None? || t == Some(0.0) || t == Some(0.7)
    ensures t.Some? && t.value != 0.0 ==> r == t.value
  {
    if t.None? || t.value == 0.0 then 0.7 else t.value
  }

  /** `request.strictness_level or "balanced"`: a missing and an empty
      strictness both become "balanced". */
  function StrictnessUsed(s: Option<string>): (r: string)
    ensures r == "balanced" <==> s.None? || s == Some("") || s == Some("balanced")
    ensures s.Some? && s.value != "" ==> r == s.value
  {
    if s.None? || s.value == "" then "balanced" else s.value
  }

  /** A request body with every field left out asks for the placeholder
      scan, filtered at 0.7 under "balanced". */
  lemma DefaultRequestScan(account: Account)
    ensures ThresholdUsed(DefaultRequest.threshold) == 0.7
    ensures StrictnessUsed(DefaultRequest.strictness) == "balanced"
    ensures RunScan(DefaultRequest, account)
         == [S3Mock(NoCredentialsReason), IamMock(NoCredentialsReason), SgMock(NoCredentialsReason)]
  {
    MissingCredentialsScan(NoCredentials, Rejected, Rejected, Rejected);
  }

  /** The scan a request asks for: the credentialed scan when credentials
      are given (even empty ones), the placeholder scan otherwise. */
  function RunScan(req: ScanRequest, account: Account): (r: seq<Finding>)
    ensures req.credentials.None? ==> r == ScanAll()
    ensures req.credentials.Some? ==>
      r == ScanWithCredentials(
             Credentials(Some(req.credentials.value.accessKeyId), Some(req.credentials.value.secretAccessKey)),
             account.buckets, account.roles, account.groups)
    ensures forall f :: f in r ==> IsRaw(f)
  {
    match req.credentials
    case None =>
      ScanOutputIsRaw(NoCredentials, Rejected, Rejected, Rejected);
      ScanAll()
    case Some(c) =>
      var creds := Credentials(Some(c.accessKeyId), Some(c.secretAccessKey));
      ScanOutputIsRaw(creds, account.buckets, account.roles, account.groups);
      ScanWithCredentials(creds, account.buckets, account.roles, account.groups)
  }

  /** Credentials with an empty key or secret give the same findings as
      leaving the credentials out. */
  lemma EmptyCredentialsScanLikeNone(req: ScanRequest, account: Account)
    requires req.credentials.Some?
    requires req.credentials.value.accessKeyId == "" || req.credentials.value.secretAccessKey == ""
    ensures RunScan(req, account) == RunScan(req.(credentials := None), account)
  {
    var c := req.credentials.value;
    MissingCredentialsScan(Credentials(Some(c.accessKeyId), Some(c.secretAccessKey)),
                           account.buckets, account.roles, account.groups);
  }

  /** run_scan_with_credentials */
  function RunScanWithCredentials(req: ScanRequest, user: User, account: Account): (r: seq<Finding>)
    ensures r == RunScan(req, account)
    ensures forall f :: f in r ==> IsRaw(f)
    ensures req.credentials.None? ==> |r| == 3
  {
    MissingCredentialsScan(NoCredentials, Rejected, Rejected, Rejected);
    RunScan(req, account)
  }

  /** The two keys the endpoint adds to each finding it returns. */
  function Annotate(f: Finding, user: User): (g: Finding)
    ensures SameDescription(g, f) && g.ai == f.ai
    ensures g.access == Some(AccessFields(user.role == Admin, user.username))
  {
    f.(access := Some(AccessFields(user.role == Admin, user.username)))
  }

  /** Every finding of the response, in order, keeps all its keys and
      gains the caller's rights and name. */
  function AnnotateAll(fs: seq<Finding>, user: User): (r: seq<Finding>)
    ensures |r| == |fs|
    ensures forall i :: 0 <= i < |fs| ==> r[i] == Annotate(fs[i], user)
    ensures forall i :: 0 <= i < |fs| ==>
      && SameDescription(r[i], fs[i]) && r[i].ai == fs[i].ai
      && r[i].access == Some(AccessFields(user.role == Admin, user.username))
  {
    seq(|fs|, i requires 0 <= i < |fs| => Annotate(fs[i], user))
  }

  datatype ScanResponse = ScanResponse(
    findings: seq<Finding>,
    totalFindings: nat,
    scannedBy: string,
    scanType: string,
    timestamp: Option<string>)

  /** The endpoint's answer together with the analytics history after it. */
  datatype Handled = Handled(response: Result<ScanResponse, HttpError>, history: Analytics.History)

  /** scan_with_ai_suggestions. Any exception (a missing prompt key) becomes
      a 500 whose detail is the exception text, and nothing is recorded. */
  function ScanWithAiSuggestions(req: ScanRequest, user: User, account: Account,
                                 keyConfigured: bool, ask: Finding -> Reply,
                                 h: Analytics.History, now: int): (r: Handled)
    ensures r.response.Err? ==> r.history == h && r.response.error.status == 500
    ensures r.response.Ok? ==>
      var resp := r.response.value;
      && resp.totalFindings == |resp.findings|
      && resp.scannedBy == user.username && resp.scanType == "ai_powered"
      && r.history == Analytics.RecordScan(h, user.username, resp.findings, "ai_powered", now).history
  {
    var raw := RunScan(req, account);
    match BulkSuggestions(raw, ThresholdUsed(req.threshold), StrictnessUsed(req.strictness), keyConfigured, ask)
    case Err(e) => Handled(Err(HttpError(500, e)), h)
    case Ok(bulk) =>
      var findings := AnnotateAll(bulk.items, user);
      var recorded := Analytics.RecordScan(h, user.username, findings, "ai_powered", now);
      Handled(
        Ok(ScanResponse(findings, |findings|, user.username, "ai_powered",
                        if |raw| == 0 then None else raw[0].timestamp)),
        recorded.history)
  }

  /** Scanner findings always carry the keys the prompt reads, so the
      suggestion scan cannot fail with a missing prompt key. */
  lemma SuggestionScanSucceeds(req: ScanRequest, user: User, account: Account,
                               keyConfigured: bool, ask: Finding -> Reply,
                               h: Analytics.History, now: int)
    ensures ScanWithAiSuggestions(req, user, account, keyConfigured, ask, h, now).response.Ok?
  {
    var raw := RunScan(req, account);
    var threshold, strictness := ThresholdUsed(req.threshold), StrictnessUsed(req.strictness);
    BulkFailsIff(raw, threshold, strictness, keyConfigured, ask);
    forall g | g in Kept(raw, threshold, strictness) ensures MissingPromptKey(g).None? {
      assert IsRaw(g);
    }
  }

  /** Each returned finding is a kept scanner finding with its suggestion
      keys, annotated with the caller's rights and name; the list is the
      kept findings in scan order; the response timestamp is always None,
      because scanner findings have no `timestamp` key. */
  lemma SuggestionScanFindings(req: ScanRequest, user: User, account: Account,
                               keyConfigured: bool, ask: Finding -> Reply,
                               h: Analytics.History, now: int)
    ensures var r := ScanWithAiSuggestions(req, user, account, keyConfigured, ask, h, now);
      var raw := RunScan(req, account);
      var strictness := StrictnessUsed(req.strictness);
      var kept := Kept(raw, ThresholdUsed(req.threshold), strictness);
      && r.response.Ok?
      && |r.response.value.findings| == |kept|
      && r.response.value.timestamp.None?
      && forall i :: 0 <= i < |kept| ==>
           var out := r.response.value.findings[i];
           && SameDescription(out, kept[i])
           && out.access == Some(AccessFields(user.role == Admin, user.username))
           && out.ai.Some? && out.ai.value.strictness == strictness
           && out.ai.value.confidenceScore == ConfidenceScore(kept[i], strictness)
           && out.ai.value.confidence == Band(ConfidenceScore(kept[i], strictness))
           && RemediationSuggestions(kept[i], keyConfigured, ask).Ok?
           && out.ai.value.suggestion == RemediationSuggestions(kept[i], keyConfigured, ask).value.suggestion
  {
    SuggestionScanSucceeds(req, user, account, keyConfigured, ask, h, now);
    var raw := RunScan(req, account);
    var threshold, strictness := ThresholdUsed(req.threshold), StrictnessUsed(req.strictness);
    var bulk := BulkSuggestions(raw, threshold, strictness, keyConfigured, ask);
    BulkItemsEnriched(raw, threshold, strictness, keyConfigured, ask);
    AnnotatedItems(bulk.value.items, bulk.value.enriched, user, strictness, keyConfigured, ask);
    if |raw| > 0 {
      assert raw[0] in raw;
    }
  }

  /** Annotating enriched items keeps what enrichment promised. */
  lemma AnnotatedItems(items: seq<Finding>, kept: seq<Finding>, user: User, strictness: string,
                       keyConfigured: bool, ask: Finding -> Reply)
    requires AllEnrichedFrom(items, kept, strictness, keyConfigured, ask)
    ensures var out := AnnotateAll(items, user);
      && |out| == |kept|
      && forall i :: 0 <= i < |kept| ==>
           && SameDescription(out[i], kept[i])
           && out[i].access == Some(AccessFields(user.role == Admin, user.username))
           && out[i].ai.Some? && out[i].ai.value.strictness == strictness
           && out[i].ai.value.confidenceScore == ConfidenceScore(kept[i], strictness)
           && out[i].ai.value.confidence == Band(ConfidenceScore(kept[i], strictness))
           && RemediationSuggestions(kept[i], keyConfigured, ask).Ok?
           && out[i].ai.value.suggestion == RemediationSuggestions(kept[i], keyConfigured, ask).value.suggestion
  {
    var out := AnnotateAll(items, user);
    forall i | 0 <= i < |kept|
      ensures EnrichedFrom(items[i], kept[i], strictness, keyConfigured, ask)
    {
    }
  }

  /** The suggestion scan appends exactly one scan record: at `now`, by the
      caller, of type "ai_powered", listing the returned findings, so its
      issue total equals the response's finding count. */
  lemma SuggestionScanRecordsOnce(req: ScanRequest, user: User, account: Account,
                                  keyConfigured: bool, ask: Finding -> Reply,
                                  h: Analytics.History, now: int)
    requires Analytics.WellNumbered(h)
    ensures var r := ScanWithAiSuggestions(req, user, account, keyConfigured, ask, h, now);
      && r.response.Ok?
      && |r.history.scans| == |h.scans| + 1
      && r.history.scans[..|h.scans|] == h.scans
      && r.history.remediations == h.remediations
      && Analytics.WellNumbered(r.history)
      && var s := r.history.scans[|h.scans|];
         && s.id == |h.scans| + 1 && s.timestamp == now && s.user == user.username
         && s.scanType == "ai_powered"
         && s.findings == r.response.value.findings
         && s.totalIssues == r.response.value.totalFindings
  {
    SuggestionScanSucceeds(req, user, account, keyConfigured, ask, h, now);
    var r := ScanWithAiSuggestions(req, user, account, keyConfigured, ask, h, now);
    Analytics.RecordingKeepsNumbering(h, user.username, r.response.value.findings, "ai_powered", "", "", true, now);
  }

  /** Although the request documents 0.0 as "show all", an explicit 0.0 is
      replaced by 0.7, so every finding scoring below 0.7 is still dropped;
      a threshold of 0.0 taken literally would keep every finding. */
  lemma ZeroThresholdStillFilters(fs: seq<Finding>, strictness: string)
    ensures Kept(fs, ThresholdUsed(Some(0.0)), strictness) == Kept(fs, 0.7, strictness)
    ensures forall g :: g in fs && ConfidenceScore(g, strictness) < 0.7 ==>
      g !in Kept(fs, ThresholdUsed(Some(0.0)), strictness)
    ensures Kept(fs, 0.0, strictness) == fs
  {
    KeptExtremes(fs, 0.0, strictness);
  }
}
