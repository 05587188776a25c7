/** Concrete scenarios: the worked end-to-end example of the suggestion
    pipeline, the bulk-filtering cases of the test suite, and the dashboard
    over the demonstration history. */
module Scenarios {
  import opened Wrappers
  import opened Text
  import opened Findings
  import opened Suggestions
  import Analytics

  const Bucket := Finding(Some("Public S3 Bucket"), Some("b1"), Some("x"), None, None, None)
  const OtherIssue := Finding(Some("Some Other Issue"), Some("r1"), Some("y"), None, None, None)

  /** The classification of the two example types. */
  lemma ExampleRisks(b: Finding, o: Finding)
    requires b == Bucket && o == OtherIssue
    ensures HighRisk(IssueText(b))
    ensures !HighRisk(IssueText(o)) && !MediumRisk(IssueText(o))
    ensures ConfidenceScore(b, "balanced") == 0.9
    ensures ConfidenceScore(o, "balanced") == 0.6
  {
    BucketText(b);
    OtherText(o);
    UnclassifiedText(IssueText(o));
    BalancedScore(b);
    BalancedScore(o);
  }

  lemma BucketText(b: Finding)
    requires b == Bucket
    ensures HighRisk(IssueText(b))
  {
    assert IssueText(b) == "public s3 bucket";
    ContainsAt(IssueText(b), "public", 0);
  }

  lemma OtherText(o: Finding)
    requires o == OtherIssue
    ensures IssueText(o) == "some other issue"
  {
  }

  lemma UnclassifiedText(t: string)
    requires t == "some other issue"
    ensures !HighRisk(t) && !MediumRisk(t)
  {
    NotHighRisk(t);
    NotMediumRisk(t);
  }

  lemma NotHighRisk(t: string)
    requires t == "some other issue"
    ensures !HighRisk(t)
  {
    assert !Contains(t, "public") by {
      MissingChar(t, "public", 0);
    }
    assert !Contains(t, "unrestricted") by {
      MissingChar(t, "unrestricted", 1);
    }
  }

  lemma NotMediumRisk(t: string)
    requires t == "some other issue"
    ensures !MediumRisk(t)
  {
    assert !Contains(t, "permissive") by {
      MissingChar(t, "permissive", 0);
    }
    assert !Contains(t, "iam") by {
      MissingChar(t, "iam", 1);
    }
  }

  /** get_bulk_suggestions on two findings the enricher accepts. */
  lemma BulkPair(x: Finding, y: Finding, threshold: real, strictness: string,
                 keyConfigured: bool, ask: Finding -> Reply)
    requires RemediationSuggestions(x, keyConfigured, ask).Ok?
    requires RemediationSuggestions(y, keyConfigured, ask).Ok?
    ensures var ex := Enrich(x, strictness, RemediationSuggestions(x, keyConfigured, ask).value);
      var ey := Enrich(y, strictness, RemediationSuggestions(y, keyConfigured, ask).value);
      BulkSuggestions([x, y], threshold, strictness, keyConfigured, ask)
      == Ok(Bulk((if ConfidenceScore(x, strictness) >= threshold then [ex] else [])
                 + (if ConfidenceScore(y, strictness) >= threshold then [ey] else []),
                 (if ConfidenceScore(x, strictness) >= threshold then [x] else [])
                 + (if ConfidenceScore(y, strictness) >= threshold then [y] else [])))
  {
    var sx, sy := ConfidenceScore(x, strictness), ConfidenceScore(y, strictness);
    var ex := Enrich(x, strictness, RemediationSuggestions(x, keyConfigured, ask).value);
    var ey := Enrich(y, strictness, RemediationSuggestions(y, keyConfigured, ask).value);
    assert [x, y][1..] == [y] && [y][1..] == [];
    assert BulkSuggestions([], threshold, strictness, keyConfigured, ask) == Ok(Bulk([], []));
    var ry := BulkSuggestions([y], threshold, strictness, keyConfigured, ask);
    if sy >= threshold {
      assert ry == Ok(Bulk([ey] + [], [y] + []));
      assert [ey] + [] == [ey] && [y] + [] == [y];
    } else {
      assert ry == Ok(Bulk([], []));
    }
    assert ry == Ok(Bulk(if sy >= threshold then [ey] else [], if sy >= threshold then [y] else []));
    if sx >= threshold {
      assert BulkSuggestions([x, y], threshold, strictness, keyConfigured, ask)
          == Ok(Bulk([ex] + ry.value.items, [x] + ry.value.enriched));
    } else {
      assert BulkSuggestions([x, y], threshold, strictness, keyConfigured, ask) == ry;
      assert [] + ry.value.items == ry.value.items && [] + ry.value.enriched == ry.value.enriched;
    }
  }

  /** At threshold 0.7 under "balanced", only the public bucket is emitted,
      scored 0.9 and banded "high"; at 0.3 both are emitted in input order,
      the other issue scored 0.6 and banded "medium". */
  lemma EndToEnd(b: Finding, o: Finding, keyConfigured: bool, ask: Finding -> Reply)
    requires b == Bucket && o == OtherIssue
    ensures var r := BulkSuggestions([b, o], 0.7, "balanced", keyConfigured, ask);
      && r.Ok? && |r.value.items| == 1
      && r.value.items[0].resourceId == Some("b1")
      && r.value.items[0].ai.Some?
      && r.value.items[0].ai.value.confidenceScore == 0.9
      && r.value.items[0].ai.value.confidence == High
    ensures var r := BulkSuggestions([b, o], 0.3, "balanced", keyConfigured, ask);
      && r.Ok? && |r.value.items| == 2
      && r.value.items[0].resourceId == Some("b1")
      && r.value.items[1].resourceId == Some("r1")
      && r.value.items[1].ai.Some?
      && r.value.items[1].ai.value.confidenceScore == 0.6
      && r.value.items[1].ai.value.confidence == Medium
  {
    ExampleRisks(b, o);
    HighThreshold(b, o, ConfidenceScore(b, "balanced"), ConfidenceScore(o, "balanced"), keyConfigured, ask);
    LowThreshold(b, o, ConfidenceScore(b, "balanced"), ConfidenceScore(o, "balanced"), keyConfigured, ask);
  }

  /** Bulk filtering of a pair scored 0.9 and 0.6 at threshold 0.7. */
  lemma HighThreshold(b: Finding, o: Finding, sb: real, so: real, keyConfigured: bool, ask: Finding -> Reply)
    requires b.resourceId == Some("b1")
    requires sb == ConfidenceScore(b, "balanced") == 0.9 && so == ConfidenceScore(o, "balanced") == 0.6
    requires RemediationSuggestions(b, keyConfigured, ask).Ok? && RemediationSuggestions(o, keyConfigured, ask).Ok?
    ensures var r := BulkSuggestions([b, o], 0.7, "balanced", keyConfigured, ask);
      && r.Ok? && |r.value.items| == 1
      && r.value.items[0].resourceId == Some("b1")
      && r.value.items[0].ai.Some?
      && r.value.items[0].ai.value.confidenceScore == 0.9
      && r.value.items[0].ai.value.confidence == High
  {
    RoundKeepsScores(sb);
    BulkPair(b, o, 0.7, "balanced", keyConfigured, ask);
    var eb := Enrich(b, "balanced", RemediationSuggestions(b, keyConfigured, ask).value);
    assert eb.ai.value.confidenceScore == Round2(sb);
    assert eb.ai.value.confidence == Band(sb);
  }

  /** Bulk filtering of a pair scored 0.9 and 0.6 at threshold 0.3. */
  lemma LowThreshold(b: Finding, o: Finding, sb: real, so: real, keyConfigured: bool, ask: Finding -> Reply)
    requires b.resourceId == Some("b1") && o.resourceId == Some("r1")
    requires sb == ConfidenceScore(b, "balanced") == 0.9 && so == ConfidenceScore(o, "balanced") == 0.6
    requires RemediationSuggestions(b, keyConfigured, ask).Ok? && RemediationSuggestions(o, keyConfigured, ask).Ok?
    ensures var r := BulkSuggestions([b, o], 0.3, "balanced", keyConfigured, ask);
      && r.Ok? && |r.value.items| == 2
      && r.value.items[0].resourceId == Some("b1")
      && r.value.items[1].resourceId == Some("r1")
      && r.value.items[1].ai.Some?
      && r.value.items[1].ai.value.confidenceScore == 0.6
      && r.value.items[1].ai.value.confidence == Medium
  {
    RoundKeepsScores(so);
    BulkPair(b, o, 0.3, "balanced", keyConfigured, ask);
    var eb := Enrich(b, "balanced", RemediationSuggestions(b, keyConfigured, ask).value);
    var eo := Enrich(o, "balanced", RemediationSuggestions(o, keyConfigured, ask).value);
    assert eo.ai.value.confidenceScore == Round2(so);
    assert eo.ai.value.confidence == Band(so);
    assert ([eb] + [eo])[0] == eb && ([eb] + [eo])[1] == eo;
  }

  /** The test suite's bulk-filtering input has no `details`. Without an
      API key it is filtered normally: one finding at 0.8, both at 0.3. */
  lemma FindingsWithoutDetails(b: Finding, o: Finding, ask: Finding -> Reply)
    requires b == Bucket.(details := None) && o == OtherIssue.(details := None)
    ensures BulkSuggestions([b, o], 0.8, "balanced", false, ask).Ok?
    ensures |BulkSuggestions([b, o], 0.8, "balanced", false, ask).value.items| == 1
    ensures BulkSuggestions([b, o], 0.3, "balanced", false, ask).Ok?
    ensures |BulkSuggestions([b, o], 0.3, "balanced", false, ask).value.items| == 2
  {
    ExampleRisks(Bucket, OtherIssue);
    assert IssueText(b) == IssueText(Bucket) && IssueText(o) == IssueText(OtherIssue);
    BulkPair(b, o, 0.8, "balanced", false, ask);
    BulkPair(b, o, 0.3, "balanced", false, ask);
  }

  /** With an API key configured the same input cannot be prompted for,
      and the batch fails with the KeyError text. */
  lemma FindingsWithoutDetailsFail(b: Finding, o: Finding, ask: Finding -> Reply)
    requires b == Bucket.(details := None) && o == OtherIssue.(details := None)
    ensures BulkSuggestions([b, o], 0.3, "balanced", true, ask) == Err("'details'")
  {
    ScoreFloor(b, "balanced");
    DetailsMissingFails(b, ask);
    FirstFails(b, [o], 0.3, "balanced", ask);
    assert [b] + [o] == [b, o];
  }

  lemma ScoreFloor(f: Finding, strictness: string)
    ensures ConfidenceScore(f, strictness) >= 0.48
  {
    assert ConfidenceScore(f, strictness) in ScoreDomain;
  }

  /** A finding with a type and a resource id but no details is refused
      with `'details'` once a key is configured. */
  lemma DetailsMissingFails(f: Finding, ask: Finding -> Reply)
    requires f.kind.Some? && f.resourceId.Some? && f.details.None?
    ensures RemediationSuggestions(f, true, ask) == Err("'details'")
  {
    assert MissingPromptKey(f) == Some("details");
    assert KeyErrorText("details") == "'details'";
  }

  /** A batch whose first finding is kept and cannot be prompted for fails
      with that finding's error. */
  lemma FirstFails(f: Finding, rest: seq<Finding>, threshold: real, strictness: string, ask: Finding -> Reply)
    requires ConfidenceScore(f, strictness) >= threshold
    requires RemediationSuggestions(f, true, ask).Err?
    ensures BulkSuggestions([f] + rest, threshold, strictness, true, ask)
         == Err(RemediationSuggestions(f, true, ask).error)
  {
    assert ([f] + rest)[0] == f && ([f] + rest)[1..] == rest;
  }

  /** The dashboard over the demonstration history for the default 30
      days, computed at the instant it was populated: 15 scans, 8
      remediations of which 6 succeeded, a 75% success rate. */
  lemma MockDashboard(now: int)
    ensures var o := Analytics.DashboardOverview(Analytics.MockHistory(now), 30, now);
      && o.totalScans == 15
      && o.totalRemediations == 8
      && o.successfulRemediations == 6
      && o.successRatePercent == 75.0
  {
    var h := Analytics.MockHistory(now);
    MockTimes(h, now);
    WholeWindow(h, 30, now);
    MockOutcomes(h, now);
    SuccessPattern(h.remediations);
    assert (8 + 3) / 4 == 2;
    SixOfEight();
  }

  lemma SixOfEight()
    ensures Analytics.Percent(6, 8) == 75.0
  {
    assert 6 as real / 8 as real == 0.75;
  }

  /** Every demonstration record lies within the last 30 days. */
  lemma MockTimes(h: Analytics.History, now: int)
    requires h == Analytics.MockHistory(now)
    ensures forall k :: 0 <= k < |h.scans| ==> h.scans[k].timestamp > now - 30 * Analytics.SecondsPerDay
    ensures forall k :: 0 <= k < |h.remediations| ==> h.remediations[k].timestamp > now - 30 * Analytics.SecondsPerDay
  {
    forall k | 0 <= k < |h.scans| ensures h.scans[k].timestamp > now - 30 * Analytics.SecondsPerDay {
      assert h.scans[k] == Analytics.MockScan(k, now);
    }
    forall k | 0 <= k < |h.remediations|
      ensures h.remediations[k].timestamp > now - 30 * Analytics.SecondsPerDay
    {
      assert h.remediations[k] == Analytics.MockRemediation(k, now);
    }
  }

  /** Demonstration remediation `k` succeeded exactly when 4 does not divide `k`. */
  lemma MockOutcomes(h: Analytics.History, now: int)
    requires h == Analytics.MockHistory(now)
    ensures forall k :: 0 <= k < |h.remediations| ==> h.remediations[k].success == (k % 4 != 0)
  {
    forall k | 0 <= k < |h.remediations| ensures h.remediations[k].success == (k % 4 != 0) {
      assert h.remediations[k] == Analytics.MockRemediation(k, now);
    }
  }

  /** When every record lies inside the window, the overview counts them all. */
  lemma WholeWindow(h: Analytics.History, days: int, now: int)
    requires forall k :: 0 <= k < |h.scans| ==> h.scans[k].timestamp > now - days * Analytics.SecondsPerDay
    requires forall k :: 0 <= k < |h.remediations| ==> h.remediations[k].timestamp > now - days * Analytics.SecondsPerDay
    ensures var o := Analytics.DashboardOverview(h, days, now);
      && o.totalScans == |h.scans|
      && o.totalRemediations == |h.remediations|
      && o.successfulRemediations == Analytics.CountSuccessful(h.remediations)
      && o.successRatePercent == Analytics.Percent(Analytics.CountSuccessful(h.remediations), |h.remediations|)
  {
    var cutoff := now - days * Analytics.SecondsPerDay;
    AllAfter(h.scans, cutoff);
    AllRemediationsAfter(h.remediations, cutoff);
  }

  lemma {:induction false} AllAfter(scans: seq<Analytics.ScanRecord>, cutoff: int)
    requires forall k :: 0 <= k < |scans| ==> scans[k].timestamp > cutoff
    ensures Analytics.ScansAfter(scans, cutoff) == scans
    decreases |scans|
  {
    if |scans| > 0 {
      AllAfter(scans[1..], cutoff);
    }
  }

  lemma {:induction false} AllRemediationsAfter(rems: seq<Analytics.RemediationRecord>, cutoff: int)
    requires forall k :: 0 <= k < |rems| ==> rems[k].timestamp > cutoff
    ensures Analytics.RemediationsAfter(rems, cutoff) == rems
    decreases |rems|
  {
    if |rems| > 0 {
      AllRemediationsAfter(rems[1..], cutoff);
    }
  }

  /** In a list where exactly the positions not divisible by 4 succeeded,
      one record in four (rounded up) failed. */
  lemma {:induction false} SuccessPattern(rems: seq<Analytics.RemediationRecord>)
    requires forall k :: 0 <= k < |rems| ==> rems[k].success == (k % 4 != 0)
    ensures Analytics.CountSuccessful(rems) == |rems| - (|rems| + 3) / 4
    decreases |rems|
  {
    var n := |rems|;
    if n > 0 {
      SuccessPattern(rems[..n - 1]);
      var q, r := (n - 1) / 4, (n - 1) % 4;
      assert n - 1 == 4 * q + r && 0 <= r < 4;
      assert (n + 3) / 4 == q + 1;
      assert (n + 2) / 4 == (if r == 0 then q else q + 1);
    }
  }
}
