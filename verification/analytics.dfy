/** Scan and remediation history and the dashboard computed from it
    (backend/app/analytics.py). The two process-wide lists are one
    `History` value passed in and returned; timestamps are whole seconds
    and the current time `now` is a parameter. */
module Analytics {
  import opened Wrappers
  import opened Text
  import opened Sequences
  import opened Ranking
  import Findings

  const SecondsPerDay: int := 86400
  const SecondsPerHour: int := 3600

  datatype Service = S3 | IAM | EC2 | Other
  datatype Severity = High | Medium | Low

  /** `issue.get("type", "")` */
  function TypeOrEmpty(f: Findings.Finding): string {
    f.kind.GetOr("")
  }

  /** AWS service of a finding: case-sensitive, first match wins. */
  function ServiceOf(f: Findings.Finding): Service {
    var t := TypeOrEmpty(f);
    if Contains(t, "S3") then S3
    else if Contains(t, "IAM") then IAM
    else if Contains(t, "Security Group") then EC2
    else Other
  }

  /** Severity of a finding: case-sensitive, first match wins. */
  function SeverityOf(f: Findings.Finding): Severity {
    var t := TypeOrEmpty(f);
    if Contains(t, "Public") || Contains(t, "Unrestricted") then High
    else if Contains(t, "IAM") || Contains(t, "Permissive") then Medium
    else Low
  }

  function ServicesOf(fs: seq<Findings.Finding>): (r: seq<Service>)
    ensures |r| == |fs|
    ensures forall i :: 0 <= i < |fs| ==> r[i] == ServiceOf(fs[i])
  {
    seq(|fs|, i requires 0 <= i < |fs| => ServiceOf(fs[i]))
  }

  function SeveritiesOf(fs: seq<Findings.Finding>): (r: seq<Severity>)
    ensures |r| == |fs|
    ensures forall i :: 0 <= i < |fs| ==> r[i] == SeverityOf(fs[i])
  {
    seq(|fs|, i requires 0 <= i < |fs| => SeverityOf(fs[i]))
  }

  /** `m.get(k, 0)` */
  function Get<K>(m: map<K, nat>, k: K): nat {
    if k in m then m[k] else 0
  }

  /** A `defaultdict(int)` incremented once per element, in order. */
  function Tally<K(!new)>(ks: seq<K>): (m: map<K, nat>)
    ensures forall k :: k in m <==> k in ks
    ensures forall k :: k in m ==> m[k] == Count(ks, k)
  {
    if |ks| == 0 then map[]
    else
      var m := Tally(ks[..|ks| - 1]);
      var k := ks[|ks| - 1];
      m[k := Get(m, k) + 1]
  }

  function ServiceTotal(m: map<Service, nat>): nat {
    Get(m, S3) + Get(m, IAM) + Get(m, EC2) + Get(m, Other)
  }

  function SeverityTotal(m: map<Severity, nat>): nat {
    Get(m, High) + Get(m, Medium) + Get(m, Low)
  }

  lemma {:induction false} ServiceCountsCover(ks: seq<Service>)
    ensures Count(ks, S3) + Count(ks, IAM) + Count(ks, EC2) + Count(ks, Other) == |ks|
  {
    if |ks| > 0 {
      var init := ks[..|ks| - 1];
      ServiceCountsCover(init);
      assert Count(ks, S3) == Count(init, S3) + (if ks[|ks| - 1] == S3 then 1 else 0);
      assert Count(ks, IAM) == Count(init, IAM) + (if ks[|ks| - 1] == IAM then 1 else 0);
      assert Count(ks, EC2) == Count(init, EC2) + (if ks[|ks| - 1] == EC2 then 1 else 0);
      assert Count(ks, Other) == Count(init, Other) + (if ks[|ks| - 1] == Other then 1 else 0);
    }
  }

  lemma {:induction false} SeverityCountsCover(ks: seq<Severity>)
    ensures Count(ks, High) + Count(ks, Medium) + Count(ks, Low) == |ks|
  {
    if |ks| > 0 {
      var init := ks[..|ks| - 1];
      SeverityCountsCover(init);
      assert Count(ks, High) == Count(init, High) + (if ks[|ks| - 1] == High then 1 else 0);
      assert Count(ks, Medium) == Count(init, Medium) + (if ks[|ks| - 1] == Medium then 1 else 0);
      assert Count(ks, Low) == Count(init, Low) + (if ks[|ks| - 1] == Low then 1 else 0);
    }
  }

  /** _categorize_by_service: each finding is counted once, under the
      first service its type names; only services that occur are keys. */
  function CategorizeByService(fs: seq<Findings.Finding>): (m: map<Service, nat>)
    ensures forall s :: s in m ==> m[s] > 0
    ensures forall s :: s in m <==> exists i :: 0 <= i < |fs| && ServiceOf(fs[i]) == s
    ensures forall s :: Get(m, s) == Count(ServicesOf(fs), s)
    ensures ServiceTotal(m) == |fs|
  {
    var ks := ServicesOf(fs);
    ServiceCountsCover(ks);
    assert forall s :: s in ks <==> exists i :: 0 <= i < |fs| && ServiceOf(fs[i]) == s by {
      forall s ensures s in ks <==> exists i :: 0 <= i < |fs| && ServiceOf(fs[i]) == s {
        if s in ks {
          var i :| 0 <= i < |ks| && ks[i] == s;
        }
      }
    }
    Tally(ks)
  }

  /** _categorize_by_severity: each finding is counted once, under the
      first severity its type matches; only severities that occur are keys. */
  function CategorizeBySeverity(fs: seq<Findings.Finding>): (m: map<Severity, nat>)
    ensures forall s :: s in m ==> m[s] > 0
    ensures forall s :: s in m <==> exists i :: 0 <= i < |fs| && SeverityOf(fs[i]) == s
    ensures forall s :: Get(m, s) == Count(SeveritiesOf(fs), s)
    ensures SeverityTotal(m) == |fs|
  {
    var ks := SeveritiesOf(fs);
    SeverityCountsCover(ks);
    assert forall s :: s in ks <==> exists i :: 0 <= i < |fs| && SeverityOf(fs[i]) == s by {
      forall s ensures s in ks <==> exists i :: 0 <= i < |fs| && SeverityOf(fs[i]) == s {
        if s in ks {
          var i :| 0 <= i < |ks| && ks[i] == s;
        }
      }
    }
    Tally(ks)
  }

  datatype ScanRecord = ScanRecord(
    id: nat,
    timestamp: int,
    user: string,
    scanType: string,
    totalIssues: nat,
    issuesByService: map<Service, nat>,
    issuesBySeverity: map<Severity, nat>,
    durationMs: nat,
    findings: seq<Findings.Finding>)

  datatype RemediationRecord = RemediationRecord(
    id: nat,
    timestamp: int,
    user: string,
    issueId: string,
    action: string,
    success: bool,
    hours: real)

  datatype History = History(scans: seq<ScanRecord>, remediations: seq<RemediationRecord>)

  /** Every record's id is its position in its list plus one. */
  predicate WellNumbered(h: History) {
    && (forall k :: 0 <= k < |h.scans| ==> h.scans[k].id == k + 1)
    && (forall k :: 0 <= k < |h.remediations| ==> h.remediations[k].id == k + 1)
  }

  /** A history together with the id `record_*` returned. */
  datatype Recorded = Recorded(history: History, id: nat)

  /** record_scan */
  function RecordScan(h: History, user: string, findings: seq<Findings.Finding>, scanType: string, now: int)
    : (r: Recorded)
    ensures r.history.remediations == h.remediations
    ensures |r.history.scans| == |h.scans| + 1
    ensures r.history.scans[..|h.scans|] == h.scans
    ensures var s := r.history.scans[|h.scans|];
      && s.id == r.id == |h.scans| + 1
      && s.timestamp == now && s.user == user && s.scanType == scanType
      && s.findings == findings
      && s.totalIssues == |findings|
      && s.issuesByService == CategorizeByService(findings)
      && s.issuesBySeverity == CategorizeBySeverity(findings)
      && ServiceTotal(s.issuesByService) == |findings|
      && SeverityTotal(s.issuesBySeverity) == |findings|
      && s.durationMs == 1500
  {
    var record := ScanRecord(
      |h.scans| + 1, now, user, scanType, |findings|,
      CategorizeByService(findings), CategorizeBySeverity(findings), 1500, findings);
    assert (h.scans + [record])[..|h.scans|] == h.scans;
    Recorded(h.(scans := h.scans + [record]), record.id)
  }

  /** record_remediation */
  function RecordRemediation(h: History, user: string, issueId: string, action: string, success: bool, now: int)
    : (r: Recorded)
    ensures r.history.scans == h.scans
    ensures |r.history.remediations| == |h.remediations| + 1
    ensures r.history.remediations[..|h.remediations|] == h.remediations
    ensures var m := r.history.remediations[|h.remediations|];
      && m.id == r.id == |h.remediations| + 1
      && m.timestamp == now && m.user == user && m.issueId == issueId
      && m.action == action && m.success == success
      && m.hours == 0.5
  {
    var record := RemediationRecord(|h.remediations| + 1, now, user, issueId, action, success, 0.5);
    assert (h.remediations + [record])[..|h.remediations|] == h.remediations;
    Recorded(h.(remediations := h.remediations + [record]), record.id)
  }

  /** Recording keeps ids equal to positions. */
  lemma RecordingKeepsNumbering(h: History, user: string, findings: seq<Findings.Finding>, scanType: string,
                                issueId: string, action: string, success: bool, now: int)
    requires WellNumbered(h)
    ensures WellNumbered(RecordScan(h, user, findings, scanType, now).history)
    ensures WellNumbered(RecordRemediation(h, user, issueId, action, success, now).history)
  {
    ScanRecordingKeepsNumbering(h, user, findings, scanType, now);
    RemediationRecordingKeepsNumbering(h, user, issueId, action, success, now);
  }

  lemma ScanRecordingKeepsNumbering(h: History, user: string, findings: seq<Findings.Finding>, scanType: string, now: int)
    requires WellNumbered(h)
    ensures WellNumbered(RecordScan(h, user, findings, scanType, now).history)
  {
    var hs := RecordScan(h, user, findings, scanType, now).history;
    ScanIdsExtend(h.scans, hs.scans);
  }

  lemma RemediationRecordingKeepsNumbering(h: History, user: string, issueId: string, action: string,
                                           success: bool, now: int)
    requires WellNumbered(h)
    ensures WellNumbered(RecordRemediation(h, user, issueId, action, success, now).history)
  {
    var hr := RecordRemediation(h, user, issueId, action, success, now).history;
    RemediationIdsExtend(h.remediations, hr.remediations);
  }

  lemma ScanIdsExtend(scans: seq<ScanRecord>, scans': seq<ScanRecord>)
    requires forall k :: 0 <= k < |scans| ==> scans[k].id == k + 1
    requires |scans'| == |scans| + 1 && scans'[..|scans|] == scans && scans'[|scans|].id == |scans| + 1
    ensures forall k :: 0 <= k < |scans'| ==> scans'[k].id == k + 1
  {
    forall k | 0 <= k < |scans'| ensures scans'[k].id == k + 1 {
      if k < |scans| {
        assert scans'[k] == scans'[..|scans|][k];
      }
    }
  }

  lemma RemediationIdsExtend(rems: seq<RemediationRecord>, rems': seq<RemediationRecord>)
    requires forall k :: 0 <= k < |rems| ==> rems[k].id == k + 1
    requires |rems'| == |rems| + 1 && rems'[..|rems|] == rems && rems'[|rems|].id == |rems| + 1
    ensures forall k :: 0 <= k < |rems'| ==> rems'[k].id == k + 1
  {
    forall k | 0 <= k < |rems'| ensures rems'[k].id == k + 1 {
      if k < |rems| {
        assert rems'[k] == rems'[..|rems|][k];
      }
    }
  }

  /** The three findings every demonstration scan carries. */
  function MockMisconfigs(): seq<Findings.Finding> {
    [ Findings.Raw("Public S3 Bucket", "bucket-1", "Publicly accessible"),
      Findings.Raw("Overly Permissive IAM Role", "role-1", "Admin access"),
      Findings.Raw("Unrestricted Security Group", "sg-1", "0.0.0.0/0 access") ]
  }

  /** The i-th demonstration scan, taken i days before `now`. */
  function MockScan(i: nat, now: int): ScanRecord {
    ScanRecord(
      i + 1,
      now - i * SecondsPerDay,
      if i % 3 == 0 then "admin" else "security_analyst",
      if i % 4 == 0 then "automated" else "manual",
      |MockMisconfigs()| + i % 3,
      map[S3 := 1, IAM := 1, EC2 := 1 + i % 2],
      map[High := 1 + i % 2, Medium := 1, Low := i % 3],
      1200 + i * 100,
      MockMisconfigs())
  }

  /** The i-th demonstration remediation, taken i days and 2i hours before `now`. */
  function MockRemediation(i: nat, now: int): RemediationRecord {
    RemediationRecord(
      i + 1,
      now - (i * SecondsPerDay + 2 * i * SecondsPerHour),
      "admin",
      "issue-" + NatToDecimal(i + 1),
      "remediated",
      i % 4 != 0,
      0.5 + i as real * 0.3)
  }

  function MockScans(n: nat, now: int): (r: seq<ScanRecord>)
    ensures |r| == n
    ensures forall k :: 0 <= k < n ==> r[k] == MockScan(k, now)
  {
    if n == 0 then [] else MockScans(n - 1, now) + [MockScan(n - 1, now)]
  }

  function MockRemediations(n: nat, now: int): (r: seq<RemediationRecord>)
    ensures |r| == n
    ensures forall k :: 0 <= k < n ==> r[k] == MockRemediation(k, now)
  {
    if n == 0 then [] else MockRemediations(n - 1, now) + [MockRemediation(n - 1, now)]
  }

  /** populate_mock_analytics, applied to the empty history at start-up. */
  function MockHistory(now: int): (h: History)
    ensures |h.scans| == 15 && |h.remediations| == 8
    ensures WellNumbered(h)
    ensures forall k :: 0 <= k < |h.scans| ==> h.scans[k].timestamp <= now
    ensures forall k :: 0 <= k < |h.remediations| ==> h.remediations[k].timestamp <= now
  {
    History(MockScans(15, now), MockRemediations(8, now))
  }

  /** Unlike recorded scans, the demonstration scans do not all satisfy
      `total_issues == len(findings)`, and some list a severity with count 0. */
  lemma MockScansDiffer(now: int)
    ensures MockScan(1, now).totalIssues != |MockScan(1, now).findings|
    ensures Low in MockScan(0, now).issuesBySeverity && MockScan(0, now).issuesBySeverity[Low] == 0
  {
  }

  /** Scans strictly after the cutoff, in history order. */
  function ScansAfter(scans: seq<ScanRecord>, cutoff: int): (r: seq<ScanRecord>)
    ensures |r| <= |scans|
    ensures forall s :: s in r <==> s in scans && s.timestamp > cutoff
    ensures Subsequence(r, scans)
  {
    if |scans| == 0 then []
    else
      var rest := ScansAfter(scans[1..], cutoff);
      assert forall s :: s in scans <==> s == scans[0] || s in scans[1..];
      if scans[0].timestamp > cutoff then
        assert ([scans[0]] + rest)[1..] == rest;
        [scans[0]] + rest
      else
        assert Subsequence(rest, scans[1..]);
        rest
  }

  /** Remediations strictly after the cutoff, in history order. */
  function RemediationsAfter(rems: seq<RemediationRecord>, cutoff: int): (r: seq<RemediationRecord>)
    ensures |r| <= |rems|
    ensures forall m :: m in r <==> m in rems && m.timestamp > cutoff
    ensures Subsequence(r, rems)
  {
    if |rems| == 0 then []
    else
      var rest := RemediationsAfter(rems[1..], cutoff);
      assert forall m :: m in rems <==> m == rems[0] || m in rems[1..];
      if rems[0].timestamp > cutoff then
        assert ([rems[0]] + rest)[1..] == rest;
        [rems[0]] + rest
      else
        assert Subsequence(rest, rems[1..]);
        rest
  }

  lemma {:induction false} ScansAfterAppend(a: seq<ScanRecord>, b: seq<ScanRecord>, cutoff: int)
    ensures ScansAfter(a + b, cutoff) == ScansAfter(a, cutoff) + ScansAfter(b, cutoff)
    decreases |a|
  {
    if |a| == 0 {
      assert a + b == b;
    } else {
      assert (a + b)[1..] == a[1..] + b;
      ScansAfterAppend(a[1..], b, cutoff);
    }
  }

  lemma {:induction false} RemediationsAfterAppend(a: seq<RemediationRecord>, b: seq<RemediationRecord>, cutoff: int)
    ensures RemediationsAfter(a + b, cutoff) == RemediationsAfter(a, cutoff) + RemediationsAfter(b, cutoff)
    decreases |a|
  {
    if |a| == 0 {
      assert a + b == b;
    } else {
      assert (a + b)[1..] == a[1..] + b;
      RemediationsAfterAppend(a[1..], b, cutoff);
    }
  }

  function SumIssues(scans: seq<ScanRecord>): nat {
    if |scans| == 0 then 0 else SumIssues(scans[..|scans| - 1]) + scans[|scans| - 1].totalIssues
  }

  function SumHours(rems: seq<RemediationRecord>): real {
    if |rems| == 0 then 0.0 else SumHours(rems[..|rems| - 1]) + rems[|rems| - 1].hours
  }

  /** The `success` flag of each remediation, in order. */
  function SuccessFlags(rems: seq<RemediationRecord>): (r: seq<bool>)
    ensures |r| == |rems|
    ensures forall i :: 0 <= i < |rems| ==> r[i] == rems[i].success
  {
    seq(|rems|, i requires 0 <= i < |rems| => rems[i].success)
  }

  /** `len([r for r in recent_remediations if r["success"]])`: the number of
      true `success` flags. */
  function CountSuccessful(rems: seq<RemediationRecord>): (n: nat)
    ensures n == Count(SuccessFlags(rems), true)
    ensures n <= |rems|
  {
    if |rems| == 0 then 0
    else
      var init := rems[..|rems| - 1];
      assert SuccessFlags(rems)[..|rems| - 1] == SuccessFlags(init);
      CountSuccessful(init) + (if rems[|rems| - 1].success then 1 else 0)
  }

  /** No successes exactly when no remediation succeeded, and as many
      successes as remediations exactly when every one did. */
  lemma {:induction false} SuccessExtremes(rems: seq<RemediationRecord>)
    ensures CountSuccessful(rems) == 0 <==> forall i :: 0 <= i < |rems| ==> !rems[i].success
    ensures CountSuccessful(rems) == |rems| <==> forall i :: 0 <= i < |rems| ==> rems[i].success
    decreases |rems|
  {
    if |rems| > 0 {
      var init := rems[..|rems| - 1];
      SuccessExtremes(init);
      assert forall i :: 0 <= i < |init| ==> init[i] == rems[i];
    }
  }

  /** Successes of a concatenation add up. */
  lemma {:induction false} CountSuccessfulAppend(a: seq<RemediationRecord>, b: seq<RemediationRecord>)
    ensures CountSuccessful(a + b) == CountSuccessful(a) + CountSuccessful(b)
    decreases |b|
  {
    if |b| == 0 {
      assert a + b == a;
    } else {
      assert (a + b)[..|a + b| - 1] == a + b[..|b| - 1];
      CountSuccessfulAppend(a, b[..|b| - 1]);
    }
  }

  datatype ServiceMetric = ServiceMetric(issues: nat, scans: nat)

  /** One scan's contribution to the service breakdown: every service key
      of the scan gains its count of issues and one scan. */
  function AddServices(acc: map<Service, ServiceMetric>, counts: map<Service, nat>): map<Service, ServiceMetric> {
    map s | s in acc.Keys + counts.Keys ::
      var before := if s in acc then acc[s] else ServiceMetric(0, 0);
      if s in counts then ServiceMetric(before.issues + counts[s], before.scans + 1) else before
  }

  /** The service loop of get_dashboard_metrics. */
  function ServiceBreakdown(scans: seq<ScanRecord>): map<Service, ServiceMetric> {
    if |scans| == 0 then map[]
    else AddServices(ServiceBreakdown(scans[..|scans| - 1]), scans[|scans| - 1].issuesByService)
  }

  /** Number of scans whose issues_by_service has the key `s`. */
  function ScansMentioning(scans: seq<ScanRecord>, s: Service): nat {
    if |scans| == 0 then 0
    else ScansMentioning(scans[..|scans| - 1], s) + (if s in scans[|scans| - 1].issuesByService then 1 else 0)
  }

  /** Sum over the scans of their issue count for `s` (0 where absent). */
  function IssuesFor(scans: seq<ScanRecord>, s: Service): nat {
    if |scans| == 0 then 0
    else IssuesFor(scans[..|scans| - 1], s) + Get(scans[|scans| - 1].issuesByService, s)
  }

  /** Per service: the number of scans that list it and the sum of their
      counts; a service is a key exactly when some scan lists it. */
  lemma {:induction false} ServiceBreakdownCounts(scans: seq<ScanRecord>, s: Service)
    ensures s in ServiceBreakdown(scans) <==> ScansMentioning(scans, s) > 0
    ensures s in ServiceBreakdown(scans) ==>
              ServiceBreakdown(scans)[s] == ServiceMetric(IssuesFor(scans, s), ScansMentioning(scans, s))
    decreases |scans|
  {
    if |scans| > 0 {
      ServiceBreakdownCounts(scans[..|scans| - 1], s);
      if s !in ServiceBreakdown(scans[..|scans| - 1]) {
        assert IssuesFor(scans[..|scans| - 1], s) == 0 by {
          NoMentionNoIssues(scans[..|scans| - 1], s);
        }
      }
    }
  }

  lemma {:induction false} NoMentionNoIssues(scans: seq<ScanRecord>, s: Service)
    requires ScansMentioning(scans, s) == 0
    ensures IssuesFor(scans, s) == 0
    decreases |scans|
  {
    if |scans| > 0 {
      NoMentionNoIssues(scans[..|scans| - 1], s);
    }
  }

  /** One scan's contribution to the severity breakdown. */
  function AddSeverities(acc: map<Severity, nat>, counts: map<Severity, nat>): map<Severity, nat> {
    map s | s in acc.Keys + counts.Keys :: Get(acc, s) + Get(counts, s)
  }

  /** The severity loop of get_dashboard_metrics. */
  function SeverityBreakdown(scans: seq<ScanRecord>): map<Severity, nat> {
    if |scans| == 0 then map[]
    else AddSeverities(SeverityBreakdown(scans[..|scans| - 1]), scans[|scans| - 1].issuesBySeverity)
  }

  /** Sum over the scans of their count for severity `s` (0 where absent). */
  function IssuesAt(scans: seq<ScanRecord>, s: Severity): nat {
    if |scans| == 0 then 0
    else IssuesAt(scans[..|scans| - 1], s) + Get(scans[|scans| - 1].issuesBySeverity, s)
  }

  /** Per severity, the total is the sum of the per-scan counts; a severity
      is a key exactly when some scan lists it (possibly with count 0). */
  lemma {:induction false} SeverityBreakdownSums(scans: seq<ScanRecord>, s: Severity)
    ensures Get(SeverityBreakdown(scans), s) == IssuesAt(scans, s)
    ensures s in SeverityBreakdown(scans) <==> exists i :: 0 <= i < |scans| && s in scans[i].issuesBySeverity
    decreases |scans|
  {
    if |scans| > 0 {
      var init := scans[..|scans| - 1];
      SeverityBreakdownSums(init, s);
      assert forall i :: 0 <= i < |init| ==> init[i] == scans[i];
      if s in SeverityBreakdown(scans) && s !in scans[|scans| - 1].issuesBySeverity {
        var i :| 0 <= i < |init| && s in init[i].issuesBySeverity;
        assert s in scans[i].issuesBySeverity;
      }
    }
  }

  /** `list[-10:]` */
  function LastTen<T>(s: seq<T>): (r: seq<T>)
    ensures |r| == Min(10, |s|)
    ensures r == s[|s| - |r|..]
  {
    if |s| <= 10 then s else s[|s| - 10..]
  }

  /** Issue types of all findings of the scans, a missing type as "Unknown". */
  function IssueTypes(scans: seq<ScanRecord>): seq<string> {
    if |scans| == 0 then []
    else IssueTypes(scans[..|scans| - 1]) + KindsOf(scans[|scans| - 1].findings)
  }

  function KindsOf(fs: seq<Findings.Finding>): (r: seq<string>)
    ensures |r| == |fs|
    ensures forall i :: 0 <= i < |fs| ==> r[i] == fs[i].kind.GetOr("Unknown")
  {
    seq(|fs|, i requires 0 <= i < |fs| => fs[i].kind.GetOr("Unknown"))
  }

  /** _get_top_issues */
  function TopIssues(scans: seq<ScanRecord>): seq<Entry> {
    MostCommon(IssueTypes(scans), 10)
  }

  /** At most ten distinct issue types, most frequent first, each with the
      number of findings of that type in the scans (a missing type counted
      as "Unknown"); a type left out occurs no more often than any listed
      one, and then all ten places are taken. */
  lemma TopIssuesRanked(scans: seq<ScanRecord>, t: string)
    ensures var r := TopIssues(scans);
      && |r| <= 10
      && (forall i :: 0 <= i < |r| ==> r[i].key in IssueTypes(scans)
                                       && r[i].count == Count(IssueTypes(scans), r[i].key))
      && KeysDistinct(r)
      && SortedDesc(r)
      && (t in IssueTypes(scans) && (forall i :: 0 <= i < |r| ==> r[i].key != t) ==>
            |r| == 10 && forall i :: 0 <= i < |r| ==> r[i].count >= Count(IssueTypes(scans), t))
  {
    var ks := IssueTypes(scans);
    var r := TopIssues(scans);
    assert r == MostCommon(ks, 10);
    MostCommonEntries(ks, 10);
    if t in ks && (forall i :: 0 <= i < |r| ==> r[i].key != t) {
      MostCommonComplete(ks, 10, t);
    }
  }

  /** `part / whole * 100`, or 0 when `whole` is 0. */
  function Percent(part: nat, whole: nat): (r: real)
    requires part <= whole
    ensures 0.0 <= r <= 100.0
    ensures whole == 0 ==> r == 0.0
    ensures part == whole && whole > 0 ==> r == 100.0
    ensures whole > 0 ==> r * whole as real == part as real * 100.0
  {
    if whole > 0 then
      var q := part as real / whole as real;
      assert q * whole as real == part as real;
      q * 100.0
    else 0.0
  }

  /** `total / n`, or 0 when `n` is 0. */
  function Average(total: real, n: nat): (r: real)
    ensures n == 0 ==> r == 0.0
    ensures n > 0 ==> r * n as real == total
  {
    if n > 0 then total / n as real else 0.0
  }

  datatype Overview = Overview(
    totalScans: nat,
    totalIssues: nat,
    totalRemediations: nat,
    successfulRemediations: nat,
    successRatePercent: real,
    avgRemediationHours: real,
    avgIssuesPerScan: real)

  datatype Dashboard = Dashboard(
    overview: Overview,
    serviceBreakdown: map<Service, ServiceMetric>,
    severityBreakdown: map<Severity, nat>,
    recentScans: seq<ScanRecord>,
    topIssues: seq<Entry>)

  /** The `overview` part of get_dashboard_metrics. */
  function DashboardOverview(h: History, days: int, now: int): (o: Overview)
    ensures o.successfulRemediations <= o.totalRemediations
    ensures o.totalRemediations == 0 ==> o.successRatePercent == 0.0
    ensures 0.0 <= o.successRatePercent <= 100.0
    ensures o.totalScans == 0 ==> o.avgIssuesPerScan == 0.0
    ensures o.totalRemediations == 0 ==> o.avgRemediationHours == 0.0
  {
    var cutoff := now - days * SecondsPerDay;
    var scans := ScansAfter(h.scans, cutoff);
    var rems := RemediationsAfter(h.remediations, cutoff);
    var total := |rems|;
    var ok := CountSuccessful(rems);
    var issues := SumIssues(scans);
    Overview(
      |scans|, issues, total, ok,
      Percent(ok, total),
      Average(SumHours(rems), total),
      Average(issues as real, |scans|))
  }

  /** get_dashboard_metrics, without the daily time series. */
  function DashboardMetrics(h: History, days: int, now: int): (d: Dashboard)
    ensures d.overview.successfulRemediations <= d.overview.totalRemediations
    ensures d.overview.totalRemediations == 0 ==> d.overview.successRatePercent == 0.0
    ensures 0.0 <= d.overview.successRatePercent <= 100.0
    ensures d.overview.totalScans == 0 ==> d.overview.avgIssuesPerScan == 0.0
    ensures d.overview.totalRemediations == 0 ==> d.overview.avgRemediationHours == 0.0
    ensures |d.recentScans| <= 10 && |d.recentScans| <= d.overview.totalScans
    ensures |d.topIssues| <= 10
  {
    var scans := ScansAfter(h.scans, now - days * SecondsPerDay);
    Dashboard(
      DashboardOverview(h, days, now),
      ServiceBreakdown(scans),
      SeverityBreakdown(scans),
      LastTen(scans),
      TopIssues(scans))
  }

  /** The dashboard is computed over exactly the scans and remediations
      strictly after `now - days` days: its overview is that of the window
      (see `OverviewTotals`), its breakdowns and top issues are those of the
      window's scans, and its recent list is the last ten of them. */
  lemma DashboardWindow(h: History, days: int, now: int)
    ensures var d := DashboardMetrics(h, days, now);
      var recent := ScansAfter(h.scans, now - days * SecondsPerDay);
      && d.overview == DashboardOverview(h, days, now)
      && (forall s :: s in recent <==> s in h.scans && s.timestamp > now - days * SecondsPerDay)
      && (forall m :: m in RemediationsAfter(h.remediations, now - days * SecondsPerDay) <==>
                        m in h.remediations && m.timestamp > now - days * SecondsPerDay)
      && d.serviceBreakdown == ServiceBreakdown(recent)
      && d.severityBreakdown == SeverityBreakdown(recent)
      && d.topIssues == TopIssues(recent)
      && d.recentScans == recent[|recent| - |d.recentScans|..]
      && |d.recentScans| == Min(10, |recent|)
  {
    DashboardParts(h, days, now);
  }

  lemma DashboardParts(h: History, days: int, now: int)
    ensures var d := DashboardMetrics(h, days, now);
      var recent := ScansAfter(h.scans, now - days * SecondsPerDay);
      && d.overview == DashboardOverview(h, days, now)
      && d.recentScans == LastTen(recent)
      && d.serviceBreakdown == ServiceBreakdown(recent)
      && d.severityBreakdown == SeverityBreakdown(recent)
      && d.topIssues == TopIssues(recent)
  {
  }

  /** The overview's figures are those of the window: scan and issue
      totals over the recent scans, the remediation count, the number of
      successes, the success rate and the two averages over the recent
      remediations and scans. */
  lemma OverviewTotals(h: History, days: int, now: int)
    ensures var o := DashboardOverview(h, days, now);
      var recent := ScansAfter(h.scans, now - days * SecondsPerDay);
      var rems := RemediationsAfter(h.remediations, now - days * SecondsPerDay);
      && o.totalScans == |recent|
      && o.totalIssues == SumIssues(recent)
      && o.totalRemediations == |rems|
      && o.successfulRemediations == CountSuccessful(rems)
      && o.successRatePercent == Percent(CountSuccessful(rems), |rems|)
      && o.avgRemediationHours == Average(SumHours(rems), |rems|)
      && o.avgIssuesPerScan == Average(SumIssues(recent) as real, |recent|)
  {
  }

  lemma {:induction false} SumIssuesAppend(a: seq<ScanRecord>, b: seq<ScanRecord>)
    ensures SumIssues(a + b) == SumIssues(a) + SumIssues(b)
    decreases |b|
  {
    if |b| == 0 {
      assert a + b == a;
    } else {
      assert (a + b)[..|a + b| - 1] == a + b[..|b| - 1];
      SumIssuesAppend(a, b[..|b| - 1]);
    }
  }

  /** A scan recorded at `now` shows up on a dashboard computed at the
      same instant over any positive number of days: one more scan, and
      its findings added to the issue total. */
  lemma RecordedScanIsCounted(h: History, user: string, findings: seq<Findings.Finding>,
                              scanType: string, days: int, now: int)
    requires days > 0
    ensures var before := DashboardOverview(h, days, now);
      var after := DashboardOverview(RecordScan(h, user, findings, scanType, now).history, days, now);
      && after.totalScans == before.totalScans + 1
      && after.totalIssues == before.totalIssues + |findings|
      && after.totalRemediations == before.totalRemediations
  {
    var h' := RecordScan(h, user, findings, scanType, now).history;
    WindowGainsScan(h, h', days, now);
  }

  /** The window over a history extended by one scan taken at `now`. */
  lemma WindowGainsScan(h: History, h': History, days: int, now: int)
    requires days > 0
    requires |h'.scans| == |h.scans| + 1 && h'.scans[..|h.scans|] == h.scans
    requires h'.scans[|h.scans|].timestamp == now
    requires h'.remediations == h.remediations
    ensures var before := DashboardOverview(h, days, now);
      var after := DashboardOverview(h', days, now);
      && after.totalScans == before.totalScans + 1
      && after.totalIssues == before.totalIssues + h'.scans[|h.scans|].totalIssues
      && after.totalRemediations == before.totalRemediations
  {
    var cutoff := now - days * SecondsPerDay;
    assert cutoff < now by {
      assert days * SecondsPerDay >= SecondsPerDay;
    }
    AppendedScanInWindow(h.scans, h'.scans, cutoff);
  }

  lemma AppendedScanInWindow(scans: seq<ScanRecord>, scans': seq<ScanRecord>, cutoff: int)
    requires |scans'| == |scans| + 1 && scans'[..|scans|] == scans
    requires scans'[|scans|].timestamp > cutoff
    ensures |ScansAfter(scans', cutoff)| == |ScansAfter(scans, cutoff)| + 1
    ensures SumIssues(ScansAfter(scans', cutoff)) == SumIssues(ScansAfter(scans, cutoff)) + scans'[|scans|].totalIssues
  {
    var record := scans'[|scans|];
    assert scans' == scans + [record];
    ScansAfterAppend(scans, [record], cutoff);
    assert ScansAfter([record], cutoff) == [record];
    SumIssuesAppend(ScansAfter(scans, cutoff), [record]);
  }
}
