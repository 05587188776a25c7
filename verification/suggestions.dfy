/** Confidence scoring, threshold filtering and remediation enrichment of
    findings (backend/app/ai_suggestions.py). Scores are exact reals; the
    text-generation service is an input: whether an API key is configured,
    and an oracle `ask` standing for the answer (or the exception) one
    chat-completion call returns for a finding. */
module Suggestions {
  import opened Wrappers
  import opened Text
  import opened Findings
  import opened Sequences

  /** Every value the score can take, in exact arithmetic. */
  const ScoreDomain: set<real> := {0.48, 0.56, 0.6, 0.7, 0.72, 0.84, 0.9, 1.0}

  /** Lower-cased issue type mentions a public or unrestricted resource. */
  predicate HighRisk(t: string) {
    Contains(t, "public") || Contains(t, "unrestricted")
  }

  /** Lower-cased issue type mentions a permissive grant or IAM. */
  predicate MediumRisk(t: string) {
    Contains(t, "permissive") || Contains(t, "iam")
  }

  /** `misconfiguration.get("type", "").lower()`: a finding without a type
      is scored as the empty type. */
  function IssueText(f: Finding): string {
    Lower(f.kind.GetOr(""))
  }

  /** Risk bump added to the base score; the first matching rule wins. */
  function RiskBump(t: string): real {
    if HighRisk(t) then 0.4 else if MediumRisk(t) then 0.2 else 0.1
  }

  /** Strictness multiplier; any string other than "strict" and "lenient"
      (including "balanced") leaves the score unchanged. */
  function Multiplier(strictness: string): real {
    if strictness == "strict" then 1.2 else if strictness == "lenient" then 0.8 else 1.0
  }

  /** `min(max(x, 0.0), 1.0)` */
  function Clamp(x: real): (r: real)
    ensures 0.0 <= r <= 1.0
    ensures 0.0 <= x <= 1.0 ==> r == x
    ensures x > 1.0 ==> r == 1.0
    ensures x < 0.0 ==> r == 0.0
  {
    if x < 0.0 then 0.0 else if x > 1.0 then 1.0 else x
  }

  /** calculate_confidence_score */
  function ConfidenceScore(f: Finding, strictness: string): (r: real)
    ensures 0.0 <= r <= 1.0
    ensures r in ScoreDomain
    ensures strictness == "balanced" ==> (r >= 0.8 <==> HighRisk(IssueText(f)))
    ensures (strictness == "balanced" && !HighRisk(IssueText(f)) && MediumRisk(IssueText(f)))
              ==> 0.6 <= r < 0.8
    ensures (strictness == "balanced" && !HighRisk(IssueText(f)) && !MediumRisk(IssueText(f)))
              ==> 0.5 <= r < 0.7
    ensures strictness == "strict" && HighRisk(IssueText(f)) ==> r == 1.0
  {
    Clamp((0.5 + RiskBump(IssueText(f))) * Multiplier(strictness))
  }

  /** Under "balanced" the score is 0.9 for a high-risk type, 0.7 for a
      permissive or IAM type and 0.6 for any other type. */
  lemma BalancedScore(f: Finding)
    ensures HighRisk(IssueText(f)) ==> ConfidenceScore(f, "balanced") == 0.9
    ensures !HighRisk(IssueText(f)) && MediumRisk(IssueText(f)) ==> ConfidenceScore(f, "balanced") == 0.7
    ensures !HighRisk(IssueText(f)) && !MediumRisk(IssueText(f)) ==> ConfidenceScore(f, "balanced") == 0.6
  {
    assert Multiplier("balanced") == 1.0;
  }

  /** For one finding, strict scores strictly higher than balanced and
      balanced strictly higher than lenient, high-risk types included (where
      strict reaches the cap of 1.0); an unrecognised strictness scores
      exactly like "balanced". */
  lemma StrictnessOrder(f: Finding, other: string)
    requires other != "strict" && other != "lenient"
    ensures ConfidenceScore(f, "strict") >= ConfidenceScore(f, "balanced")
    ensures ConfidenceScore(f, "balanced") >= ConfidenceScore(f, "lenient")
    ensures ConfidenceScore(f, other) == ConfidenceScore(f, "balanced")
    ensures ConfidenceScore(f, "balanced") > ConfidenceScore(f, "lenient")
    ensures ConfidenceScore(f, "strict") > ConfidenceScore(f, "balanced")
  {
  }

  /** "lenient" scales the balanced score by 0.8 and "strict" by 1.2,
      capped at 1.0. */
  lemma StrictnessFactors(f: Finding)
    ensures ConfidenceScore(f, "lenient") == 0.8 * ConfidenceScore(f, "balanced")
    ensures ConfidenceScore(f, "strict") == Clamp(1.2 * ConfidenceScore(f, "balanced"))
  {
    BalancedScore(f);
  }

  /** Categorical confidence for display, banded from the unrounded score. */
  function Band(score: real): Confidence {
    if score >= 0.8 then High else if score >= 0.6 then Medium else Low
  }

  /** The band of a score is determined by the risk rules and strictness:
      "high" exactly for high-risk types under any policy but "lenient" and
      for medium-risk types under "strict"; "low" exactly for the types that
      are not high-risk under "lenient". */
  lemma BandOfScore(f: Finding, strictness: string)
    ensures var b := Band(ConfidenceScore(f, strictness));
      && (b == High <==>
            || (HighRisk(IssueText(f)) && strictness != "lenient")
            || (!HighRisk(IssueText(f)) && MediumRisk(IssueText(f)) && strictness == "strict"))
      && (b == Low <==> !HighRisk(IssueText(f)) && strictness == "lenient")
  {
  }

  /** `round(x, 2)`, rounding half up. */
  function Round2(x: real): real {
    ((x * 100.0 + 0.5).Floor as real) / 100.0
  }

  /** Every score already has two decimals, so rounding it for display
      changes nothing. */
  lemma RoundKeepsScores(x: real)
    requires x in ScoreDomain
    ensures Round2(x) == x
  {
  }

  /** The collaborator's reply to one chat-completion call. */
  datatype Reply = Answer(text: string) | Failure(message: string)

  datatype Remediation = Remediation(suggestion: string, confidence: Confidence)

  const NoKeySuggestion: string :=
    "AI suggestions unavailable: GROQ_API_KEY not configured. Please set your Groq API key in the .env file."

  const FailurePrefix: string := "Unable to generate AI suggestion: "

  /** The first of the keys the prompt reads (`type`, `resource_id`,
      `details`, in this order) that the finding lacks. */
  function MissingPromptKey(f: Finding): (r: Option<string>)
    ensures r.None? <==> f.kind.Some? && f.resourceId.Some? && f.details.Some?
    ensures f.kind.None? ==> r == Some("type")
    ensures f.kind.Some? && f.resourceId.None? ==> r == Some("resource_id")
    ensures f.kind.Some? && f.resourceId.Some? && f.details.None? ==> r == Some("details")
  {
    if f.kind.None? then Some("type")
    else if f.resourceId.None? then Some("resource_id")
    else if f.details.None? then Some("details")
    else None
  }

  /** `str(KeyError(key))` */
  function KeyErrorText(key: string): string {
    "'" + key + "'"
  }

  /** get_remediation_suggestions. Without an API key it answers with fixed
      text before reading the finding; with one it builds the prompt first,
      which raises KeyError when a prompt key is missing. */
  function RemediationSuggestions(f: Finding, keyConfigured: bool, ask: Finding -> Reply)
    : (r: Result<Remediation, string>)
    ensures !keyConfigured ==> r == Ok(Remediation(NoKeySuggestion, Low))
    ensures r.Err? <==> keyConfigured && MissingPromptKey(f).Some?
    ensures r.Err? ==> r.error == KeyErrorText(MissingPromptKey(f).value)
    ensures r.Ok? ==> (r.value.confidence == Low <==> !keyConfigured || ask(f).Failure?)
    ensures r.Ok? && keyConfigured && ask(f).Answer? ==>
              && r.value.suggestion == ask(f).text
              && (r.value.confidence == High <==> HighRisk(IssueText(f)))
    ensures r.Ok? && keyConfigured && ask(f).Failure? ==>
              IsPrefix(FailurePrefix, r.value.suggestion)
              && r.value.suggestion[|FailurePrefix|..] == ask(f).message
  {
    if !keyConfigured then
      Ok(Remediation(NoKeySuggestion, Low))
    else if MissingPromptKey(f).Some? then
      Err(KeyErrorText(MissingPromptKey(f).value))
    else
      match ask(f)
      case Answer(text) =>
        Ok(Remediation(text, if HighRisk(Lower(f.kind.value)) then High else Medium))
      case Failure(message) =>
        Ok(Remediation(FailurePrefix + message, Low))
  }

  /** The findings whose score reaches the threshold, in input order. */
  function Kept(fs: seq<Finding>, threshold: real, strictness: string): (r: seq<Finding>)
    ensures |r| <= |fs|
    ensures forall g :: g in r ==> g in fs && ConfidenceScore(g, strictness) >= threshold
    ensures forall g :: g in fs && ConfidenceScore(g, strictness) >= threshold ==> g in r
  {
    if |fs| == 0 then []
    else
      (if ConfidenceScore(fs[0], strictness) >= threshold then [fs[0]] else [])
      + Kept(fs[1..], threshold, strictness)
  }

  /** The kept findings are an order-preserving selection of the input. */
  lemma {:induction false} KeptIsSubsequence(fs: seq<Finding>, threshold: real, strictness: string)
    ensures Subsequence(Kept(fs, threshold, strictness), fs)
    decreases |fs|
  {
    if |fs| > 0 {
      KeptIsSubsequence(fs[1..], threshold, strictness);
      var rest := Kept(fs[1..], threshold, strictness);
      if ConfidenceScore(fs[0], strictness) >= threshold {
        assert Kept(fs, threshold, strictness) == [fs[0]] + rest;
        assert ([fs[0]] + rest)[1..] == rest;
      } else {
        assert Kept(fs, threshold, strictness) == rest;
        if |rest| > 0 {
          assert Subsequence(rest, fs[1..]);
        }
      }
    }
  }

  /** Filtering distributes over concatenation, so each finding is judged
      on its own, independently of its neighbours. */
  lemma {:induction false} KeptAppend(a: seq<Finding>, b: seq<Finding>, threshold: real, strictness: string)
    ensures Kept(a + b, threshold, strictness) == Kept(a, threshold, strictness) + Kept(b, threshold, strictness)
    decreases |a|
  {
    if |a| == 0 {
      assert a + b == b;
    } else {
      assert (a + b)[0] == a[0];
      assert (a + b)[1..] == a[1..] + b;
      KeptAppend(a[1..], b, threshold, strictness);
    }
  }

  /** Filtering an already filtered batch with the same threshold drops
      nothing more. */
  lemma {:induction false} KeptIdempotent(fs: seq<Finding>, threshold: real, strictness: string)
    ensures Kept(Kept(fs, threshold, strictness), threshold, strictness) == Kept(fs, threshold, strictness)
    decreases |fs|
  {
    if |fs| > 0 {
      KeptIdempotent(fs[1..], threshold, strictness);
      var rest := Kept(fs[1..], threshold, strictness);
      if ConfidenceScore(fs[0], strictness) >= threshold {
        assert Kept(fs, threshold, strictness) == [fs[0]] + rest;
        KeptAppend([fs[0]], rest, threshold, strictness);
        assert Kept([fs[0]], threshold, strictness) == [fs[0]] + Kept([], threshold, strictness);
      } else {
        assert Kept(fs, threshold, strictness) == rest;
      }
    }
  }

  /** Raising the threshold only removes more findings: filtering at the
      higher threshold equals filtering the lower threshold's survivors. */
  lemma {:induction false} KeptMonotone(fs: seq<Finding>, lo: real, hi: real, strictness: string)
    requires lo <= hi
    ensures Kept(fs, hi, strictness) == Kept(Kept(fs, lo, strictness), hi, strictness)
    decreases |fs|
  {
    if |fs| > 0 {
      KeptMonotone(fs[1..], lo, hi, strictness);
      var rest := Kept(fs[1..], lo, strictness);
      if ConfidenceScore(fs[0], strictness) >= lo {
        assert Kept(fs, lo, strictness) == [fs[0]] + rest;
        KeptAppend([fs[0]], rest, hi, strictness);
        assert Kept([fs[0]], hi, strictness)
          == (if ConfidenceScore(fs[0], strictness) >= hi then [fs[0]] else []) + Kept([], hi, strictness);
      } else {
        assert Kept(fs, lo, strictness) == rest;
        assert Kept(fs, hi, strictness) == Kept(fs[1..], hi, strictness);
      }
    }
  }

  /** A threshold at or below the smallest possible score keeps everything,
      one above 1.0 keeps nothing. */
  lemma {:induction false} KeptExtremes(fs: seq<Finding>, threshold: real, strictness: string)
    ensures threshold <= 0.48 ==> Kept(fs, threshold, strictness) == fs
    ensures threshold > 1.0 ==> Kept(fs, threshold, strictness) == []
    decreases |fs|
  {
    if |fs| > 0 {
      KeptExtremes(fs[1..], threshold, strictness);
    }
  }

  /** The finding get_bulk_suggestions emits for `f`: every key of `f`, with
      the four suggestion keys set (overwriting any earlier values). */
  function Enrich(f: Finding, strictness: string, rem: Remediation): Finding {
    var score := ConfidenceScore(f, strictness);
    f.(ai := Some(AiFields(rem.suggestion, Band(score), Round2(score), strictness)))
  }

  /** What the caller is promised of one emitted finding `out` built from
      input `f`: the input's own keys unchanged, a suggestion from the
      enricher, the band of the unrounded score, the rounded score, and the
      strictness echoed. */
  predicate EnrichedFrom(out: Finding, f: Finding, strictness: string, keyConfigured: bool, ask: Finding -> Reply) {
    var rem := RemediationSuggestions(f, keyConfigured, ask);
    var score := ConfidenceScore(f, strictness);
    && rem.Ok?
    && SameDescription(out, f)
    && out.access == f.access
    && out.ai.Some?
    && out.ai.value.suggestion == rem.value.suggestion
    && (out.ai.value.confidence == High <==> score >= 0.8)
    && (out.ai.value.confidence == Low <==> score < 0.6)
    && out.ai.value.confidence == Band(score)
    && out.ai.value.confidenceScore == score
    && out.ai.value.strictness == strictness
  }

  /** The emitted finding keeps the promise made for it. */
  lemma EnrichKeepsPromise(f: Finding, strictness: string, keyConfigured: bool, ask: Finding -> Reply)
    requires RemediationSuggestions(f, keyConfigured, ask).Ok?
    ensures EnrichedFrom(Enrich(f, strictness, RemediationSuggestions(f, keyConfigured, ask).value),
                         f, strictness, keyConfigured, ask)
  {
    RoundKeepsScores(ConfidenceScore(f, strictness));
  }

  /** The outcome of get_bulk_suggestions: the emitted findings and, in
      call order, the findings handed to the enricher. */
  datatype Bulk = Bulk(items: seq<Finding>, enriched: seq<Finding>)

  /** get_bulk_suggestions. An exception raised by the enricher (a missing
      prompt key) aborts the whole batch. */
  function BulkSuggestions(fs: seq<Finding>, threshold: real, strictness: string,
                           keyConfigured: bool, ask: Finding -> Reply): (r: Result<Bulk, string>)
    ensures r.Ok? ==> r.value.enriched == Kept(fs, threshold, strictness)
    ensures r.Ok? ==> |r.value.items| == |r.value.enriched|
    decreases |fs|
  {
    if |fs| == 0 then
      Ok(Bulk([], []))
    else
      var f := fs[0];
      if ConfidenceScore(f, strictness) < threshold then
        BulkSuggestions(fs[1..], threshold, strictness, keyConfigured, ask)
      else
        match RemediationSuggestions(f, keyConfigured, ask)
        case Err(e) => Err(e)
        case Ok(rem) =>
          match BulkSuggestions(fs[1..], threshold, strictness, keyConfigured, ask)
          case Err(e) => Err(e)
          case Ok(rest) => Ok(Bulk([Enrich(f, strictness, rem)] + rest.items, [f] + rest.enriched))
  }

  /** All pairs of emitted and input findings keep the promise. */
  predicate AllEnrichedFrom(items: seq<Finding>, enriched: seq<Finding>, strictness: string,
                            keyConfigured: bool, ask: Finding -> Reply)
  {
    |items| == |enriched|
    && forall j :: 0 <= j < |items| ==> EnrichedFrom(items[j], enriched[j], strictness, keyConfigured, ask)
  }

  lemma PromiseCons(x: Finding, f: Finding, items: seq<Finding>, enriched: seq<Finding>,
                    strictness: string, keyConfigured: bool, ask: Finding -> Reply)
    requires EnrichedFrom(x, f, strictness, keyConfigured, ask)
    requires AllEnrichedFrom(items, enriched, strictness, keyConfigured, ask)
    ensures AllEnrichedFrom([x] + items, [f] + enriched, strictness, keyConfigured, ask)
  {
    var xs, fs := [x] + items, [f] + enriched;
    forall j | 0 <= j < |xs|
      ensures EnrichedFrom(xs[j], fs[j], strictness, keyConfigured, ask)
    {
      if j > 0 {
        assert xs[j] == items[j - 1] && fs[j] == enriched[j - 1];
      }
    }
  }

  /** Each emitted finding is its kept input, enriched as promised. */
  lemma {:induction false} BulkItemsEnriched(fs: seq<Finding>, threshold: real, strictness: string,
                                             keyConfigured: bool, ask: Finding -> Reply)
    requires BulkSuggestions(fs, threshold, strictness, keyConfigured, ask).Ok?
    ensures var b := BulkSuggestions(fs, threshold, strictness, keyConfigured, ask).value;
      AllEnrichedFrom(b.items, b.enriched, strictness, keyConfigured, ask)
    decreases |fs|
  {
    if |fs| > 0 {
      var f := fs[0];
      var b := BulkSuggestions(fs, threshold, strictness, keyConfigured, ask).value;
      var tail := BulkSuggestions(fs[1..], threshold, strictness, keyConfigured, ask);
      if ConfidenceScore(f, strictness) >= threshold {
        var rem := RemediationSuggestions(f, keyConfigured, ask);
        assert rem.Ok? && tail.Ok?;
        BulkItemsEnriched(fs[1..], threshold, strictness, keyConfigured, ask);
        EnrichKeepsPromise(f, strictness, keyConfigured, ask);
        assert b.items == [Enrich(f, strictness, rem.value)] + tail.value.items;
        assert b.enriched == [f] + tail.value.enriched;
        PromiseCons(Enrich(f, strictness, rem.value), f, tail.value.items, tail.value.enriched,
                    strictness, keyConfigured, ask);
      } else {
        assert b == tail.value;
        BulkItemsEnriched(fs[1..], threshold, strictness, keyConfigured, ask);
      }
    }
  }

  /** The batch fails exactly when an API key is configured and some kept
      finding lacks a key the prompt reads; dropped findings never fail it. */
  lemma {:induction false} BulkFailsIff(fs: seq<Finding>, threshold: real, strictness: string,
                                        keyConfigured: bool, ask: Finding -> Reply)
    ensures BulkSuggestions(fs, threshold, strictness, keyConfigured, ask).Err?
        <==> keyConfigured && exists g :: g in Kept(fs, threshold, strictness) && MissingPromptKey(g).Some?
    decreases |fs|
  {
    if |fs| > 0 {
      BulkFailsIff(fs[1..], threshold, strictness, keyConfigured, ask);
      var rest := Kept(fs[1..], threshold, strictness);
      if ConfidenceScore(fs[0], strictness) >= threshold {
        assert Kept(fs, threshold, strictness) == [fs[0]] + rest;
      } else {
        assert Kept(fs, threshold, strictness) == rest;
      }
    }
  }
}
