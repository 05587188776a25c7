/** A finding is a Python dict that travels from the scanner through the
    suggestion filter into the API response and the analytics history.
    Each key the program reads or writes is a field here; `None` stands for
    a key that is absent from the dict. */
module Findings {
  import opened Wrappers

  /** The categorical confidence shown to users ("high"/"medium"/"low"). */
  datatype Confidence = High | Medium | Low {
    function Value(): string {
      match this
      case High => "high"
      case Medium => "medium"
      case Low => "low"
    }
  }

  /** Keys added by get_bulk_suggestions: `ai_suggestion`, `confidence`,
      `confidence_score` and `strictness_level`. */
  datatype AiFields = AiFields(
    suggestion: string,
    confidence: Confidence,
    confidenceScore: real,
    strictness: string)

  /** Keys added by the scan endpoint: `can_remediate` and `scanned_by`. */
  datatype AccessFields = AccessFields(canRemediate: bool, scannedBy: string)

  datatype Finding = Finding(
    kind: Option<string>,        // "type"
    resourceId: Option<string>,  // "resource_id"
    details: Option<string>,     // "details"
    timestamp: Option<string>,   // "timestamp"
    ai: Option<AiFields>,
    access: Option<AccessFields>)

  /** A finding as the scanner builds it: the three descriptive keys only. */
  function Raw(kind: string, resourceId: string, details: string): (f: Finding)
    ensures f.kind == Some(kind) && f.resourceId == Some(resourceId) && f.details == Some(details)
    ensures f.timestamp.None? && f.ai.None? && f.access.None?
  {
    Finding(Some(kind), Some(resourceId), Some(details), None, None, None)
  }

  /** The finding carries exactly the keys the scanner produces. */
  predicate IsRaw(f: Finding) {
    f.kind.Some? && f.resourceId.Some? && f.details.Some?
    && f.timestamp.None? && f.ai.None? && f.access.None?
  }

  /** `f` and `g` agree on every key the scanner sets and on `timestamp`. */
  predicate SameDescription(f: Finding, g: Finding) {
    f.kind == g.kind && f.resourceId == g.resourceId
    && f.details == g.details && f.timestamp == g.timestamp
  }
}
