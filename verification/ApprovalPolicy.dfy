/** The one place where rule results and confidences become a decision. */
module ApprovalPolicy {
  import opened Lifecycle

  const AUTO_APPROVE_CONFIDENCE_THRESHOLD := 0.75

  // In alphabetical order, the order in which low-confidence fields are reported.
  const CRITICAL_FIELDS: seq<string> :=
    ["currency", "invoice_date", "invoice_number", "supplier_name", "total"]

  datatype Reason =
    | ValidationFailed
    | VendorNotIdentified
    | NoPurchaseOrder
    | LowConfidence(fields: seq<string>)

  datatype ApprovalDecision = ApprovalDecision(outcome: Status, reasons: seq<Reason>)

  predicate Confident(confidence: map<string, real>, f: string) {
    f in confidence && confidence[f] >= AUTO_APPROVE_CONFIDENCE_THRESHOLD
  }

  function LowConfidenceFields(confidence: map<string, real>, fields: seq<string>): (low: seq<string>)
    ensures forall f :: f in low <==> f in fields && !Confident(confidence, f)
  {
    if fields == [] then []
    else
      (if (if fields[0] in confidence then confidence[fields[0]] else 0.0) < AUTO_APPROVE_CONFIDENCE_THRESHOLD
       then [fields[0]] else [])
      + LowConfidenceFields(confidence, fields[1..])
  }

  /** Everything the policy asks before it pays without a human. */
  predicate SafeToPay(validationPassed: bool, vendorIdentified: bool, hasPo: bool, confidence: map<string, real>) {
    && validationPassed
    && vendorIdentified
    && hasPo
    && forall f :: f in CRITICAL_FIELDS ==> Confident(confidence, f)
  }

  function Reasons(validationPassed: bool, vendorIdentified: bool, hasPo: bool, low: seq<string>): seq<Reason> {
    (if validationPassed then [] else [ValidationFailed])
    + (if vendorIdentified then [] else [VendorNotIdentified])
    + (if hasPo then [] else [NoPurchaseOrder])
    + (if low == [] then [] else [LowConfidence(low)])
  }

  function Decision(
    validationPassed: bool, vendorIdentified: bool, hasPo: bool, confidence: map<string, real>
  ): ApprovalDecision
  {
    var reasons := Reasons(validationPassed, vendorIdentified, hasPo, LowConfidenceFields(confidence, CRITICAL_FIELDS));
    ApprovalDecision(if reasons == [] then AutoApproved else NeedsReview, reasons)
  }

  /** The conditional appends. */
  method CollectReasons(validationPassed: bool, vendorIdentified: bool, hasPo: bool, low: seq<string>)
    returns (reasons: seq<Reason>)
    ensures reasons == Reasons(validationPassed, vendorIdentified, hasPo, low)
    ensures reasons == [] <==> validationPassed && vendorIdentified && hasPo && low == []
  {
    reasons := [];
    if !validationPassed {
      reasons := reasons + [ValidationFailed];
    }
    if !vendorIdentified {
      reasons := reasons + [VendorNotIdentified];
    }
    if !hasPo {
      reasons := reasons + [NoPurchaseOrder];
    }
    if low != [] {
      reasons := reasons + [LowConfidence(low)];
    }
  }

  method DecideApproval(
    validationPassed: bool, vendorIdentified: bool, hasPo: bool, confidence: map<string, real>
  ) returns (decision: ApprovalDecision)
    ensures decision == Decision(validationPassed, vendorIdentified, hasPo, confidence)
  {
    var low := LowConfidenceFields(confidence, CRITICAL_FIELDS);
    var reasons := CollectReasons(validationPassed, vendorIdentified, hasPo, low);
    decision := ApprovalDecision(if reasons != [] then NeedsReview else AutoApproved, reasons);
  }

  /** Auto-approval exactly when everything is safe, and otherwise a review. */
  lemma DecisionOutcome(validationPassed: bool, vendorIdentified: bool, hasPo: bool, confidence: map<string, real>)
    ensures var d := Decision(validationPassed, vendorIdentified, hasPo, confidence);
            && (d.outcome == AutoApproved <==> SafeToPay(validationPassed, vendorIdentified, hasPo, confidence))
            && d.outcome in {AutoApproved, NeedsReview}
  {
    LowFieldsAreEmpty(confidence, CRITICAL_FIELDS);
  }

  lemma LowFieldsAreEmpty(confidence: map<string, real>, fields: seq<string>)
    ensures LowConfidenceFields(confidence, fields) == [] <==> forall f :: f in fields ==> Confident(confidence, f)
  {
    var low := LowConfidenceFields(confidence, fields);
    assert low == [] || low[0] in low;
  }

  /** The reasons of a review name every check that failed and no other. */
  lemma DecisionNamesFailures(validationPassed: bool, vendorIdentified: bool, hasPo: bool, confidence: map<string, real>)
    ensures var d := Decision(validationPassed, vendorIdentified, hasPo, confidence);
            && (ValidationFailed in d.reasons <==> !validationPassed)
            && (VendorNotIdentified in d.reasons <==> !vendorIdentified)
            && (NoPurchaseOrder in d.reasons <==> !hasPo)
  {
  }

  /** They name exactly the critical fields of low confidence. */
  lemma DecisionNamesFields(
    validationPassed: bool, vendorIdentified: bool, hasPo: bool, confidence: map<string, real>, f: string)
    ensures (f in CRITICAL_FIELDS && !Confident(confidence, f))
            <==> exists r :: r in Decision(validationPassed, vendorIdentified, hasPo, confidence).reasons
                             && r.LowConfidence? && f in r.fields
  {
    var d := Decision(validationPassed, vendorIdentified, hasPo, confidence);
    var low := LowConfidenceFields(confidence, CRITICAL_FIELDS);
    if low != [] {
      assert d.reasons[|d.reasons| - 1] == LowConfidence(low);
    }
    assert forall r :: r in d.reasons && r.LowConfidence? ==> r == LowConfidence(low) && low != [];
  }
}
