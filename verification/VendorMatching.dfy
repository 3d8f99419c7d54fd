/**
 Deterministic vendor and purchase-order matching. The similarity measure is a
 parameter: all that is asked of it is `Similarity`.
 */
module VendorMatching {
  import opened Options
  import opened Text

  const FUZZY_FLOOR := 0.60
  const FUZZY_AUTO_ACCEPT := 0.88
  const FUZZY_AMBIGUITY_GAP := 0.08

  type Ratio = (string, string) -> real

  /** What the edit-distance ratio promises: a number in [0, 1], and 1 on equal strings. */
  ghost predicate Similarity(ratio: Ratio) {
    && (forall a, b :: 0.0 <= ratio(a, b) <= 1.0)
    && (forall a :: ratio(a, a) == 1.0)
  }

  datatype VendorIdentity = VendorIdentity(
    vendorId: nat, legalName: string, taxId: Option<string>, aliases: seq<string>)

  datatype VendorCandidate = VendorCandidate(vendorId: nat, legalName: string, score: real)

  datatype VendorMethod = ByTaxId | ByExactName | ByFuzzyName | AmbiguousVendor | NoVendor

  datatype VendorMatchResult = VendorMatchResult(
    vendorId: Option<nat>, how: VendorMethod, confidence: real, candidates: seq<VendorCandidate>)

  // ---- sequences ------------------------------------------------------------

  function Filter<T>(p: T -> bool, s: seq<T>): (r: seq<T>)
    ensures forall x :: x in r ==> x in s && p(x)
    ensures forall x :: x in s && p(x) ==> x in r
    ensures |r| <= |s|
  {
    if s == [] then []
    else (if p(s[0]) then [s[0]] else []) + Filter(p, s[1..])
  }

  // ---- the three checks -------------------------------------------------------

  predicate HasTaxId(code: string, v: VendorIdentity) {
    NormalizeCode(v.taxId) == code
  }

  predicate HasName(name: string, v: VendorIdentity) {
    || name == NormalizeText(Some(v.legalName))
    || exists i :: 0 <= i < |v.aliases| && NormalizeText(Some(v.aliases[i])) == name
  }

  function Larger(a: real, b: real): real {
    if a >= b then a else b
  }

  function BestAlias(ratio: Ratio, name: string, best: real, aliases: seq<string>): (r: real)
    ensures r >= best
    ensures forall i :: 0 <= i < |aliases| ==> ratio(name, NormalizeText(Some(aliases[i]))) <= r
    decreases aliases
  {
    if aliases == [] then best
    else
      BestAlias(ratio, name, Larger(best, ratio(name, NormalizeText(Some(aliases[0])))), aliases[1..])
  }

  /** The best similarity over the legal name and every alias. */
  function Score(ratio: Ratio, name: string, v: VendorIdentity): real {
    BestAlias(ratio, name, ratio(name, NormalizeText(Some(v.legalName))), v.aliases)
  }

  function Candidate(ratio: Ratio, name: string, v: VendorIdentity): VendorCandidate {
    VendorCandidate(v.vendorId, v.legalName, Score(ratio, name, v))
  }

  /** Every vendor at or above the floor, in the order given. */
  function Candidates(ratio: Ratio, name: string, vendors: seq<VendorIdentity>): seq<VendorCandidate> {
    if vendors == [] then []
    else
      var c := Candidate(ratio, name, vendors[0]);
      (if c.score >= FUZZY_FLOOR then [c] else []) + Candidates(ratio, name, vendors[1..])
  }

  // A stable sort, highest score first.

  function InsertDescending(c: VendorCandidate, sorted: seq<VendorCandidate>): seq<VendorCandidate> {
    if sorted == [] || c.score >= sorted[0].score then [c] + sorted
    else [sorted[0]] + InsertDescending(c, sorted[1..])
  }

  function SortDescending(s: seq<VendorCandidate>): seq<VendorCandidate> {
    if s == [] then [] else InsertDescending(s[0], SortDescending(s[1..]))
  }

  predicate Descending(s: seq<VendorCandidate>) {
    forall i, j :: 0 <= i <= j < |s| ==> s[i].score >= s[j].score
  }

  lemma {:induction false} InsertIsPermutation(c: VendorCandidate, sorted: seq<VendorCandidate>)
    ensures multiset(InsertDescending(c, sorted)) == multiset{c} + multiset(sorted)
  {
    if sorted != [] && c.score < sorted[0].score {
      InsertIsPermutation(c, sorted[1..]);
      assert sorted == [sorted[0]] + sorted[1..];
    }
  }

  lemma {:induction false} InsertKeepsOrder(c: VendorCandidate, sorted: seq<VendorCandidate>)
    requires Descending(sorted)
    ensures Descending(InsertDescending(c, sorted))
    ensures forall d :: d in InsertDescending(c, sorted) ==> d == c || d in sorted
  {
    if sorted != [] && c.score < sorted[0].score {
      InsertKeepsOrder(c, sorted[1..]);
      var rest := InsertDescending(c, sorted[1..]);
      forall j | 0 <= j < |rest| ensures rest[j].score <= sorted[0].score {
        assert rest[j] in rest;
      }
    }
  }

  lemma {:induction false} SortSorts(s: seq<VendorCandidate>)
    ensures Descending(SortDescending(s))
    ensures multiset(SortDescending(s)) == multiset(s)
    ensures |SortDescending(s)| == |s|
  {
    if s != [] {
      SortSorts(s[1..]);
      InsertKeepsOrder(s[0], SortDescending(s[1..]));
      InsertIsPermutation(s[0], SortDescending(s[1..]));
      assert s == [s[0]] + s[1..];
    }
    assert |multiset(SortDescending(s))| == |SortDescending(s)|;
  }

  // ---- the decision -------------------------------------------------------------

  function FuzzyDecision(scored: seq<VendorCandidate>): VendorMatchResult {
    if scored == [] then VendorMatchResult(None, NoVendor, 0.0, [])
    else
      var top := scored[0];
      var runnerUp := if |scored| > 1 then scored[1].score else 0.0;
      if top.score >= FUZZY_AUTO_ACCEPT && top.score - runnerUp >= FUZZY_AMBIGUITY_GAP then
        VendorMatchResult(Some(top.vendorId), ByFuzzyName, top.score, scored)
      else
        VendorMatchResult(None, AmbiguousVendor, top.score, scored)
  }

  function TaxHits(taxId: Option<string>, vendors: seq<VendorIdentity>): seq<VendorIdentity> {
    var code := NormalizeCode(taxId);
    Filter(v => HasTaxId(code, v), vendors)
  }

  function NameHits(name: string, vendors: seq<VendorIdentity>): seq<VendorIdentity> {
    Filter(v => HasName(name, v), vendors)
  }

  predicate TaxIdDecides(taxId: Option<string>, vendors: seq<VendorIdentity>) {
    NormalizeCode(taxId) != "" && |TaxHits(taxId, vendors)| == 1
  }

  function VendorMatch(
    ratio: Ratio, taxId: Option<string>, supplierName: Option<string>, vendors: seq<VendorIdentity>
  ): VendorMatchResult
  {
    if TaxIdDecides(taxId, vendors) then
      VendorMatchResult(Some(TaxHits(taxId, vendors)[0].vendorId), ByTaxId, 1.0, [])
    else
      var name := NormalizeText(supplierName);
      if name == "" then VendorMatchResult(None, NoVendor, 0.0, [])
      else
        var hits := NameHits(name, vendors);
        if |hits| == 1 then VendorMatchResult(Some(hits[0].vendorId), ByExactName, 0.95, [])
        else FuzzyDecision(SortDescending(Candidates(ratio, name, vendors)))
  }

  lemma CandidatesAppend(ratio: Ratio, name: string, front: seq<VendorIdentity>, v: VendorIdentity)
    ensures var c := Candidate(ratio, name, v);
            Candidates(ratio, name, front + [v])
            == Candidates(ratio, name, front) + (if c.score >= FUZZY_FLOOR then [c] else [])
  {
    if front != [] {
      var c := Candidate(ratio, name, front[0]);
      assert (front + [v])[0] == front[0] && (front + [v])[1..] == front[1..] + [v];
      assert Candidates(ratio, name, front + [v])
          == (if c.score >= FUZZY_FLOOR then [c] else []) + Candidates(ratio, name, front[1..] + [v]);
      CandidatesAppend(ratio, name, front[1..], v);
    }
  }

  /** The maximum over the legal name and the aliases. */
  method BestScore(ratio: Ratio, name: string, v: VendorIdentity) returns (best: real)
    ensures best == Score(ratio, name, v)
    ensures best >= ratio(name, NormalizeText(Some(v.legalName)))
    ensures forall i :: 0 <= i < |v.aliases| ==> best >= ratio(name, NormalizeText(Some(v.aliases[i])))
  {
    best := ratio(name, NormalizeText(Some(v.legalName)));
    for j := 0 to |v.aliases|
      invariant BestAlias(ratio, name, best, v.aliases[j..]) == Score(ratio, name, v)
    {
      best := Larger(best, ratio(name, NormalizeText(Some(v.aliases[j]))));
      assert v.aliases[j..][1..] == v.aliases[j + 1..];
    }
  }

  /** Every vendor whose best name reaches the floor, in the order given. */
  method ScoreVendors(ratio: Ratio, name: string, vendors: seq<VendorIdentity>) returns (scored: seq<VendorCandidate>)
    ensures scored == Candidates(ratio, name, vendors)
  {
    scored := [];
    for i := 0 to |vendors|
      invariant scored == Candidates(ratio, name, vendors[..i])
    {
      var v := vendors[i];
      var best := BestScore(ratio, name, v);
      CandidatesAppend(ratio, name, vendors[..i], v);
      assert vendors[..i + 1] == vendors[..i] + [v];
      if best >= FUZZY_FLOOR {
        scored := scored + [VendorCandidate(v.vendorId, v.legalName, best)];
      }
    }
    assert vendors[..|vendors|] == vendors;
  }

  /** The priority chain of checks, with the scoring loop and the sort. */
  method MatchVendor(
    ratio: Ratio, taxId: Option<string>, supplierName: Option<string>, vendors: seq<VendorIdentity>
  ) returns (result: VendorMatchResult)
    ensures result == VendorMatch(ratio, taxId, supplierName, vendors)
  {
    if NormalizeCode(taxId) != "" {
      var hits := TaxHits(taxId, vendors);
      if |hits| == 1 {
        return VendorMatchResult(Some(hits[0].vendorId), ByTaxId, 1.0, []);
      }
    }
    var name := NormalizeText(supplierName);
    if name == "" {
      return VendorMatchResult(None, NoVendor, 0.0, []);
    }
    var exactHits := NameHits(name, vendors);
    if |exactHits| == 1 {
      return VendorMatchResult(Some(exactHits[0].vendorId), ByExactName, 0.95, []);
    }
    var scored := ScoreVendors(ratio, name, vendors);
    scored := SortDescending(scored);
    if scored == [] {
      return VendorMatchResult(None, NoVendor, 0.0, []);
    }
    var top := scored[0];
    var runnerUp := if |scored| > 1 then scored[1].score else 0.0;
    if top.score >= FUZZY_AUTO_ACCEPT && top.score - runnerUp >= FUZZY_AMBIGUITY_GAP {
      return VendorMatchResult(Some(top.vendorId), ByFuzzyName, top.score, scored);
    }
    return VendorMatchResult(None, AmbiguousVendor, top.score, scored);
  }

  // ---- purchase orders ------------------------------------------------------------

  datatype PoIdentity = PoIdentity(poId: nat, poNumber: string)

  datatype PoMethod = ExactNumber | NotFound | NotProvided | AmbiguousPo

  datatype PoMatchResult = PoMatchResult(poId: Option<nat>, how: PoMethod)

  predicate HasNumber(number: string, po: PoIdentity) {
    NormalizeCode(Some(po.poNumber)) == number
  }

  function PoMatch(number: Option<string>, orders: seq<PoIdentity>): PoMatchResult {
    var code := NormalizeCode(number);
    if code == "" then PoMatchResult(None, NotProvided)
    else
      var hits := Filter(po => HasNumber(code, po), orders);
      if |hits| == 1 then PoMatchResult(Some(hits[0].poId), ExactNumber)
      else if |hits| > 1 then PoMatchResult(None, AmbiguousPo)
      else PoMatchResult(None, NotFound)
  }
}
