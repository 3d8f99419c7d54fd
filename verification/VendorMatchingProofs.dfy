/** What vendor and purchase-order matching guarantee about the tables they search. */
module VendorMatchingProofs {
  import opened Options
  import opened Text
  import opened VendorMatching

  /** `i` is the one and only position that satisfies `p`. */
  ghost predicate OnlyAt<T>(p: T -> bool, s: seq<T>, i: nat) {
    && i < |s|
    && p(s[i])
    && forall j :: 0 <= j < |s| && j != i ==> !p(s[j])
  }

  lemma {:induction false} FilterEmpty<T>(p: T -> bool, s: seq<T>)
    requires forall j :: 0 <= j < |s| ==> !p(s[j])
    ensures Filter(p, s) == []
  {
    if s != [] { FilterEmpty(p, s[1..]); }
  }

  lemma {:induction false} FilterOfOnly<T>(p: T -> bool, s: seq<T>, i: nat)
    requires OnlyAt(p, s, i)
    ensures Filter(p, s) == [s[i]]
  {
    if i == 0 {
      FilterEmpty(p, s[1..]);
    } else {
      FilterOfOnly(p, s[1..], i - 1);
    }
  }

  lemma {:induction false} OnlyOfFilter<T>(p: T -> bool, s: seq<T>) returns (i: nat)
    requires |Filter(p, s)| == 1
    ensures OnlyAt(p, s, i)
  {
    if p(s[0]) {
      i := 0;
      forall j | 0 < j < |s| ensures !p(s[j]) {
        assert s[1..][j - 1] !in Filter(p, s[1..]);
      }
    } else {
      var k := OnlyOfFilter(p, s[1..]);
      i := k + 1;
      forall j | 0 <= j < |s| && j != i ensures !p(s[j]) {
        if j > 0 { assert s[j] == s[1..][j - 1]; }
      }
    }
  }

  // ---- the fuzzy decision ------------------------------------------------------

  /** `i` clears the acceptance bar and beats every other vendor of the table by the gap. */
  ghost predicate LeadsAt(ratio: Ratio, name: string, vendors: seq<VendorIdentity>, i: nat) {
    && i < |vendors|
    && Score(ratio, name, vendors[i]) >= 0.88
    && forall j :: 0 <= j < |vendors| && j != i ==>
         Score(ratio, name, vendors[i]) - Score(ratio, name, vendors[j]) >= 0.08
  }

  /** A vendor goes by its legal name and by its aliases. */
  function NamesOf(v: VendorIdentity): seq<string> {
    [v.legalName] + v.aliases
  }

  ghost predicate KnownAs(name: string, v: VendorIdentity) {
    exists n :: n in NamesOf(v) && NormalizeText(Some(n)) == name
  }

  /** `x` is the similarity of one of the vendor's names, and of none is it larger. */
  ghost predicate IsBest(ratio: Ratio, name: string, v: VendorIdentity, x: real) {
    && (exists n :: n in NamesOf(v) && x == ratio(name, NormalizeText(Some(n))))
    && (forall n :: n in NamesOf(v) ==> ratio(name, NormalizeText(Some(n))) <= x)
  }

  lemma ScoreIsBest(ratio: Ratio, name: string, v: VendorIdentity, x: real)
    ensures Score(ratio, name, v) == x <==> IsBest(ratio, name, v, x)
  {
    var r := Score(ratio, name, v);
    var legal := ratio(name, NormalizeText(Some(v.legalName)));
    assert v.legalName in NamesOf(v);
    assert forall i :: 0 <= i < |v.aliases| ==> v.aliases[i] in NamesOf(v);
    if r != legal {
      var n := BestAliasIsAttained(ratio, name, legal, v.aliases);
    }
    assert IsBest(ratio, name, v, r);
  }

  lemma {:induction false} BestAliasIsAttained(ratio: Ratio, name: string, best: real, aliases: seq<string>)
    returns (n: string)
    requires BestAlias(ratio, name, best, aliases) != best
    ensures n in aliases && ratio(name, NormalizeText(Some(n))) == BestAlias(ratio, name, best, aliases)
    decreases aliases
  {
    var first := ratio(name, NormalizeText(Some(aliases[0])));
    if BestAlias(ratio, name, best, aliases) == first {
      n := aliases[0];
    } else {
      n := BestAliasIsAttained(ratio, name, Larger(best, first), aliases[1..]);
    }
  }

  lemma HasNameMeans(name: string, v: VendorIdentity)
    ensures HasName(name, v) <==> KnownAs(name, v)
  {
    assert v.legalName in NamesOf(v);
    assert forall i :: 0 <= i < |v.aliases| ==> v.aliases[i] in NamesOf(v);
    if KnownAs(name, v) {
      var n :| n in NamesOf(v) && NormalizeText(Some(n)) == name;
      assert n == v.legalName || n in v.aliases;
    }
  }

  lemma {:induction false} CandidatesConcat(ratio: Ratio, name: string, a: seq<VendorIdentity>, b: seq<VendorIdentity>)
    ensures Candidates(ratio, name, a + b) == Candidates(ratio, name, a) + Candidates(ratio, name, b)
  {
    if a == [] {
      assert a + b == b;
    } else {
      var c := Candidate(ratio, name, a[0]);
      assert (a + b)[0] == a[0] && (a + b)[1..] == a[1..] + b;
      assert Candidates(ratio, name, a + b)
          == (if c.score >= FUZZY_FLOOR then [c] else []) + Candidates(ratio, name, a[1..] + b);
      CandidatesConcat(ratio, name, a[1..], b);
    }
  }

  lemma {:induction false} CandidateComesFrom(ratio: Ratio, name: string, vendors: seq<VendorIdentity>, c: VendorCandidate)
    returns (i: nat)
    requires c in Candidates(ratio, name, vendors)
    ensures i < |vendors| && c == Candidate(ratio, name, vendors[i]) && c.score >= FUZZY_FLOOR
  {
    var first := Candidate(ratio, name, vendors[0]);
    if first.score >= FUZZY_FLOOR && first == c {
      i := 0;
    } else {
      var k := CandidateComesFrom(ratio, name, vendors[1..], c);
      i := k + 1;
    }
  }

  lemma {:induction false} CandidateIsListed(ratio: Ratio, name: string, vendors: seq<VendorIdentity>, i: nat)
    requires i < |vendors| && Score(ratio, name, vendors[i]) >= FUZZY_FLOOR
    ensures Candidate(ratio, name, vendors[i]) in Candidates(ratio, name, vendors)
  {
    var c := Candidate(ratio, name, vendors[0]);
    assert Candidates(ratio, name, vendors)
        == (if c.score >= FUZZY_FLOOR then [c] else []) + Candidates(ratio, name, vendors[1..]);
    if i > 0 {
      assert vendors[1..][i - 1] == vendors[i];
      CandidateIsListed(ratio, name, vendors[1..], i - 1);
    }
  }

  /** The candidates, sorted, are the one of `i` and those of the other vendors. */
  lemma SortedWithout(ratio: Ratio, name: string, vendors: seq<VendorIdentity>, i: nat)
    requires i < |vendors| && Score(ratio, name, vendors[i]) >= FUZZY_FLOOR
    ensures multiset(SortDescending(Candidates(ratio, name, vendors)))
            == multiset{Candidate(ratio, name, vendors[i])}
               + multiset(Candidates(ratio, name, vendors[..i] + vendors[i + 1..]))
    ensures Descending(SortDescending(Candidates(ratio, name, vendors)))
  {
    SortSorts(Candidates(ratio, name, vendors));
    CandidatesMoveToFront(ratio, name, vendors, i);
    var others := vendors[..i] + vendors[i + 1..];
    assert ([vendors[i]] + others)[1..] == others;
  }

  lemma OthersTrail(ratio: Ratio, name: string, vendors: seq<VendorIdentity>, i: nat, d: VendorCandidate)
    requires LeadsAt(ratio, name, vendors, i) && d in Candidates(ratio, name, vendors[..i] + vendors[i + 1..])
    ensures Score(ratio, name, vendors[i]) - d.score >= FUZZY_AMBIGUITY_GAP
  {
    var others := vendors[..i] + vendors[i + 1..];
    var k := CandidateComesFrom(ratio, name, others, d);
    assert others[k] == vendors[if k < i then k else k + 1];
  }

  /** A vendor that leads the whole table is the one accepted. */
  lemma LeaderIsAccepted(ratio: Ratio, name: string, vendors: seq<VendorIdentity>, i: nat)
    requires LeadsAt(ratio, name, vendors, i)
    ensures var r := FuzzyDecision(SortDescending(Candidates(ratio, name, vendors)));
            && r.how == ByFuzzyName
            && r.vendorId == Some(vendors[i].vendorId)
            && r.confidence == Score(ratio, name, vendors[i])
  {
    var sorted := SortDescending(Candidates(ratio, name, vendors));
    var c := Candidate(ratio, name, vendors[i]);
    var others := vendors[..i] + vendors[i + 1..];
    SortedWithout(ratio, name, vendors, i);
    forall d | d in multiset(Candidates(ratio, name, others)) ensures c.score - d.score >= FUZZY_AMBIGUITY_GAP {
      OthersTrail(ratio, name, vendors, i, d);
    }
    TopOfSorted(sorted, c, multiset(Candidates(ratio, name, others)));
  }

  lemma TopOfSorted(sorted: seq<VendorCandidate>, c: VendorCandidate, others: multiset<VendorCandidate>)
    requires Descending(sorted) && multiset(sorted) == multiset{c} + others
    requires c.score >= FUZZY_AUTO_ACCEPT
    requires forall d :: d in others ==> c.score - d.score >= FUZZY_AMBIGUITY_GAP
    ensures FuzzyDecision(sorted) == VendorMatchResult(Some(c.vendorId), ByFuzzyName, c.score, sorted)
  {
    assert c in multiset(sorted);
    assert sorted[0] in multiset(sorted);
    RestOfSorted(sorted, others);
    if |sorted| > 1 {
      assert sorted[1..][0] in multiset(sorted[1..]);
    }
  }

  lemma RestOfSorted(sorted: seq<VendorCandidate>, others: multiset<VendorCandidate>)
    requires sorted != [] && multiset(sorted) == multiset{sorted[0]} + others
    ensures multiset(sorted[1..]) == others
  {
    assert sorted == [sorted[0]] + sorted[1..];
    assert multiset(sorted[1..]) == multiset(sorted) - multiset{sorted[0]};
  }

  /** Conversely a fuzzy acceptance names a vendor that leads the whole table, floor or no floor. */
  lemma AcceptedIsLeader(ratio: Ratio, name: string, vendors: seq<VendorIdentity>) returns (i: nat)
    requires FuzzyDecision(SortDescending(Candidates(ratio, name, vendors))).how == ByFuzzyName
    ensures LeadsAt(ratio, name, vendors, i)
  {
    var sorted := SortDescending(Candidates(ratio, name, vendors));
    SortSorts(Candidates(ratio, name, vendors));
    var top := sorted[0];
    assert top in multiset(sorted);
    i := CandidateComesFrom(ratio, name, vendors, top);
    forall j | 0 <= j < |vendors| && j != i
      ensures top.score - Score(ratio, name, vendors[j]) >= FUZZY_AMBIGUITY_GAP
    {
      TrailsTheTop(ratio, name, vendors, i, sorted, j);
    }
  }

  lemma RestIsOfOthers(ratio: Ratio, name: string, vendors: seq<VendorIdentity>, i: nat, sorted: seq<VendorCandidate>)
    requires i < |vendors| && Score(ratio, name, vendors[i]) >= FUZZY_FLOOR
    requires sorted == SortDescending(Candidates(ratio, name, vendors)) && sorted != []
    requires sorted[0] == Candidate(ratio, name, vendors[i])
    ensures multiset(sorted[1..]) == multiset(Candidates(ratio, name, vendors[..i] + vendors[i + 1..]))
    ensures Descending(sorted)
  {
    SortedWithout(ratio, name, vendors, i);
    RestOfSorted(sorted, multiset(Candidates(ratio, name, vendors[..i] + vendors[i + 1..])));
  }

  lemma OtherIsListed(ratio: Ratio, name: string, vendors: seq<VendorIdentity>, i: nat, j: nat)
    requires i < |vendors| && j < |vendors| && j != i && Score(ratio, name, vendors[j]) >= FUZZY_FLOOR
    ensures Candidate(ratio, name, vendors[j]) in Candidates(ratio, name, vendors[..i] + vendors[i + 1..])
  {
    var others := vendors[..i] + vendors[i + 1..];
    var k := if j < i then j else j - 1;
    assert others[k] == vendors[j];
    CandidateIsListed(ratio, name, others, k);
  }

  lemma TrailsTheTop(ratio: Ratio, name: string, vendors: seq<VendorIdentity>, i: nat, sorted: seq<VendorCandidate>, j: nat)
    requires i < |vendors| && j < |vendors| && j != i
    requires sorted == SortDescending(Candidates(ratio, name, vendors)) && FuzzyDecision(sorted).how == ByFuzzyName
    requires sorted[0] == Candidate(ratio, name, vendors[i])
    ensures sorted[0].score - Score(ratio, name, vendors[j]) >= FUZZY_AMBIGUITY_GAP
  {
    if Score(ratio, name, vendors[j]) >= FUZZY_FLOOR {
      RestIsOfOthers(ratio, name, vendors, i, sorted);
      OtherIsListed(ratio, name, vendors, i, j);
      BelowTheTop(sorted, Candidate(ratio, name, vendors[j]));
    }
  }

  lemma BelowTheTop(sorted: seq<VendorCandidate>, d: VendorCandidate)
    requires Descending(sorted) && sorted != [] && d in multiset(sorted[1..])
    requires FuzzyDecision(sorted).how == ByFuzzyName
    ensures sorted[0].score - d.score >= FUZZY_AMBIGUITY_GAP
  {
    assert d in sorted[1..];
    var k :| 0 <= k < |sorted[1..]| && sorted[1..][k] == d;
    assert sorted[1].score >= sorted[k + 1].score;
  }

  // ---- when a vendor is resolved ----------------------------------------------

  /** The vendor at `i`, and no other, has the tax id. */
  ghost predicate TaxIdNames(taxId: Option<string>, vendors: seq<VendorIdentity>, i: nat) {
    && NormalizeCode(taxId) != ""
    && i < |vendors|
    && forall j :: 0 <= j < |vendors| ==> (NormalizeCode(vendors[j].taxId) == NormalizeCode(taxId) <==> j == i)
  }

  /** The vendor at `i`, and no other, goes by the name. */
  ghost predicate NameNames(name: string, vendors: seq<VendorIdentity>, i: nat) {
    && i < |vendors|
    && forall j :: 0 <= j < |vendors| ==> (KnownAs(name, vendors[j]) <==> j == i)
  }

  /** The vendor at `i` is identified without a guess, by the strongest check that decides. */
  ghost predicate Identified(
    ratio: Ratio, taxId: Option<string>, supplierName: Option<string>, vendors: seq<VendorIdentity>, i: nat)
  {
    if exists j: nat :: TaxIdNames(taxId, vendors, j) then TaxIdNames(taxId, vendors, i)
    else
      var name := NormalizeText(supplierName);
      && name != ""
      && if exists j: nat :: NameNames(name, vendors, j) then NameNames(name, vendors, i)
         else LeadsAt(ratio, name, vendors, i)
  }

  lemma TaxIdDecidesMeans(taxId: Option<string>, vendors: seq<VendorIdentity>)
    ensures TaxIdDecides(taxId, vendors) <==> exists i: nat :: TaxIdNames(taxId, vendors, i)
    ensures forall i: nat :: TaxIdNames(taxId, vendors, i) ==> TaxHits(taxId, vendors) == [vendors[i]]
  {
    var p := (v: VendorIdentity) => HasTaxId(NormalizeCode(taxId), v);
    assert TaxHits(taxId, vendors) == Filter(p, vendors);
    if TaxIdDecides(taxId, vendors) {
      var i := OnlyOfFilter(p, vendors);
      assert OnlyAt(p, vendors, i);
      assert TaxIdNames(taxId, vendors, i);
    }
    forall i: nat | TaxIdNames(taxId, vendors, i) ensures TaxHits(taxId, vendors) == [vendors[i]] {
      FilterOfOnly(p, vendors, i);
    }
  }

  lemma NameHitsMean(name: string, vendors: seq<VendorIdentity>)
    ensures |NameHits(name, vendors)| == 1 <==> exists i: nat :: NameNames(name, vendors, i)
    ensures forall i: nat :: NameNames(name, vendors, i) ==> NameHits(name, vendors) == [vendors[i]]
  {
    var p := (v: VendorIdentity) => HasName(name, v);
    forall v ensures HasName(name, v) <==> KnownAs(name, v) {
      HasNameMeans(name, v);
    }
    assert NameHits(name, vendors) == Filter(p, vendors);
    if |NameHits(name, vendors)| == 1 {
      var i := OnlyOfFilter(p, vendors);
      assert NameNames(name, vendors, i);
    }
    forall i: nat | NameNames(name, vendors, i) ensures NameHits(name, vendors) == [vendors[i]] {
      FilterOfOnly(p, vendors, i);
    }
  }

  /**
   Matching never guesses: a vendor is returned exactly when one is identified,
   and it is the identified one.
   */
  lemma VendorMatchNeverGuesses(
    ratio: Ratio, taxId: Option<string>, supplierName: Option<string>, vendors: seq<VendorIdentity>)
    ensures var r := VendorMatch(ratio, taxId, supplierName, vendors);
            && (r.vendorId.Some? <==> exists i: nat :: Identified(ratio, taxId, supplierName, vendors, i))
            && (forall i: nat :: Identified(ratio, taxId, supplierName, vendors, i) ==>
                  r.vendorId == Some(vendors[i].vendorId))
            && (r.vendorId.Some? <==> r.how in {ByTaxId, ByExactName, ByFuzzyName})
  {
    var name := NormalizeText(supplierName);
    if i: nat :| TaxIdNames(taxId, vendors, i) {
      DecidedByTaxId(ratio, taxId, supplierName, vendors, i);
      assert Identified(ratio, taxId, supplierName, vendors, i);
    } else if name == "" {
      NobodyDecided(ratio, taxId, supplierName, vendors);
    } else if i: nat :| NameNames(name, vendors, i) {
      DecidedByName(ratio, taxId, supplierName, vendors, i);
      assert Identified(ratio, taxId, supplierName, vendors, i);
    } else {
      DecidedFuzzily(ratio, taxId, supplierName, vendors);
      FuzzyNeverGuesses(ratio, name, vendors);
      assert forall i: nat :: Identified(ratio, taxId, supplierName, vendors, i) <==> LeadsAt(ratio, name, vendors, i);
    }
  }

  lemma DecidedByTaxId(
    ratio: Ratio, taxId: Option<string>, supplierName: Option<string>, vendors: seq<VendorIdentity>, i: nat)
    requires TaxIdNames(taxId, vendors, i)
    ensures VendorMatch(ratio, taxId, supplierName, vendors) == VendorMatchResult(Some(vendors[i].vendorId), ByTaxId, 1.0, [])
    ensures forall j: nat :: TaxIdNames(taxId, vendors, j) ==> j == i
  {
    TaxIdDecidesMeans(taxId, vendors);
  }

  lemma DecidedByName(
    ratio: Ratio, taxId: Option<string>, supplierName: Option<string>, vendors: seq<VendorIdentity>, i: nat)
    requires forall j: nat :: !TaxIdNames(taxId, vendors, j)
    requires NormalizeText(supplierName) != "" && NameNames(NormalizeText(supplierName), vendors, i)
    ensures VendorMatch(ratio, taxId, supplierName, vendors) == VendorMatchResult(Some(vendors[i].vendorId), ByExactName, 0.95, [])
    ensures forall j: nat :: NameNames(NormalizeText(supplierName), vendors, j) ==> j == i
  {
    TaxIdDecidesMeans(taxId, vendors);
    NameHitsMean(NormalizeText(supplierName), vendors);
  }

  lemma NobodyDecided(ratio: Ratio, taxId: Option<string>, supplierName: Option<string>, vendors: seq<VendorIdentity>)
    requires forall j: nat :: !TaxIdNames(taxId, vendors, j)
    requires NormalizeText(supplierName) == ""
    ensures VendorMatch(ratio, taxId, supplierName, vendors) == VendorMatchResult(None, NoVendor, 0.0, [])
  {
    TaxIdDecidesMeans(taxId, vendors);
  }

  lemma DecidedFuzzily(ratio: Ratio, taxId: Option<string>, supplierName: Option<string>, vendors: seq<VendorIdentity>)
    requires forall j: nat :: !TaxIdNames(taxId, vendors, j)
    requires NormalizeText(supplierName) != "" && forall j: nat :: !NameNames(NormalizeText(supplierName), vendors, j)
    ensures VendorMatch(ratio, taxId, supplierName, vendors)
         == FuzzyDecision(SortDescending(Candidates(ratio, NormalizeText(supplierName), vendors)))
  {
    TaxIdDecidesMeans(taxId, vendors);
    NameHitsMean(NormalizeText(supplierName), vendors);
  }

  lemma FuzzyNeverGuesses(ratio: Ratio, name: string, vendors: seq<VendorIdentity>)
    ensures var r := FuzzyDecision(SortDescending(Candidates(ratio, name, vendors)));
            && (r.vendorId.Some? <==> exists i: nat :: LeadsAt(ratio, name, vendors, i))
            && (forall i: nat :: LeadsAt(ratio, name, vendors, i) ==> r.vendorId == Some(vendors[i].vendorId))
            && (r.vendorId.Some? <==> r.how == ByFuzzyName)
            && r.how !in {ByTaxId, ByExactName}
  {
    var r := FuzzyDecision(SortDescending(Candidates(ratio, name, vendors)));
    if r.how == ByFuzzyName {
      var i := AcceptedIsLeader(ratio, name, vendors);
    }
    forall i: nat | LeadsAt(ratio, name, vendors, i) ensures r.vendorId == Some(vendors[i].vendorId) {
      LeaderIsAccepted(ratio, name, vendors, i);
    }
  }

  /**
   Two vendors that both carry the supplier's exact name are reported as
   ambiguous: neither is picked, whatever the rest of the table looks like.
   */
  lemma SharedNameIsAmbiguous(
    ratio: Ratio, taxId: Option<string>, supplierName: Option<string>, vendors: seq<VendorIdentity>, i: nat, j: nat)
    requires Similarity(ratio)
    requires !TaxIdDecides(taxId, vendors)
    requires i < j < |vendors| && NormalizeText(supplierName) != ""
    requires KnownAs(NormalizeText(supplierName), vendors[i]) && KnownAs(NormalizeText(supplierName), vendors[j])
    ensures VendorMatch(ratio, taxId, supplierName, vendors).how == AmbiguousVendor
    ensures VendorMatch(ratio, taxId, supplierName, vendors).vendorId == None
  {
    var name := NormalizeText(supplierName);
    NameHitsMean(name, vendors);
    HasNameMeans(name, vendors[i]);
    HasNameMeans(name, vendors[j]);
    forall k: nat ensures !NameNames(name, vendors, k) {
    }
    TwoPerfectScores(ratio, name, vendors, i, j);
  }

  lemma TwoPerfectScores(ratio: Ratio, name: string, vendors: seq<VendorIdentity>, i: nat, j: nat)
    requires Similarity(ratio) && i < j < |vendors| && HasName(name, vendors[i]) && HasName(name, vendors[j])
    ensures var r := FuzzyDecision(SortDescending(Candidates(ratio, name, vendors)));
            r.how == AmbiguousVendor && r.vendorId == None
  {
    PerfectScore(ratio, name, vendors[i]);
    PerfectScore(ratio, name, vendors[j]);
    CandidateIsListed(ratio, name, vendors, i);
    var sorted := SortDescending(Candidates(ratio, name, vendors));
    SortSorts(Candidates(ratio, name, vendors));
    assert Candidate(ratio, name, vendors[i]) in multiset(sorted);
    if FuzzyDecision(sorted).how == ByFuzzyName {
      var k := AcceptedIsLeader(ratio, name, vendors);
      ScoreAtMostOne(ratio, name, vendors[k]);
    }
  }

  lemma PerfectScore(ratio: Ratio, name: string, v: VendorIdentity)
    requires Similarity(ratio) && HasName(name, v)
    ensures Score(ratio, name, v) >= 1.0
  {
    if name == NormalizeText(Some(v.legalName)) {
      assert ratio(name, name) == 1.0;
    } else {
      var i :| 0 <= i < |v.aliases| && NormalizeText(Some(v.aliases[i])) == name;
      assert ratio(name, NormalizeText(Some(v.aliases[i]))) == 1.0;
    }
  }

  lemma ScoreAtMostOne(ratio: Ratio, name: string, v: VendorIdentity)
    requires Similarity(ratio)
    ensures Score(ratio, name, v) <= 1.0
  {
    BestAliasAtMostOne(ratio, name, ratio(name, NormalizeText(Some(v.legalName))), v.aliases);
  }

  lemma {:induction false} BestAliasAtMostOne(ratio: Ratio, name: string, best: real, aliases: seq<string>)
    requires Similarity(ratio) && best <= 1.0
    ensures BestAlias(ratio, name, best, aliases) <= 1.0
    decreases aliases
  {
    if aliases != [] {
      BestAliasAtMostOne(ratio, name, Larger(best, ratio(name, NormalizeText(Some(aliases[0])))), aliases[1..]);
    }
  }

  // ---- purchase orders -------------------------------------------------------

  /** A purchase order is found exactly when one number, and only one, has the same letters and digits. */
  /** The order at `i` bears the number that is asked for, whatever its punctuation. */
  predicate Bears(number: Option<string>, orders: seq<PoIdentity>, i: int) {
    0 <= i < |orders| && NormalizeCode(Some(orders[i].poNumber)) == NormalizeCode(number)
  }

  ghost predicate OnlyBearer(number: Option<string>, orders: seq<PoIdentity>, i: int) {
    Bears(number, orders, i) && forall j :: Bears(number, orders, j) ==> j == i
  }

  /** The four outcomes: no number, one bearer of it, several, none. */
  lemma PoMatchMeans(number: Option<string>, orders: seq<PoIdentity>)
    ensures var r := PoMatch(number, orders);
            && (r.how == NotProvided <==> NormalizeCode(number) == "")
            && (r.how == ExactNumber <==> NormalizeCode(number) != "" && exists i :: OnlyBearer(number, orders, i))
            && (r.how == AmbiguousPo <==>
                  NormalizeCode(number) != "" && exists i, j :: i != j && Bears(number, orders, i) && Bears(number, orders, j))
            && (r.how == NotFound <==> NormalizeCode(number) != "" && forall i :: !Bears(number, orders, i))
            && (r.poId.Some? <==> r.how == ExactNumber)
            && (forall i :: NormalizeCode(number) != "" && OnlyBearer(number, orders, i) ==> r.poId == Some(orders[i].poId))
  {
    var p := (po: PoIdentity) => HasNumber(NormalizeCode(number), po);
    var hits := Filter(p, orders);
    assert forall i :: 0 <= i < |orders| ==> (p(orders[i]) <==> Bears(number, orders, i));
    if |hits| == 1 {
      var i := OnlyOfFilter(p, orders);
      assert OnlyBearer(number, orders, i);
    } else if |hits| > 1 {
      var i, j := TwoOfFilter(p, orders);
      assert Bears(number, orders, i) && Bears(number, orders, j);
    } else {
      assert forall po :: po in orders ==> !p(po);
    }
    if forall i :: !Bears(number, orders, i) {
      FilterEmpty(p, orders);
    }
    forall i | OnlyBearer(number, orders, i) ensures hits == [orders[i]] {
      FilterOfOnly(p, orders, i);
    }
    forall i, j | 0 <= i < j < |orders| && p(orders[i]) && p(orders[j]) ensures |hits| > 1 {
      TwoGiveTwo(p, orders, i, j);
    }
  }

  lemma {:induction false} TwoOfFilter<T>(p: T -> bool, s: seq<T>) returns (i: nat, j: nat)
    requires |Filter(p, s)| > 1
    ensures i < j < |s| && p(s[i]) && p(s[j])
  {
    if p(s[0]) {
      assert Filter(p, s[1..])[0] in s[1..];
      var k :| 0 <= k < |s[1..]| && s[1..][k] == Filter(p, s[1..])[0];
      i, j := 0, k + 1;
    } else {
      var a, b := TwoOfFilter(p, s[1..]);
      i, j := a + 1, b + 1;
    }
  }

  lemma TwoGiveTwo<T>(p: T -> bool, s: seq<T>, i: nat, j: nat)
    requires i < j < |s| && p(s[i]) && p(s[j])
    ensures |Filter(p, s)| > 1
  {
    assert s == s[..j] + s[j..];
    FilterConcat(p, s[..j], s[j..]);
    assert s[..j][i] in Filter(p, s[..j]);
    assert s[j..][0] in Filter(p, s[j..]);
  }

  lemma PoMatchOrderIndependent(number: Option<string>, a: seq<PoIdentity>, b: seq<PoIdentity>)
    requires multiset(a) == multiset(b)
    ensures PoMatch(number, a) == PoMatch(number, b)
  {
    var p := (po: PoIdentity) => HasNumber(NormalizeCode(number), po);
    FilterOfPermutation(p, a, b);
    if |Filter(p, a)| == 1 {
      SingletonOfPermutation(Filter(p, a), Filter(p, b));
    }
  }

  // ---- the order of the table -----------------------------------------------------

  /** Taking equal elements out of two permutations leaves permutations. */
  lemma RestOfPermutation<T>(a: seq<T>, i: nat, b: seq<T>, k: nat)
    requires multiset(a) == multiset(b) && i < |a| && k < |b| && a[i] == b[k]
    ensures multiset(a[..i] + a[i + 1..]) == multiset(b[..k] + b[k + 1..])
  {
    RemoveOne(a, i);
    RemoveOne(b, k);
  }

  lemma RemoveOne<T>(s: seq<T>, i: nat)
    requires i < |s|
    ensures multiset(s[..i] + s[i + 1..]) == multiset(s) - multiset{s[i]}
  {
    assert s == s[..i] + ([s[i]] + s[i + 1..]);
  }

  lemma {:induction false} CandidatesOfPermutation(ratio: Ratio, name: string, a: seq<VendorIdentity>, b: seq<VendorIdentity>)
    requires multiset(a) == multiset(b)
    ensures multiset(Candidates(ratio, name, a)) == multiset(Candidates(ratio, name, b))
    decreases |a|
  {
    if a == [] {
      assert |multiset(b)| == 0;
    } else {
      assert a[0] in multiset(b);
      var i :| 0 <= i < |b| && b[i] == a[0];
      RestOfPermutation(a, 0, b, i);
      assert a[..0] + a[1..] == a[1..];
      CandidatesOfPermutation(ratio, name, a[1..], b[..i] + b[i + 1..]);
      CandidatesMoveToFront(ratio, name, b, i);
      CandidatesOfFirst(ratio, name, a);
      FirstThen(ratio, name, b[i], b[..i] + b[i + 1..]);
    }
  }

  lemma CandidatesOfFirst(ratio: Ratio, name: string, a: seq<VendorIdentity>)
    requires a != []
    ensures Candidates(ratio, name, a) == Candidates(ratio, name, [a[0]]) + Candidates(ratio, name, a[1..])
  {
    assert [a[0]] + a[1..] == a;
    CandidatesConcat(ratio, name, [a[0]], a[1..]);
  }

  lemma FirstThen(ratio: Ratio, name: string, v: VendorIdentity, rest: seq<VendorIdentity>)
    ensures Candidates(ratio, name, [v] + rest) == Candidates(ratio, name, [v]) + Candidates(ratio, name, rest)
  {
    CandidatesConcat(ratio, name, [v], rest);
  }

  lemma Around<T>(s: seq<T>, i: nat)
    requires i < |s|
    ensures s == s[..i] + ([s[i]] + s[i + 1..])
  {
  }

  lemma SameBag<T>(a: seq<T>, x: seq<T>, b: seq<T>)
    ensures multiset(a + (x + b)) == multiset(x + (a + b))
  {
  }

  lemma CandidatesOfParts(ratio: Ratio, name: string, a: seq<VendorIdentity>, x: seq<VendorIdentity>, b: seq<VendorIdentity>)
    ensures multiset(Candidates(ratio, name, a + (x + b))) == multiset(Candidates(ratio, name, x + (a + b)))
  {
    CandidatesConcat(ratio, name, a, x + b);
    CandidatesConcat(ratio, name, x, b);
    CandidatesConcat(ratio, name, x, a + b);
    CandidatesConcat(ratio, name, a, b);
    SameBag(Candidates(ratio, name, a), Candidates(ratio, name, x), Candidates(ratio, name, b));
  }

  lemma CandidatesMoveToFront(ratio: Ratio, name: string, b: seq<VendorIdentity>, i: nat)
    requires i < |b|
    ensures multiset(Candidates(ratio, name, b))
            == multiset(Candidates(ratio, name, [b[i]] + (b[..i] + b[i + 1..])))
  {
    Around(b, i);
    CandidatesOfParts(ratio, name, b[..i], [b[i]], b[i + 1..]);
  }

  lemma {:induction false} FilterConcat<T>(p: T -> bool, a: seq<T>, b: seq<T>)
    ensures Filter(p, a + b) == Filter(p, a) + Filter(p, b)
  {
    if a == [] {
      assert a + b == b;
    } else {
      assert (a + b)[0] == a[0] && (a + b)[1..] == a[1..] + b;
      FilterConcat(p, a[1..], b);
    }
  }

  lemma {:induction false} FilterOfPermutation<T>(p: T -> bool, a: seq<T>, b: seq<T>)
    requires multiset(a) == multiset(b)
    ensures multiset(Filter(p, a)) == multiset(Filter(p, b))
    ensures |Filter(p, a)| == |Filter(p, b)|
    decreases |a|
  {
    if a == [] {
      assert |multiset(b)| == 0;
    } else {
      assert a[0] in multiset(b);
      var i :| 0 <= i < |b| && b[i] == a[0];
      RestOfPermutation(a, 0, b, i);
      assert a[..0] + a[1..] == a[1..];
      FilterOfPermutation(p, a[1..], b[..i] + b[i + 1..]);
      FilterMoveToFront(p, b, i);
    }
    assert |multiset(Filter(p, a))| == |Filter(p, a)|;
  }

  lemma FilterOfParts<T>(p: T -> bool, a: seq<T>, x: seq<T>, b: seq<T>)
    ensures multiset(Filter(p, a + (x + b))) == multiset(Filter(p, x + (a + b)))
  {
    FilterConcat(p, a, x + b);
    FilterConcat(p, x, b);
    FilterConcat(p, x, a + b);
    FilterConcat(p, a, b);
    SameBag(Filter(p, a), Filter(p, x), Filter(p, b));
  }

  lemma FilterMoveToFront<T>(p: T -> bool, b: seq<T>, i: nat)
    requires i < |b|
    ensures multiset(Filter(p, b)) == multiset(Filter(p, [b[i]] + (b[..i] + b[i + 1..])))
  {
    Around(b, i);
    FilterOfParts(p, b[..i], [b[i]], b[i + 1..]);
  }

  lemma SingletonOfPermutation<T>(a: seq<T>, b: seq<T>)
    requires multiset(a) == multiset(b) && |a| == 1
    ensures a == b
  {
    assert |b| == |multiset(b)|;
    assert b[0] in multiset(a);
  }

  lemma LeaderOfPermutation(ratio: Ratio, name: string, a: seq<VendorIdentity>, b: seq<VendorIdentity>, i: nat)
    returns (k: nat)
    requires multiset(a) == multiset(b) && LeadsAt(ratio, name, a, i)
    ensures LeadsAt(ratio, name, b, k) && b[k] == a[i]
  {
    assert a[i] in multiset(b);
    k :| 0 <= k < |b| && b[k] == a[i];
    RestOfPermutation(a, i, b, k);
    forall j | 0 <= j < |b| && j != k
      ensures Score(ratio, name, b[k]) - Score(ratio, name, b[j]) >= FUZZY_AMBIGUITY_GAP
    {
      var m := OtherPosition(a, i, b, k, j);
    }
  }

  lemma OtherPosition<T>(a: seq<T>, i: nat, b: seq<T>, k: nat, j: nat) returns (m: nat)
    requires i < |a| && k < |b| && j < |b| && j != k
    requires multiset(a[..i] + a[i + 1..]) == multiset(b[..k] + b[k + 1..])
    ensures m < |a| && m != i && a[m] == b[j]
  {
    var restA, restB := a[..i] + a[i + 1..], b[..k] + b[k + 1..];
    assert restB[if j < k then j else j - 1] == b[j];
    assert b[j] in multiset(restA);
    var n :| 0 <= n < |restA| && restA[n] == b[j];
    m := if n < i then n else n + 1;
  }

  /** An acceptance on one order of the table is the same acceptance on every other. */
  lemma AcceptanceTransfers(ratio: Ratio, name: string, a: seq<VendorIdentity>, b: seq<VendorIdentity>)
    requires multiset(a) == multiset(b)
    requires FuzzyDecision(SortDescending(Candidates(ratio, name, a))).how == ByFuzzyName
    ensures var r, q := FuzzyDecision(SortDescending(Candidates(ratio, name, a))),
                        FuzzyDecision(SortDescending(Candidates(ratio, name, b)));
            r.vendorId == q.vendorId && r.how == q.how && r.confidence == q.confidence
  {
    var i := AcceptedIsLeader(ratio, name, a);
    var k := LeaderOfPermutation(ratio, name, a, b, i);
    LeaderIsAccepted(ratio, name, a, i);
    LeaderIsAccepted(ratio, name, b, k);
  }

  /** Two descending orders of the same candidates start with the same score. */
  lemma SameTopScore(x: seq<VendorCandidate>, y: seq<VendorCandidate>)
    requires Descending(x) && Descending(y) && multiset(x) == multiset(y)
    ensures |x| == |y|
    ensures x != [] ==> x[0].score == y[0].score
  {
    assert |x| == |multiset(x)| == |multiset(y)| == |y|;
    if x != [] {
      assert x[0] in multiset(y);
      assert y[0] in multiset(x);
    }
  }

  lemma SortedOfPermutation(ratio: Ratio, name: string, a: seq<VendorIdentity>, b: seq<VendorIdentity>)
    requires multiset(a) == multiset(b)
    ensures var x, y := SortDescending(Candidates(ratio, name, a)), SortDescending(Candidates(ratio, name, b));
            && multiset(x) == multiset(y) && |x| == |y|
            && (x != [] ==> x[0].score == y[0].score)
  {
    CandidatesOfPermutation(ratio, name, a, b);
    SortSorts(Candidates(ratio, name, a));
    SortSorts(Candidates(ratio, name, b));
    SameTopScore(SortDescending(Candidates(ratio, name, a)), SortDescending(Candidates(ratio, name, b)));
  }

  lemma FuzzyOrderIndependent(ratio: Ratio, name: string, a: seq<VendorIdentity>, b: seq<VendorIdentity>)
    requires multiset(a) == multiset(b)
    ensures var r, q := FuzzyDecision(SortDescending(Candidates(ratio, name, a))),
                        FuzzyDecision(SortDescending(Candidates(ratio, name, b)));
            && r.vendorId == q.vendorId && r.how == q.how && r.confidence == q.confidence
            && multiset(r.candidates) == multiset(q.candidates)
  {
    var x, y := SortDescending(Candidates(ratio, name, a)), SortDescending(Candidates(ratio, name, b));
    SortedOfPermutation(ratio, name, a, b);
    if FuzzyDecision(x).how == ByFuzzyName {
      AcceptanceTransfers(ratio, name, a, b);
    } else if FuzzyDecision(y).how == ByFuzzyName {
      AcceptanceTransfers(ratio, name, b, a);
    }
  }

  /** The order in which the database returns vendors does not matter. */
  lemma VendorMatchOrderIndependent(
    ratio: Ratio, taxId: Option<string>, supplierName: Option<string>, a: seq<VendorIdentity>, b: seq<VendorIdentity>)
    requires multiset(a) == multiset(b)
    ensures var r, q := VendorMatch(ratio, taxId, supplierName, a), VendorMatch(ratio, taxId, supplierName, b);
            && r.vendorId == q.vendorId && r.how == q.how && r.confidence == q.confidence
            && multiset(r.candidates) == multiset(q.candidates)
  {
    var name := NormalizeText(supplierName);
    FilterOfPermutation((v: VendorIdentity) => HasTaxId(NormalizeCode(taxId), v), a, b);
    FilterOfPermutation((v: VendorIdentity) => HasName(name, v), a, b);
    assert multiset(TaxHits(taxId, a)) == multiset(TaxHits(taxId, b));
    assert multiset(NameHits(name, a)) == multiset(NameHits(name, b));
    if TaxIdDecides(taxId, a) {
      SingletonOfPermutation(TaxHits(taxId, a), TaxHits(taxId, b));
    } else if |NameHits(name, a)| == 1 {
      SingletonOfPermutation(NameHits(name, a), NameHits(name, b));
    }
    FuzzyOrderIndependent(ratio, name, a, b);
  }

  /** The candidates with this score, in their order. */
  function WithScore(s: seq<VendorCandidate>, x: real): seq<VendorCandidate> {
    if s == [] then [] else (if s[0].score == x then [s[0]] else []) + WithScore(s[1..], x)
  }

  /** Candidates of one score stay in the order of the table. */
  lemma {:induction false} SortIsStable(s: seq<VendorCandidate>, x: real)
    ensures WithScore(SortDescending(s), x) == WithScore(s, x)
  {
    if s != [] {
      SortIsStable(s[1..], x);
      InsertIsStable(s[0], SortDescending(s[1..]), x);
    }
  }

  lemma WithScoreFirst(c: VendorCandidate, rest: seq<VendorCandidate>, x: real)
    ensures WithScore([c] + rest, x) == (if c.score == x then [c] else []) + WithScore(rest, x)
  {
    assert ([c] + rest)[1..] == rest;
  }

  lemma {:induction false} InsertIsStable(c: VendorCandidate, sorted: seq<VendorCandidate>, x: real)
    ensures WithScore(InsertDescending(c, sorted), x) == (if c.score == x then [c] else []) + WithScore(sorted, x)
  {
    if sorted == [] || c.score >= sorted[0].score {
      WithScoreFirst(c, sorted, x);
    } else {
      InsertIsStable(c, sorted[1..], x);
      WithScoreFirst(sorted[0], InsertDescending(c, sorted[1..]), x);
    }
  }

  // ---- what is reported ----------------------------------------------------------------

  /** The candidates are the vendors at or above the floor, best first. */
  ghost predicate ListsCandidates(ratio: Ratio, name: string, vendors: seq<VendorIdentity>, listed: seq<VendorCandidate>) {
    && Descending(listed)
    && (forall c :: c in listed ==>
          exists i :: 0 <= i < |vendors| && IsCandidate(ratio, name, vendors[i], c))
    && (forall i, c :: 0 <= i < |vendors| && IsCandidate(ratio, name, vendors[i], c) ==> c in listed)
  }

  ghost predicate IsCandidate(ratio: Ratio, name: string, v: VendorIdentity, c: VendorCandidate) {
    c.vendorId == v.vendorId && c.legalName == v.legalName && IsBest(ratio, name, v, c.score) && c.score >= 0.60
  }

  lemma SortedListsCandidates(ratio: Ratio, name: string, vendors: seq<VendorIdentity>)
    ensures ListsCandidates(ratio, name, vendors, SortDescending(Candidates(ratio, name, vendors)))
  {
    var all := Candidates(ratio, name, vendors);
    var listed := SortDescending(all);
    SortSorts(all);
    assert forall c :: c in listed <==> c in multiset(listed);
    assert forall c :: c in all <==> c in multiset(all);
    forall c | c in listed ensures exists i :: 0 <= i < |vendors| && IsCandidate(ratio, name, vendors[i], c) {
      var i := CandidateComesFrom(ratio, name, vendors, c);
      ScoreIsBest(ratio, name, vendors[i], c.score);
    }
    forall i, c | 0 <= i < |vendors| && IsCandidate(ratio, name, vendors[i], c) ensures c in listed {
      ScoreIsBest(ratio, name, vendors[i], c.score);
      CandidateIsListed(ratio, name, vendors, i);
      assert c == Candidate(ratio, name, vendors[i]);
    }
  }

  /** What is reported beside the vendor, by the check that decided. */
  lemma VendorMatchReports(
    ratio: Ratio, taxId: Option<string>, supplierName: Option<string>, vendors: seq<VendorIdentity>)
    ensures var r := VendorMatch(ratio, taxId, supplierName, vendors);
            var name := NormalizeText(supplierName);
            if exists i: nat :: TaxIdNames(taxId, vendors, i) then
              r.how == ByTaxId && r.confidence == 1.0 && r.candidates == []
            else if name == "" then
              r.how == NoVendor && r.confidence == 0.0 && r.candidates == []
            else if exists i: nat :: NameNames(name, vendors, i) then
              r.how == ByExactName && r.confidence == 0.95 && r.candidates == []
            else
              && ListsCandidates(ratio, name, vendors, r.candidates)
              && if r.candidates == [] then r.how == NoVendor && r.confidence == 0.0
                 else
                   && r.confidence == r.candidates[0].score
                   && (r.how == ByFuzzyName <==> exists i: nat :: LeadsAt(ratio, name, vendors, i))
                   && r.how in {ByFuzzyName, AmbiguousVendor}
  {
    var name := NormalizeText(supplierName);
    if i: nat :| TaxIdNames(taxId, vendors, i) {
      DecidedByTaxId(ratio, taxId, supplierName, vendors, i);
    } else if name == "" {
      NobodyDecided(ratio, taxId, supplierName, vendors);
    } else if i: nat :| NameNames(name, vendors, i) {
      DecidedByName(ratio, taxId, supplierName, vendors, i);
    } else {
      DecidedFuzzily(ratio, taxId, supplierName, vendors);
      SortedListsCandidates(ratio, name, vendors);
      FuzzyNeverGuesses(ratio, name, vendors);
      FuzzyReports(SortDescending(Candidates(ratio, name, vendors)));
    }
  }

  lemma FuzzyReports(sorted: seq<VendorCandidate>)
    ensures var r := FuzzyDecision(sorted);
            && r.candidates == sorted
            && if sorted == [] then r.how == NoVendor && r.confidence == 0.0
               else r.confidence == sorted[0].score && r.how in {ByFuzzyName, AmbiguousVendor}
  {
  }

  // ---- formatting ---------------------------------------------------------------------

  /** One vendor, perhaps written differently: other blanks, other case, other punctuation in the tax id. */
  predicate SameVendor(a: VendorIdentity, b: VendorIdentity) {
    && a.vendorId == b.vendorId
    && NormalizeCode(a.taxId) == NormalizeCode(b.taxId)
    && WordsOf(Some(a.legalName)) == WordsOf(Some(b.legalName))
    && |a.aliases| == |b.aliases|
    && forall i :: 0 <= i < |a.aliases| ==> WordsOf(Some(a.aliases[i])) == WordsOf(Some(b.aliases[i]))
  }

  predicate SamePo(a: PoIdentity, b: PoIdentity) {
    a.poId == b.poId && NormalizeCode(Some(a.poNumber)) == NormalizeCode(Some(b.poNumber))
  }

  predicate Pairwise<T(!new)>(same: (T, T) -> bool, a: seq<T>, b: seq<T>) {
    |a| == |b| && forall i :: 0 <= i < |a| ==> same(a[i], b[i])
  }

  lemma {:induction false} FilterPairwise<T(!new)>(p: T -> bool, same: (T, T) -> bool, a: seq<T>, b: seq<T>)
    requires Pairwise(same, a, b)
    requires forall x, y :: same(x, y) ==> (p(x) <==> p(y))
    ensures Pairwise(same, Filter(p, a), Filter(p, b))
  {
    if a != [] {
      assert same(a[0], b[0]);
      assert Pairwise(same, a[1..], b[1..]);
      FilterPairwise(p, same, a[1..], b[1..]);
      var x, y := if p(a[0]) then [a[0]] else [], if p(b[0]) then [b[0]] else [];
      PairwiseConcat(same, x, y, Filter(p, a[1..]), Filter(p, b[1..]));
    }
  }

  lemma PairwiseConcat<T(!new)>(same: (T, T) -> bool, x: seq<T>, y: seq<T>, u: seq<T>, v: seq<T>)
    requires Pairwise(same, x, y) && Pairwise(same, u, v)
    ensures Pairwise(same, x + u, y + v)
  {
  }

  lemma SameVendorSameHits(code: string, name: string, a: VendorIdentity, b: VendorIdentity)
    requires SameVendor(a, b)
    ensures HasTaxId(code, a) <==> HasTaxId(code, b)
    ensures HasName(name, a) <==> HasName(name, b)
  {
    NormalizeTextDecidesWords(Some(a.legalName), Some(b.legalName));
    forall i | 0 <= i < |a.aliases|
      ensures NormalizeText(Some(a.aliases[i])) == NormalizeText(Some(b.aliases[i]))
    {
      NormalizeTextDecidesWords(Some(a.aliases[i]), Some(b.aliases[i]));
    }
  }

  lemma {:induction false} BestAliasPairwise(ratio: Ratio, name: string, best: real, a: seq<string>, b: seq<string>)
    requires |a| == |b| && forall i :: 0 <= i < |a| ==> NormalizeText(Some(a[i])) == NormalizeText(Some(b[i]))
    ensures BestAlias(ratio, name, best, a) == BestAlias(ratio, name, best, b)
    decreases a
  {
    if a != [] {
      assert NormalizeText(Some(a[0])) == NormalizeText(Some(b[0]));
      BestAliasPairwise(ratio, name, Larger(best, ratio(name, NormalizeText(Some(a[0])))), a[1..], b[1..]);
    }
  }

  lemma SameVendorSameScore(ratio: Ratio, name: string, a: VendorIdentity, b: VendorIdentity)
    requires SameVendor(a, b)
    ensures Score(ratio, name, a) == Score(ratio, name, b)
  {
    NormalizeTextDecidesWords(Some(a.legalName), Some(b.legalName));
    forall i | 0 <= i < |a.aliases|
      ensures NormalizeText(Some(a.aliases[i])) == NormalizeText(Some(b.aliases[i]))
    {
      NormalizeTextDecidesWords(Some(a.aliases[i]), Some(b.aliases[i]));
    }
    BestAliasPairwise(ratio, name, ratio(name, NormalizeText(Some(a.legalName))), a.aliases, b.aliases);
  }

  /** The same candidates with the same scores, in the same order; only the printed names may differ. */
  predicate SameCandidates(x: seq<VendorCandidate>, y: seq<VendorCandidate>) {
    |x| == |y| && forall i :: 0 <= i < |x| ==> x[i].vendorId == y[i].vendorId && x[i].score == y[i].score
  }

  lemma {:induction false} CandidatesPairwise(ratio: Ratio, name: string, a: seq<VendorIdentity>, b: seq<VendorIdentity>)
    requires Pairwise(SameVendor, a, b)
    ensures SameCandidates(Candidates(ratio, name, a), Candidates(ratio, name, b))
  {
    if a != [] {
      assert SameVendor(a[0], b[0]);
      assert Pairwise(SameVendor, a[1..], b[1..]);
      SameVendorSameScore(ratio, name, a[0], b[0]);
      CandidatesPairwise(ratio, name, a[1..], b[1..]);
      var c, d := Candidate(ratio, name, a[0]), Candidate(ratio, name, b[0]);
      var x, y := if c.score >= FUZZY_FLOOR then [c] else [], if d.score >= FUZZY_FLOOR then [d] else [];
      ConcatPairwise(x, y, Candidates(ratio, name, a[1..]), Candidates(ratio, name, b[1..]));
    }
  }

  lemma ConcatPairwise(
    x: seq<VendorCandidate>, y: seq<VendorCandidate>, u: seq<VendorCandidate>, v: seq<VendorCandidate>)
    requires SameCandidates(x, y) && SameCandidates(u, v)
    ensures SameCandidates(x + u, y + v)
  {
  }

  lemma {:induction false} InsertPairwise(c: VendorCandidate, d: VendorCandidate, x: seq<VendorCandidate>, y: seq<VendorCandidate>)
    requires c.vendorId == d.vendorId && c.score == d.score && SameCandidates(x, y)
    ensures SameCandidates(InsertDescending(c, x), InsertDescending(d, y))
  {
    if x != [] && c.score < x[0].score {
      InsertPairwise(c, d, x[1..], y[1..]);
    }
  }

  lemma {:induction false} SortPairwise(x: seq<VendorCandidate>, y: seq<VendorCandidate>)
    requires SameCandidates(x, y)
    ensures SameCandidates(SortDescending(x), SortDescending(y))
  {
    if x != [] {
      SortPairwise(x[1..], y[1..]);
      InsertPairwise(x[0], y[0], SortDescending(x[1..]), SortDescending(y[1..]));
    }
  }

  lemma HitsPairwise(taxId: Option<string>, name: string, a: seq<VendorIdentity>, b: seq<VendorIdentity>)
    requires Pairwise(SameVendor, a, b)
    ensures Pairwise(SameVendor, TaxHits(taxId, a), TaxHits(taxId, b))
    ensures Pairwise(SameVendor, NameHits(name, a), NameHits(name, b))
  {
    var code := NormalizeCode(taxId);
    forall x, y | SameVendor(x, y)
      ensures (HasTaxId(code, x) <==> HasTaxId(code, y)) && (HasName(name, x) <==> HasName(name, y))
    {
      SameVendorSameHits(code, name, x, y);
    }
    FilterPairwise((v: VendorIdentity) => HasTaxId(code, v), SameVendor, a, b);
    FilterPairwise((v: VendorIdentity) => HasName(name, v), SameVendor, a, b);
  }

  predicate SameAnswer(r: VendorMatchResult, q: VendorMatchResult) {
    && r.vendorId == q.vendorId && r.how == q.how && r.confidence == q.confidence
    && SameCandidates(r.candidates, q.candidates)
  }

  lemma FuzzyPairwise(ratio: Ratio, name: string, a: seq<VendorIdentity>, b: seq<VendorIdentity>)
    requires Pairwise(SameVendor, a, b)
    ensures SameAnswer(FuzzyDecision(SortDescending(Candidates(ratio, name, a))),
                       FuzzyDecision(SortDescending(Candidates(ratio, name, b))))
  {
    CandidatesPairwise(ratio, name, a, b);
    SortPairwise(Candidates(ratio, name, a), Candidates(ratio, name, b));
  }

  lemma SingleHit(a: seq<VendorIdentity>, b: seq<VendorIdentity>)
    requires Pairwise(SameVendor, a, b)
    ensures |a| == |b| && (a != [] ==> a[0].vendorId == b[0].vendorId)
  {
    assert a != [] ==> SameVendor(a[0], b[0]);
  }

  lemma MatchPairwise(
    ratio: Ratio, taxId: Option<string>, supplierName: Option<string>, a: seq<VendorIdentity>, b: seq<VendorIdentity>)
    requires Pairwise(SameVendor, a, b)
    ensures SameAnswer(VendorMatch(ratio, taxId, supplierName, a), VendorMatch(ratio, taxId, supplierName, b))
  {
    var name := NormalizeText(supplierName);
    HitsPairwise(taxId, name, a, b);
    SingleHit(TaxHits(taxId, a), TaxHits(taxId, b));
    SingleHit(NameHits(name, a), NameHits(name, b));
    if TaxIdDecides(taxId, a) {
      assert TaxIdDecides(taxId, b);
    } else if name != "" && |NameHits(name, a)| != 1 {
      FuzzyPairwise(ratio, name, a, b);
    }
  }

  lemma MatchOfSameInvoice(
    ratio: Ratio, taxA: Option<string>, taxB: Option<string>, nameA: Option<string>, nameB: Option<string>,
    vendors: seq<VendorIdentity>)
    requires NormalizeCode(taxA) == NormalizeCode(taxB) && WordsOf(nameA) == WordsOf(nameB)
    ensures VendorMatch(ratio, taxA, nameA, vendors) == VendorMatch(ratio, taxB, nameB, vendors)
  {
    NormalizeTextDecidesWords(nameA, nameB);
  }

  /**
   Only the words of names and the letters and digits of tax ids matter, on the
   invoice and in the vendor table alike.
   */
  lemma VendorMatchIgnoresFormatting(
    ratio: Ratio, taxA: Option<string>, taxB: Option<string>, nameA: Option<string>, nameB: Option<string>,
    a: seq<VendorIdentity>, b: seq<VendorIdentity>)
    requires NormalizeCode(taxA) == NormalizeCode(taxB)
    requires WordsOf(nameA) == WordsOf(nameB)
    requires Pairwise(SameVendor, a, b)
    ensures SameAnswer(VendorMatch(ratio, taxA, nameA, a), VendorMatch(ratio, taxB, nameB, b))
  {
    MatchOfSameInvoice(ratio, taxA, taxB, nameA, nameB, a);
    MatchPairwise(ratio, taxB, nameB, a, b);
  }

  /** The same of purchase-order numbers. */
  lemma PoMatchIgnoresFormatting(numberA: Option<string>, numberB: Option<string>, a: seq<PoIdentity>, b: seq<PoIdentity>)
    requires NormalizeCode(numberA) == NormalizeCode(numberB)
    requires Pairwise(SamePo, a, b)
    ensures PoMatch(numberA, a) == PoMatch(numberB, b)
  {
    FilterPairwise((po: PoIdentity) => HasNumber(NormalizeCode(numberA), po), SamePo, a, b);
  }
}
