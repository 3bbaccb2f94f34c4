/** The lexicographic order of strings. */
module TextOrder {

  predicate Before(a: string, b: string) {
    if b == "" then false
    else if a == "" then true
    else a[0] < b[0] || (a[0] == b[0] && Before(a[1..], b[1..]))
  }

  lemma {:induction false} BeforeIsTotal(a: string, b: string)
    ensures a == b || Before(a, b) || Before(b, a)
    ensures !(Before(a, b) && Before(b, a))
    ensures a == b ==> !Before(a, b)
  {
    if a != "" && b != "" {
      BeforeIsTotal(a[1..], b[1..]);
      assert a == [a[0]] + a[1..] && b == [b[0]] + b[1..];
    }
  }

  lemma {:induction false} BeforeIsTransitive(a: string, b: string, c: string)
    requires Before(a, b) && Before(b, c)
    ensures Before(a, c)
  {
    if a != "" && a[0] == b[0] == c[0] { BeforeIsTransitive(a[1..], b[1..], c[1..]); }
  }
}

/** Courier scoring, ranking, assignment and reassignment. */
module DispatchEngine {
  import opened Collections
  import opened Sorting
  import opened TextOrder

  datatype Candidate = Candidate(
    courierId: string, distanceMeters: int, activeOrders: int, available: bool, withinRestWindow: bool)

  datatype CandidateScore = CandidateScore(courierId: string, score: real, reasonCodes: seq<string>)

  datatype Mode = Courier | MerchantSelfDelivery | SupportQueue | Unassigned

  datatype AssignResponse = AssignResponse(
    assignmentId: string, mode: Mode, courierId: string, etaSeconds: int, reasonCodes: seq<string>)

  datatype ReassignResponse = ReassignResponse(
    assignmentId: string, mode: Mode, courierId: string, etaSeconds: int, reasonCodes: seq<string>,
    escalatedToSupport: bool)

  const MIN_COURIER_SCORE := 15.0
  const MAX_ACTIVE_ORDERS := 4
  const MAX_FALLBACK_PRESSURE := 0.9

  function MinReal(a: real, b: real): real {
    if a < b then a else b
  }

  function MaxReal(a: real, b: real): real {
    if a > b then a else b
  }

  predicate Eligible(c: Candidate) {
    c.available && c.withinRestWindow && c.activeOrders < MAX_ACTIVE_ORDERS
  }

  function LoadReasons(c: Candidate): seq<string> {
    [if c.distanceMeters <= 1000 then "DISTANCE_NEAR" else "DISTANCE_FAR",
     if c.activeOrders <= 1 then "CAPACITY_AVAILABLE"
     else if c.activeOrders <= 3 then "CAPACITY_MEDIUM" else "CAPACITY_HIGH"]
  }

  function ScoreCandidate(c: Candidate, slaPressure: real): CandidateScore {
    var reasons := LoadReasons(c);
    if !c.available then CandidateScore(c.courierId, 0.0, reasons + ["COURIER_UNAVAILABLE"])
    else if !c.withinRestWindow then CandidateScore(c.courierId, 0.0, reasons + ["LEGAL_REST_REQUIRED"])
    else if c.activeOrders >= MAX_ACTIVE_ORDERS then
      CandidateScore(c.courierId, 0.0, reasons + ["CAPACITY_LIMIT_EXCEEDED"])
    else
      var score := 100.0 - MinReal(60.0, c.distanceMeters as real / 100.0) - c.activeOrders as real * 12.0
                   + MaxReal(0.0, MinReal(1.0, slaPressure)) * 15.0;
      CandidateScore(c.courierId, MaxReal(0.0, score), reasons + ["ELIGIBLE"])
  }

  function ScoreAll(candidates: seq<Candidate>, slaPressure: real): seq<CandidateScore> {
    Map(c => ScoreCandidate(c, slaPressure), candidates)
  }

  /** Higher score first, smaller identifier first among equal scores. */
  predicate Better(a: CandidateScore, b: CandidateScore) {
    if a.score == b.score then Before(a.courierId, b.courierId) else a.score > b.score
  }

  predicate NotWorse(a: CandidateScore, b: CandidateScore) {
    !Better(b, a)
  }

  lemma NotWorseIsTotal()
    ensures TotalPreorder(NotWorse)
  {
    forall a: CandidateScore, b: CandidateScore ensures NotWorse(a, b) || NotWorse(b, a) {
      BeforeIsTotal(a.courierId, b.courierId);
    }
    forall a: CandidateScore, b: CandidateScore, c: CandidateScore | NotWorse(a, b) && NotWorse(b, c)
      ensures NotWorse(a, c)
    {
      BeforeIsTotal(a.courierId, b.courierId);
      BeforeIsTotal(b.courierId, c.courierId);
      BeforeIsTotal(a.courierId, c.courierId);
      if Better(c, a) && a.score == b.score == c.score {
        if a.courierId != b.courierId { BeforeIsTransitive(c.courierId, a.courierId, b.courierId); }
      }
    }
  }

  /** Some arrangement the sort may leave: the scores of the candidates, best first. */
  ghost predicate IsRanking(scored: seq<CandidateScore>, candidates: seq<Candidate>, slaPressure: real) {
    multiset(scored) == multiset(ScoreAll(candidates, slaPressure)) && SortedBy(NotWorse, scored)
  }

  // ----- the in-place sort -----

  method SortScores(a: array<CandidateScore>)
    modifies a
    ensures SortedBy(NotWorse, a[..]) && multiset(a[..]) == multiset(old(a[..]))
  {
    for n := 0 to a.Length
      invariant SortedBy(NotWorse, a[..n])
      invariant multiset(a[..]) == multiset(old(a[..]))
    {
      InsertLast(a, n);
    }
    assert a[..a.Length] == a[..];
  }

  /** Sorted up to `n`, but for the element at `k`, which may belong further left. */
  ghost predicate SortedBut(s: seq<CandidateScore>, k: nat, n: nat)
    requires n < |s|
  {
    forall i, j :: 0 <= i < j <= n && j != k ==> NotWorse(s[i], s[j])
  }

  lemma SwapMovesTheGapLeft(s: seq<CandidateScore>, k: nat, n: nat)
    requires 0 < k <= n < |s| && SortedBut(s, k, n) && Better(s[k], s[k - 1])
    ensures SortedBut(s[k := s[k - 1]][k - 1 := s[k]], k - 1, n)
    ensures multiset(s[k := s[k - 1]][k - 1 := s[k]]) == multiset(s)
  {
    NotWorseIsTotal();
    assert NotWorse(s[k], s[k - 1]);
  }

  lemma GapIsClosed(s: seq<CandidateScore>, k: nat, n: nat)
    requires k <= n < |s| && SortedBut(s, k, n) && (k > 0 ==> !Better(s[k], s[k - 1]))
    ensures SortedBy(NotWorse, s[..n + 1])
  {
    NotWorseIsTotal();
    forall i | 0 <= i < k ensures NotWorse(s[i], s[k]) {
      if i < k - 1 { assert NotWorse(s[i], s[k - 1]) && NotWorse(s[k - 1], s[k]); }
    }
  }

  /** Moves the element at `n` into its place among the sorted elements before it. */
  method InsertLast(a: array<CandidateScore>, n: nat)
    requires n < a.Length && SortedBy(NotWorse, a[..n])
    modifies a
    ensures SortedBy(NotWorse, a[..n + 1]) && multiset(a[..]) == multiset(old(a[..]))
  {
    var k := n;
    assert SortedBut(a[..], k, n) by { assert forall i :: 0 <= i < n ==> a[..][i] == a[..n][i]; }
    while k > 0 && Better(a[k], a[k - 1])
      invariant 0 <= k <= n && SortedBut(a[..], k, n)
      invariant multiset(a[..]) == multiset(old(a[..]))
    {
      SwapMovesTheGapLeft(a[..], k, n);
      ghost var before := a[..];
      a[k], a[k - 1] := a[k - 1], a[k];
      assert a[..] == before[k := before[k - 1]][k - 1 := before[k]];
      k := k - 1;
    }
    GapIsClosed(a[..], k, n);
    assert a[..][..n + 1] == a[..n + 1];
  }

  method ScoreCandidates(candidates: seq<Candidate>, slaPressure: real) returns (scored: seq<CandidateScore>)
    ensures IsRanking(scored, candidates, slaPressure)
  {
    var all: seq<CandidateScore> := [];
    for i := 0 to |candidates|
      invariant all == ScoreAll(candidates[..i], slaPressure)
    {
      all := all + [ScoreCandidate(candidates[i], slaPressure)];
    }
    assert candidates[..|candidates|] == candidates;
    var a := new CandidateScore[|all|](i requires 0 <= i < |all| => all[i]);
    assert a[..] == all;
    SortScores(a);
    return a[..];
  }

  // ----- reason codes -----

  /** The non-empty codes at their first occurrence. */
  function Dedupe(codes: seq<string>): seq<string> {
    if codes == [] then []
    else
      var rest, last := Dedupe(codes[..|codes| - 1]), codes[|codes| - 1];
      if last == "" || last in rest then rest else rest + [last]
  }

  method DedupeReasonCodes(codes: seq<string>) returns (deduped: seq<string>)
    ensures deduped == Dedupe(codes)
  {
    deduped := [];
    var seen: set<string> := {};
    for i := 0 to |codes|
      invariant deduped == Dedupe(codes[..i])
      invariant forall c :: c in seen <==> c in deduped
    {
      assert codes[..i + 1][..i] == codes[..i];
      if codes[i] == "" || codes[i] in seen {
        continue;
      }
      seen := seen + {codes[i]};
      deduped := deduped + [codes[i]];
    }
    assert codes[..|codes|] == codes;
  }

  function FirstIndex(codes: seq<string>, code: string): nat {
    if codes == [] || codes[0] == code then 0 else 1 + FirstIndex(codes[1..], code)
  }

  lemma {:induction false} FirstIndexOfPrefix(codes: seq<string>, n: nat, code: string)
    requires n <= |codes|
    ensures code in codes[..n] ==> FirstIndex(codes, code) == FirstIndex(codes[..n], code) < n
    ensures code !in codes[..n] ==> FirstIndex(codes, code) >= n
  {
    if n > 0 && codes[0] != code {
      FirstIndexOfPrefix(codes[1..], n - 1, code);
      assert codes[..n][1..] == codes[1..][..n - 1];
      assert codes[..n] == [codes[0]] + codes[1..][..n - 1];
    }
  }

  /** Deduplication keeps each non-empty code once, in order of first occurrence. */
  lemma {:induction false} DedupeKeepsFirstOccurrences(codes: seq<string>)
    ensures Distinct(Dedupe(codes))
    ensures forall c :: c in Dedupe(codes) <==> c in codes && c != ""
    ensures forall i, j :: 0 <= i < j < |Dedupe(codes)| ==>
              FirstIndex(codes, Dedupe(codes)[i]) < FirstIndex(codes, Dedupe(codes)[j])
  {
    if codes != [] {
      var n := |codes| - 1;
      var rest := Dedupe(codes[..n]);
      DedupeKeepsFirstOccurrences(codes[..n]);
      assert codes == codes[..n] + [codes[n]];
      forall c | c in rest ensures FirstIndex(codes, c) == FirstIndex(codes[..n], c) < n {
        FirstIndexOfPrefix(codes, n, c);
      }
      FirstIndexOfPrefix(codes, n, codes[n]);
      assert forall i :: 0 <= i < |rest| ==> rest[i] in rest;
    }
  }

  function TopReasons(scored: seq<CandidateScore>): seq<string> {
    if scored == [] then [] else scored[0].reasonCodes
  }

  // ----- texts -----

  predicate IsSpace(c: char) {
    c in {' ', '\t', '\n', '\r', '\U{000B}', '\U{000C}', '\U{0085}', '\U{00A0}'}
  }

  function Trim(s: string): string {
    if s != "" && IsSpace(s[0]) then Trim(s[1..])
    else if s != "" && IsSpace(s[|s| - 1]) then Trim(s[..|s| - 1])
    else s
  }

  function Sanitize(value: string): string {
    var t := Trim(value);
    if t == "" then "na" else seq(|t|, i requires 0 <= i < |t| => if t[i] in {'-', ' '} then '_' else t[i])
  }

  // ----- assignment -----

  /** The entry of the identifier map: the last candidate with that identifier. */
  function LastCandidate(candidates: seq<Candidate>, id: string): Option<Candidate> {
    if candidates == [] then None
    else
      var n := |candidates| - 1;
      if candidates[n].courierId == id then Some(candidates[n]) else LastCandidate(candidates[..n], id)
  }

  function CeilDiv(n: int, d: int): int
    requires d > 0
  {
    -((-n) / d)
  }

  predicate Chosen(candidates: seq<Candidate>, scored: seq<CandidateScore>) {
    && scored != [] && scored[0].score >= MIN_COURIER_SCORE
    && var c := LastCandidate(candidates, scored[0].courierId);
       c.Some? && c.value.available && c.value.withinRestWindow
  }

  function FallbackMode(slaPressure: real, selfDelivery: bool): Mode {
    if selfDelivery && slaPressure <= MAX_FALLBACK_PRESSURE then MerchantSelfDelivery
    else if selfDelivery then SupportQueue
    else Unassigned
  }

  /** The codes an answer without a courier begins with. */
  function Fallback(slaPressure: real, selfDelivery: bool): seq<string> {
    if selfDelivery && slaPressure <= MAX_FALLBACK_PRESSURE then
      ["NO_ELIGIBLE_COURIER", "FALLBACK_MERCHANT_SELF_DELIVERY"]
    else if selfDelivery then ["NO_ELIGIBLE_COURIER", "SLA_TOO_TIGHT_FOR_MERCHANT_FALLBACK"]
    else ["NO_ELIGIBLE_COURIER"]
  }

  /** The answer for a given ranking. */
  function Choose(orderId: string, candidates: seq<Candidate>, slaPressure: real, selfDelivery: bool,
                  scored: seq<CandidateScore>): AssignResponse
  {
    if Chosen(candidates, scored) then
      var c := LastCandidate(candidates, scored[0].courierId).value;
      AssignResponse("asg_" + Sanitize(orderId) + "_" + Sanitize(scored[0].courierId), Courier,
                     scored[0].courierId, 180 + CeilDiv(c.distanceMeters, 8), scored[0].reasonCodes)
    else
      AssignResponse("", FallbackMode(slaPressure, selfDelivery), "", 0,
                     Dedupe(Fallback(slaPressure, selfDelivery) + TopReasons(scored)))
  }

  /** The answers the engine may give: the choice for some ranking of the candidates. */
  ghost predicate Answers(r: AssignResponse, orderId: string, candidates: seq<Candidate>, slaPressure: real,
                          selfDelivery: bool)
  {
    exists scored :: IsRanking(scored, candidates, slaPressure) &&
                     r == Choose(orderId, candidates, slaPressure, selfDelivery, scored)
  }

  method Assign(orderId: string, candidates: seq<Candidate>, slaPressure: real, selfDelivery: bool)
    returns (r: AssignResponse)
    ensures Answers(r, orderId, candidates, slaPressure, selfDelivery)
  {
    var scored := ScoreCandidates(candidates, slaPressure);
    var candidateById: map<string, Candidate> := map[];
    for i := 0 to |candidates|
      invariant forall id :: LastCandidate(candidates[..i], id) ==
                             if id in candidateById then Some(candidateById[id]) else None
    {
      assert candidates[..i + 1][..i] == candidates[..i];
      candidateById := candidateById[candidates[i].courierId := candidates[i]];
    }
    assert candidates[..|candidates|] == candidates;

    if |scored| > 0 && scored[0].score >= MIN_COURIER_SCORE {
      var selected := scored[0];
      if selected.courierId in candidateById {
        var candidate := candidateById[selected.courierId];
        if candidate.available && candidate.withinRestWindow {
          return AssignResponse("asg_" + Sanitize(orderId) + "_" + Sanitize(selected.courierId), Courier,
                                selected.courierId, 180 + CeilDiv(candidate.distanceMeters, 8), selected.reasonCodes);
        }
      }
    }
    var codes: seq<string>;
    if selfDelivery && slaPressure <= MAX_FALLBACK_PRESSURE {
      codes := DedupeReasonCodes(["NO_ELIGIBLE_COURIER", "FALLBACK_MERCHANT_SELF_DELIVERY"] + TopReasons(scored));
      return AssignResponse("", MerchantSelfDelivery, "", 0, codes);
    }
    if selfDelivery && slaPressure > MAX_FALLBACK_PRESSURE {
      codes := DedupeReasonCodes(["NO_ELIGIBLE_COURIER", "SLA_TOO_TIGHT_FOR_MERCHANT_FALLBACK"] + TopReasons(scored));
      return AssignResponse("", SupportQueue, "", 0, codes);
    }
    codes := DedupeReasonCodes(["NO_ELIGIBLE_COURIER"] + TopReasons(scored));
    return AssignResponse("", Unassigned, "", 0, codes);
  }

  // ----- what distinct identifiers give -----

  ghost predicate DistinctCouriers(candidates: seq<Candidate>) {
    forall i, j :: 0 <= i < j < |candidates| ==> candidates[i].courierId != candidates[j].courierId
  }

  lemma {:induction false} LastCandidateIsThere(candidates: seq<Candidate>, id: string)
    ensures LastCandidate(candidates, id).Some? ==>
              LastCandidate(candidates, id).value in candidates && LastCandidate(candidates, id).value.courierId == id
    ensures LastCandidate(candidates, id).None? ==> forall c :: c in candidates ==> c.courierId != id
  {
    if candidates != [] {
      var n := |candidates| - 1;
      LastCandidateIsThere(candidates[..n], id);
      assert candidates == candidates[..n] + [candidates[n]];
    }
  }

  lemma DistinctLookup(candidates: seq<Candidate>, c: Candidate)
    requires DistinctCouriers(candidates) && c in candidates
    ensures LastCandidate(candidates, c.courierId) == Some(c)
  {
    LastCandidateIsThere(candidates, c.courierId);
    var d := LastCandidate(candidates, c.courierId).value;
    var i :| 0 <= i < |candidates| && candidates[i] == c;
    var j :| 0 <= j < |candidates| && candidates[j] == d;
  }

  /** A ranking lists exactly one score per candidate. */
  lemma RankedIffScored(scored: seq<CandidateScore>, candidates: seq<Candidate>, slaPressure: real, x: CandidateScore)
    requires IsRanking(scored, candidates, slaPressure)
    ensures x in scored <==> exists c :: c in candidates && ScoreCandidate(c, slaPressure) == x
  {
    var all := ScoreAll(candidates, slaPressure);
    assert x in scored <==> x in multiset(scored);
    assert x in all <==> x in multiset(all);
    if x in all {
      var i :| 0 <= i < |all| && all[i] == x;
      assert candidates[i] in candidates;
    }
    if c :| c in candidates && ScoreCandidate(c, slaPressure) == x {
      var i :| 0 <= i < |candidates| && candidates[i] == c;
      assert all[i] == x;
    }
  }

  /** No candidate scores better, nor as well under a smaller identifier. */
  ghost predicate IsBest(b: Candidate, candidates: seq<Candidate>, slaPressure: real) {
    && b in candidates
    && forall c :: c in candidates ==> NotWorse(ScoreCandidate(b, slaPressure), ScoreCandidate(c, slaPressure))
  }

  /** The head of a ranking is the score of a best candidate. */
  lemma HeadIsBest(scored: seq<CandidateScore>, candidates: seq<Candidate>, slaPressure: real) returns (b: Candidate)
    requires IsRanking(scored, candidates, slaPressure) && scored != []
    ensures IsBest(b, candidates, slaPressure) && ScoreCandidate(b, slaPressure) == scored[0]
  {
    RankedIffScored(scored, candidates, slaPressure, scored[0]);
    b :| b in candidates && ScoreCandidate(b, slaPressure) == scored[0];
    forall c | c in candidates ensures NotWorse(scored[0], ScoreCandidate(c, slaPressure)) {
      RankedIffScored(scored, candidates, slaPressure, ScoreCandidate(c, slaPressure));
      var i :| 0 <= i < |scored| && scored[i] == ScoreCandidate(c, slaPressure);
      BeforeIsTotal(scored[0].courierId, scored[0].courierId);
    }
  }

  lemma RankingLength(scored: seq<CandidateScore>, candidates: seq<Candidate>, slaPressure: real)
    requires IsRanking(scored, candidates, slaPressure)
    ensures |scored| == |candidates|
  {
    assert |multiset(scored)| == |scored|;
    assert |multiset(ScoreAll(candidates, slaPressure))| == |ScoreAll(candidates, slaPressure)|;
  }

  /** Only an eligible candidate reaches the minimum score. */
  lemma OnlyEligibleReachMinimum(c: Candidate, slaPressure: real)
    ensures ScoreCandidate(c, slaPressure).score >= MIN_COURIER_SCORE ==> Eligible(c)
  {
  }

  /** For distinct identifiers the head of the ranking decides. */
  lemma BestDecides(orderId: string, candidates: seq<Candidate>, slaPressure: real, selfDelivery: bool,
                    scored: seq<CandidateScore>, best: Candidate)
    requires DistinctCouriers(candidates) && best in candidates && scored != []
    requires ScoreCandidate(best, slaPressure) == scored[0]
    ensures Choose(orderId, candidates, slaPressure, selfDelivery, scored).mode == Courier <==>
              ScoreCandidate(best, slaPressure).score >= MIN_COURIER_SCORE
  {
    DistinctLookup(candidates, best);
    OnlyEligibleReachMinimum(best, slaPressure);
  }

  /** A courier is assigned exactly when some eligible candidate reaches the minimum score. */
  lemma CourierIffSomeoneQualifies(orderId: string, candidates: seq<Candidate>, slaPressure: real, selfDelivery: bool,
                                   r: AssignResponse)
    requires DistinctCouriers(candidates) && Answers(r, orderId, candidates, slaPressure, selfDelivery)
    ensures r.mode == Courier <==>
              exists c :: c in candidates && Eligible(c) && ScoreCandidate(c, slaPressure).score >= MIN_COURIER_SCORE
  {
    var scored :| IsRanking(scored, candidates, slaPressure) &&
                  r == Choose(orderId, candidates, slaPressure, selfDelivery, scored);
    RankingLength(scored, candidates, slaPressure);
    if scored != [] {
      var best := HeadIsBest(scored, candidates, slaPressure);
      BestDecides(orderId, candidates, slaPressure, selfDelivery, scored, best);
      OnlyEligibleReachMinimum(best, slaPressure);
      if c :| c in candidates && Eligible(c) && ScoreCandidate(c, slaPressure).score >= MIN_COURIER_SCORE {
        assert NotWorse(ScoreCandidate(best, slaPressure), ScoreCandidate(c, slaPressure));
      }
    }
  }

  /** The courier assigned is an eligible candidate strictly better than every other. */
  lemma AssignedCourierIsTheBest(orderId: string, candidates: seq<Candidate>, slaPressure: real, selfDelivery: bool,
                                 r: AssignResponse) returns (best: Candidate)
    requires DistinctCouriers(candidates) && Answers(r, orderId, candidates, slaPressure, selfDelivery)
    requires r.mode == Courier
    ensures best in candidates && Eligible(best) && r.courierId == best.courierId
    ensures 8 * (r.etaSeconds - 181) < best.distanceMeters <= 8 * (r.etaSeconds - 180)
    ensures forall other :: other in candidates && other != best ==>
              Better(ScoreCandidate(best, slaPressure), ScoreCandidate(other, slaPressure))
  {
    var scored :| IsRanking(scored, candidates, slaPressure) &&
                  r == Choose(orderId, candidates, slaPressure, selfDelivery, scored);
    best := HeadIsBest(scored, candidates, slaPressure);
    DistinctLookup(candidates, best);
    forall other | other in candidates && other != best
      ensures Better(ScoreCandidate(best, slaPressure), ScoreCandidate(other, slaPressure))
    {
      DistinctLookup(candidates, other);
      BeforeIsTotal(best.courierId, other.courierId);
      assert NotWorse(ScoreCandidate(best, slaPressure), ScoreCandidate(other, slaPressure));
    }
  }

  /** Two is the largest load under which an eligible candidate reaches the minimum score at
      every distance and every pressure. */
  lemma TwoIsTheLargestSafeLoad(load: int)
    ensures (forall c: Candidate, slaPressure: real :: Eligible(c) && c.activeOrders <= load ==>
               ScoreCandidate(c, slaPressure).score >= MIN_COURIER_SCORE) <==> load <= 2
  {
    if load <= 2 {
      forall c: Candidate, slaPressure: real | Eligible(c) && c.activeOrders <= load
        ensures ScoreCandidate(c, slaPressure).score >= MIN_COURIER_SCORE
      {
        assert c.activeOrders as real * 12.0 <= 24.0;
      }
    } else {
      var far := Candidate("", 6000, 3, true, true);
      assert far.activeOrders as real * 12.0 == 36.0;
      assert ScoreCandidate(far, 0.0).score < MIN_COURIER_SCORE;
    }
  }

  /** One eligible candidate with at most two active orders guarantees a courier. */
  lemma TwoOrdersGuaranteeACourier(orderId: string, candidates: seq<Candidate>, slaPressure: real, selfDelivery: bool,
                                   r: AssignResponse, c: Candidate)
    requires DistinctCouriers(candidates) && Answers(r, orderId, candidates, slaPressure, selfDelivery)
    requires c in candidates && Eligible(c) && c.activeOrders <= 2
    ensures r.mode == Courier
  {
    TwoIsTheLargestSafeLoad(2);
    CourierIffSomeoneQualifies(orderId, candidates, slaPressure, selfDelivery, r);
  }

  // ----- when the order of the candidates matters -----

  /** The best candidates have one list of reason codes, and if they reach the minimum score,
      every candidate that shares their identifier is available, rested and as far away. */
  ghost predicate OrderIsImmaterial(candidates: seq<Candidate>, slaPressure: real) {
    forall b, c :: IsBest(b, candidates, slaPressure) && c in candidates ==>
                     Interchangeable(b, c, candidates, slaPressure)
  }

  ghost predicate Interchangeable(b: Candidate, c: Candidate, candidates: seq<Candidate>, slaPressure: real) {
    var x := ScoreCandidate(b, slaPressure);
    && (IsBest(c, candidates, slaPressure) ==> ScoreCandidate(c, slaPressure).reasonCodes == x.reasonCodes)
    && (x.score >= MIN_COURIER_SCORE && c.courierId == b.courierId ==>
          c.available && c.withinRestWindow && CeilDiv(c.distanceMeters, 8) == CeilDiv(b.distanceMeters, 8))
  }

  /** Every permutation of the candidates and every ranking gets one answer. */
  ghost predicate OneAnswer(orderId: string, candidates: seq<Candidate>, slaPressure: real, selfDelivery: bool) {
    forall c1, c2, r1, r2 ::
      && multiset(c1) == multiset(candidates) && Answers(r1, orderId, c1, slaPressure, selfDelivery)
      && multiset(c2) == multiset(candidates) && Answers(r2, orderId, c2, slaPressure, selfDelivery)
      ==> r1 == r2
  }

  lemma SameRankings(scored: seq<CandidateScore>, c1: seq<Candidate>, c2: seq<Candidate>, slaPressure: real)
    requires multiset(c1) == multiset(c2)
    ensures IsRanking(scored, c1, slaPressure) <==> IsRanking(scored, c2, slaPressure)
  {
    MapOfBag(c => ScoreCandidate(c, slaPressure), c1, c2);
  }

  lemma BestAreTied(b: Candidate, c: Candidate, candidates: seq<Candidate>, slaPressure: real)
    requires IsBest(b, candidates, slaPressure) && IsBest(c, candidates, slaPressure)
    ensures ScoreCandidate(b, slaPressure).score == ScoreCandidate(c, slaPressure).score
    ensures b.courierId == c.courierId
  {
    BeforeIsTotal(b.courierId, c.courierId);
  }

  /** What is looked up under the best identifier stands for the best candidate. */
  lemma BestLookup(candidates: seq<Candidate>, c1: seq<Candidate>, b: Candidate, slaPressure: real)
    requires OrderIsImmaterial(candidates, slaPressure) && multiset(c1) == multiset(candidates)
    requires IsBest(b, candidates, slaPressure)
    ensures var c := LastCandidate(c1, b.courierId);
            c.Some? && (ScoreCandidate(b, slaPressure).score >= MIN_COURIER_SCORE ==>
                          && c.value.available && c.value.withinRestWindow
                          && CeilDiv(c.value.distanceMeters, 8) == CeilDiv(b.distanceMeters, 8))
  {
    LastCandidateIsThere(c1, b.courierId);
    SameMembers(c1, candidates, b);
    var c := LastCandidate(c1, b.courierId).value;
    SameMembers(c1, candidates, c);
    assert Interchangeable(b, c, candidates, slaPressure);
  }

  lemma ImmaterialOrderGivesOneAnswer(orderId: string, candidates: seq<Candidate>, slaPressure: real,
                                      selfDelivery: bool,
                                      c1: seq<Candidate>, s1: seq<CandidateScore>,
                                      c2: seq<Candidate>, s2: seq<CandidateScore>)
    requires OrderIsImmaterial(candidates, slaPressure)
    requires multiset(c1) == multiset(candidates) && IsRanking(s1, c1, slaPressure)
    requires multiset(c2) == multiset(candidates) && IsRanking(s2, c2, slaPressure)
    ensures Choose(orderId, c1, slaPressure, selfDelivery, s1) == Choose(orderId, c2, slaPressure, selfDelivery, s2)
  {
    SameRankings(s1, c1, candidates, slaPressure);
    SameRankings(s2, c2, candidates, slaPressure);
    RankingLength(s1, candidates, slaPressure);
    RankingLength(s2, candidates, slaPressure);
    if candidates == [] {
      assert s1 == s2 == [];
    } else {
      var b1 := HeadIsBest(s1, candidates, slaPressure);
      var b2 := HeadIsBest(s2, candidates, slaPressure);
      BestAreTied(b1, b2, candidates, slaPressure);
      assert Interchangeable(b1, b2, candidates, slaPressure);
      BestLookup(candidates, c1, b1, slaPressure);
      BestLookup(candidates, c2, b1, slaPressure);
    }
  }

  /** A permutation that ends with a given candidate. */
  lemma EndWith(candidates: seq<Candidate>, c: Candidate) returns (p: seq<Candidate>)
    requires c in candidates
    ensures multiset(p) == multiset(candidates) && LastCandidate(p, c.courierId) == Some(c)
  {
    var i :| 0 <= i < |candidates| && candidates[i] == c;
    p := candidates[..i] + candidates[i + 1..] + [c];
    BagFromRest(candidates, i);
  }

  /** A ranking headed by a given best candidate. */
  lemma RankFirst(candidates: seq<Candidate>, b: Candidate, slaPressure: real) returns (scored: seq<CandidateScore>)
    requires IsBest(b, candidates, slaPressure)
    ensures IsRanking(scored, candidates, slaPressure) && scored != [] && scored[0] == ScoreCandidate(b, slaPressure)
  {
    var i :| 0 <= i < |candidates| && candidates[i] == b;
    var all := ScoreAll(candidates, slaPressure);
    forall j | 0 <= j < |all| ensures NotWorse(all[i], all[j]) { assert candidates[j] in candidates; }
    NotWorseIsTotal();
    scored := SortWithHead(NotWorse, all, i);
  }

  lemma {:induction false} DedupeKeepsDistinct(codes: seq<string>)
    requires Distinct(codes) && "" !in codes
    ensures Dedupe(codes) == codes
  {
    if codes != [] {
      var n := |codes| - 1;
      DedupeKeepsDistinct(codes[..n]);
      assert codes[n] !in codes[..n] && codes == codes[..n] + [codes[n]];
    }
  }

  /** The codes of a score are no two alike, and begin unlike the fallback codes. */
  lemma ReasonsAreDistinct(c: Candidate, slaPressure: real)
    ensures Distinct(ScoreCandidate(c, slaPressure).reasonCodes)
    ensures forall code :: code in ScoreCandidate(c, slaPressure).reasonCodes ==>
              code != "" && code[0] in {'D', 'C', 'L', 'E'}
  {
    var reasons := ScoreCandidate(c, slaPressure).reasonCodes;
    assert |reasons| == 3 && reasons[0][0] == 'D' && reasons[1][0] == 'C' && |reasons[1]| <= 18;
    assert reasons[2][0] in {'L', 'E'} || |reasons[2]| >= 19;
  }

  lemma FallbackIsDistinct(slaPressure: real, selfDelivery: bool)
    ensures Distinct(Fallback(slaPressure, selfDelivery))
    ensures forall code :: code in Fallback(slaPressure, selfDelivery) ==> code != "" && code[0] in {'N', 'F', 'S'}
  {
  }

  /** Deduplication behind the fallback codes drops no reason. */
  lemma FallbackKeepsReasons(c: Candidate, slaPressure: real, selfDelivery: bool)
    ensures var codes := Fallback(slaPressure, selfDelivery) + ScoreCandidate(c, slaPressure).reasonCodes;
            Dedupe(codes) == codes
  {
    var fallback, reasons := Fallback(slaPressure, selfDelivery), ScoreCandidate(c, slaPressure).reasonCodes;
    ReasonsAreDistinct(c, slaPressure);
    FallbackIsDistinct(slaPressure, selfDelivery);
    forall i, j | 0 <= i < |fallback| && 0 <= j < |reasons| ensures fallback[i] != reasons[j] {
      assert fallback[i] in fallback && reasons[j] in reasons;
    }
    DedupeKeepsDistinct(fallback + reasons);
  }

  /** Two lists of reason codes among the best show in the answer. */
  lemma ReasonsShow(orderId: string, candidates: seq<Candidate>, slaPressure: real, selfDelivery: bool,
                    b: Candidate, c: Candidate)
    requires OneAnswer(orderId, candidates, slaPressure, selfDelivery)
    requires IsBest(b, candidates, slaPressure) && IsBest(c, candidates, slaPressure)
    ensures ScoreCandidate(b, slaPressure).reasonCodes == ScoreCandidate(c, slaPressure).reasonCodes
  {
    BestAreTied(b, c, candidates, slaPressure);
    var p := EndWith(candidates, b);
    var s := RankFirst(candidates, b, slaPressure);
    var t := RankFirst(candidates, c, slaPressure);
    SameRankings(s, p, candidates, slaPressure);
    SameRankings(t, p, candidates, slaPressure);
    var r1, r2 := Choose(orderId, p, slaPressure, selfDelivery, s), Choose(orderId, p, slaPressure, selfDelivery, t);
    assert Answers(r1, orderId, p, slaPressure, selfDelivery) && Answers(r2, orderId, p, slaPressure, selfDelivery);
    assert r1 == r2;
    if !Chosen(p, s) {
      var fallback := Fallback(slaPressure, selfDelivery);
      FallbackKeepsReasons(b, slaPressure, selfDelivery);
      FallbackKeepsReasons(c, slaPressure, selfDelivery);
      assert fallback + s[0].reasonCodes == fallback + t[0].reasonCodes;
      assert (fallback + s[0].reasonCodes)[|fallback|..] == s[0].reasonCodes;
      assert (fallback + t[0].reasonCodes)[|fallback|..] == t[0].reasonCodes;
    }
  }

  /** The candidate looked up under the best identifier shows in the answer. */
  lemma LookupShows(orderId: string, candidates: seq<Candidate>, slaPressure: real, selfDelivery: bool,
                    b: Candidate, c: Candidate)
    requires OneAnswer(orderId, candidates, slaPressure, selfDelivery)
    requires IsBest(b, candidates, slaPressure) && c in candidates && c.courierId == b.courierId
    requires ScoreCandidate(b, slaPressure).score >= MIN_COURIER_SCORE
    ensures c.available && c.withinRestWindow && CeilDiv(c.distanceMeters, 8) == CeilDiv(b.distanceMeters, 8)
  {
    var p := EndWith(candidates, b);
    var q := EndWith(candidates, c);
    var s := RankFirst(candidates, b, slaPressure);
    SameRankings(s, p, candidates, slaPressure);
    SameRankings(s, q, candidates, slaPressure);
    var r1, r2 := Choose(orderId, p, slaPressure, selfDelivery, s), Choose(orderId, q, slaPressure, selfDelivery, s);
    assert Answers(r1, orderId, p, slaPressure, selfDelivery) && Answers(r2, orderId, q, slaPressure, selfDelivery);
    assert r1 == r2;
  }

  /** All permutations of the candidates, and all rankings the sort may leave, give one answer
      exactly when the order is immaterial, which a look at the candidates tells. */
  lemma AssignmentIgnoresOrderIff(orderId: string, candidates: seq<Candidate>, slaPressure: real, selfDelivery: bool)
    ensures OneAnswer(orderId, candidates, slaPressure, selfDelivery) <==> OrderIsImmaterial(candidates, slaPressure)
  {
    if OrderIsImmaterial(candidates, slaPressure) {
      forall c1, c2, r1, r2 |
        && multiset(c1) == multiset(candidates) && Answers(r1, orderId, c1, slaPressure, selfDelivery)
        && multiset(c2) == multiset(candidates) && Answers(r2, orderId, c2, slaPressure, selfDelivery)
        ensures r1 == r2
      {
        var s1 :| IsRanking(s1, c1, slaPressure) && r1 == Choose(orderId, c1, slaPressure, selfDelivery, s1);
        var s2 :| IsRanking(s2, c2, slaPressure) && r2 == Choose(orderId, c2, slaPressure, selfDelivery, s2);
        ImmaterialOrderGivesOneAnswer(orderId, candidates, slaPressure, selfDelivery, c1, s1, c2, s2);
      }
    }
    if OneAnswer(orderId, candidates, slaPressure, selfDelivery) {
      forall b, c | IsBest(b, candidates, slaPressure) && c in candidates
        ensures Interchangeable(b, c, candidates, slaPressure)
      {
        if IsBest(c, candidates, slaPressure) {
          ReasonsShow(orderId, candidates, slaPressure, selfDelivery, b, c);
        }
        if ScoreCandidate(b, slaPressure).score >= MIN_COURIER_SCORE && c.courierId == b.courierId {
          LookupShows(orderId, candidates, slaPressure, selfDelivery, b, c);
        }
      }
    }
  }

  /** With distinct identifiers the order is immaterial. */
  lemma AssignmentIgnoresOrder(orderId: string, candidates: seq<Candidate>, slaPressure: real, selfDelivery: bool)
    requires DistinctCouriers(candidates)
    ensures OneAnswer(orderId, candidates, slaPressure, selfDelivery)
  {
    forall b, c | IsBest(b, candidates, slaPressure) && c in candidates
      ensures Interchangeable(b, c, candidates, slaPressure)
    {
      DistinctLookup(candidates, b);
      DistinctLookup(candidates, c);
      if IsBest(c, candidates, slaPressure) { BestAreTied(b, c, candidates, slaPressure); }
    }
    AssignmentIgnoresOrderIff(orderId, candidates, slaPressure, selfDelivery);
  }

  /** A repeated identifier that matters: one of two entries of a courier is unavailable. */
  lemma RepeatedIdentifiersDependOnOrder(orderId: string, id: string, slaPressure: real, selfDelivery: bool)
    ensures !OneAnswer(orderId, [Candidate(id, 0, 0, true, true), Candidate(id, 0, 0, false, true)],
                       slaPressure, selfDelivery)
  {
    var good, gone := Candidate(id, 0, 0, true, true), Candidate(id, 0, 0, false, true);
    BeforeIsTotal(id, id);
    assert IsBest(good, [good, gone], slaPressure);
    assert !Interchangeable(good, gone, [good, gone], slaPressure);
    AssignmentIgnoresOrderIff(orderId, [good, gone], slaPressure, selfDelivery);
  }

  // ----- reassignment -----

  function Without(candidates: seq<Candidate>, previous: string): seq<Candidate> {
    if candidates == [] then []
    else
      var rest, last := Without(candidates[..|candidates| - 1], previous), candidates[|candidates| - 1];
      if previous != "" && last.courierId == previous then rest else rest + [last]
  }

  lemma {:induction false} WithoutKeepsTheOthers(candidates: seq<Candidate>, previous: string, c: Candidate)
    ensures c in Without(candidates, previous) <==> c in candidates && !(previous != "" && c.courierId == previous)
  {
    if candidates != [] {
      var n := |candidates| - 1;
      WithoutKeepsTheOthers(candidates[..n], previous, c);
      assert candidates == candidates[..n] + [candidates[n]];
    }
  }

  function FromAssignment(a: AssignResponse, previousAssignmentId: string, reason: string, attempt: int)
    : ReassignResponse
  {
    var codes := (if reason != "" then [reason] else []) + a.reasonCodes;
    if a.mode == Courier then
      ReassignResponse(a.assignmentId, Courier, a.courierId, a.etaSeconds, codes + ["REASSIGNED"], false)
    else if attempt >= 3 && a.mode == Unassigned then
      ReassignResponse("", SupportQueue, "", 0,
                       codes + ["MAX_REASSIGNMENT_ATTEMPTS_REACHED"] +
                       if previousAssignmentId == "" then []
                       else ["PREVIOUS_ASSIGNMENT_" + Sanitize(previousAssignmentId)],
                       true)
    else
      ReassignResponse(a.assignmentId, a.mode, a.courierId, a.etaSeconds, codes, false)
  }

  /** The previous courier, when named, is never the answer. */
  method Reassign(orderId: string, previousAssignmentId: string, reason: string, candidates: seq<Candidate>,
                  slaPressure: real, attempt: int, selfDelivery: bool, previousCourierId: string)
    returns (r: ReassignResponse)
    ensures previousCourierId != "" ==> r.courierId != previousCourierId
    ensures exists a :: Answers(a, orderId, Without(candidates, previousCourierId), slaPressure, selfDelivery) &&
                        r == FromAssignment(a, previousAssignmentId, reason, attempt)
    ensures r.escalatedToSupport ==> r.mode == SupportQueue && attempt >= 3
  {
    var filtered: seq<Candidate> := [];
    for i := 0 to |candidates|
      invariant filtered == Without(candidates[..i], previousCourierId)
    {
      assert candidates[..i + 1][..i] == candidates[..i];
      if previousCourierId != "" && candidates[i].courierId == previousCourierId {
        continue;
      }
      filtered := filtered + [candidates[i]];
    }
    assert candidates[..|candidates|] == candidates;

    var a := Assign(orderId, filtered, slaPressure, selfDelivery);
    ghost var scored :| IsRanking(scored, filtered, slaPressure) &&
                        a == Choose(orderId, filtered, slaPressure, selfDelivery, scored);
    AnswerIsACandidate(orderId, filtered, slaPressure, selfDelivery, scored, candidates, previousCourierId);

    var codes: seq<string> := if reason != "" then [reason] else [];
    codes := codes + a.reasonCodes;
    if a.mode == Courier {
      codes := codes + ["REASSIGNED"];
      return ReassignResponse(a.assignmentId, Courier, a.courierId, a.etaSeconds, codes, false);
    }
    if attempt >= 3 && a.mode == Unassigned {
      codes := codes + ["MAX_REASSIGNMENT_ATTEMPTS_REACHED"];
      if previousAssignmentId != "" {
        codes := codes + ["PREVIOUS_ASSIGNMENT_" + Sanitize(previousAssignmentId)];
      }
      return ReassignResponse("", SupportQueue, "", 0, codes, true);
    }
    return ReassignResponse(a.assignmentId, a.mode, a.courierId, a.etaSeconds, codes, false);
  }

  lemma AnswerIsACandidate(orderId: string, filtered: seq<Candidate>, slaPressure: real, selfDelivery: bool,
                           scored: seq<CandidateScore>, candidates: seq<Candidate>, previous: string)
    requires filtered == Without(candidates, previous)
    ensures previous != "" ==> Choose(orderId, filtered, slaPressure, selfDelivery, scored).courierId != previous
  {
    if Chosen(filtered, scored) {
      LastCandidateIsThere(filtered, scored[0].courierId);
      WithoutKeepsTheOthers(candidates, previous, LastCandidate(filtered, scored[0].courierId).value);
    }
  }
}
