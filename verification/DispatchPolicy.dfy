/** What the dispatch engine decides, told in metres and orders instead of points. */
module DispatchPolicy {
  import opened Collections
  import opened Sorting
  import opened TextOrder
  import opened DispatchEngine

  /** Distance counts up to six kilometres, and an order in hand like twelve hundred metres. */
  function Burden(c: Candidate): int {
    (if c.distanceMeters < 6000 then c.distanceMeters else 6000) + 1200 * c.activeOrders
  }

  /** The burden at which the minimum score is just reached: from 8500 without pressure up to
      10000 at full pressure. */
  function BurdenLimit(slaPressure: real): real {
    if slaPressure <= 0.0 then 8500.0
    else if slaPressure >= 1.0 then 10000.0
    else 8500.0 + 1500.0 * slaPressure
  }

  /** Available, rested, and with fewer than four orders. */
  predicate Free(c: Candidate) {
    c.available && c.withinRestWindow && c.activeOrders <= 3
  }

  /** A courier without way or orders has a hundred points when there is no pressure. */
  lemma AnIdleCourierHasAHundred(id: string, slaPressure: real)
    requires slaPressure <= 0.0
    ensures ScoreCandidate(Candidate(id, 0, 0, true, true), slaPressure).score == 100.0
  {
  }

  /** Positive scores differ by the burden, a point for every hundred metres. */
  lemma ScoresDifferByBurden(c: Candidate, d: Candidate, slaPressure: real)
    requires Free(c) && Free(d)
    requires ScoreCandidate(c, slaPressure).score > 0.0 && ScoreCandidate(d, slaPressure).score > 0.0
    ensures 100.0 * (ScoreCandidate(c, slaPressure).score - ScoreCandidate(d, slaPressure).score) ==
              (Burden(d) - Burden(c)) as real
  {
  }

  /** The score never falls with the pressure; between 0 and 1 a positive score rises by
      fifteen points times the difference, and outside it does not change. */
  lemma PressureLiftsScores(c: Candidate, low: real, high: real)
    requires low <= high
    ensures ScoreCandidate(c, low).score <= ScoreCandidate(c, high).score
    ensures Free(c) && 0.0 <= low && high <= 1.0 && ScoreCandidate(c, low).score > 0.0 ==>
              ScoreCandidate(c, high).score - ScoreCandidate(c, low).score == 15.0 * (high - low)
    ensures high <= 0.0 || 1.0 <= low ==> ScoreCandidate(c, low).score == ScoreCandidate(c, high).score
  {
  }

  /** The minimum score is a limit on the burden of a free courier. */
  lemma MinimumScoreIsABurdenLimit(c: Candidate, slaPressure: real)
    ensures ScoreCandidate(c, slaPressure).score >= 15.0 <==> Free(c) && Burden(c) as real <= BurdenLimit(slaPressure)
  {
  }

  /** Among free couriers a better score is a smaller burden, at least above the minimum. */
  lemma BetterIsLessBurdened(c: Candidate, d: Candidate, slaPressure: real)
    requires Free(c) && Free(d) && ScoreCandidate(c, slaPressure).score >= 15.0
    requires Better(ScoreCandidate(c, slaPressure), ScoreCandidate(d, slaPressure))
    ensures Burden(c) < Burden(d) || (Burden(c) == Burden(d) && Before(c.courierId, d.courierId))
  {
    if ScoreCandidate(d, slaPressure).score > 0.0 {
      ScoresDifferByBurden(c, d, slaPressure);
    }
  }

  /** The courier the candidates call for: free, within the limit, and of all free couriers the
      least burdened, the smaller identifier deciding between equals. */
  ghost predicate CalledFor(b: Candidate, candidates: seq<Candidate>, slaPressure: real) {
    && b in candidates && Free(b) && Burden(b) as real <= BurdenLimit(slaPressure)
    && forall c :: c in candidates && Free(c) && c != b ==>
         Burden(b) < Burden(c) || (Burden(b) == Burden(c) && Before(b.courierId, c.courierId))
  }

  /** For distinct identifiers: a courier is answered exactly when a free one is within the
      burden limit, and then it is the one the candidates call for, with the time its
      distance takes and the codes that tell its distance and load. */
  lemma AssignmentFollowsBurden(orderId: string, candidates: seq<Candidate>, slaPressure: real, selfDelivery: bool,
                                r: AssignResponse)
    requires DistinctCouriers(candidates) && Answers(r, orderId, candidates, slaPressure, selfDelivery)
    ensures r.mode == Courier <==>
              exists c :: c in candidates && Free(c) && Burden(c) as real <= BurdenLimit(slaPressure)
    ensures forall b :: CalledFor(b, candidates, slaPressure) ==>
              && r.mode == Courier && r.courierId == b.courierId
              && 8 * (r.etaSeconds - 181) < b.distanceMeters <= 8 * (r.etaSeconds - 180)
              && CodesTell(r.reasonCodes, b)
    ensures r.mode == Courier ==> exists b :: CalledFor(b, candidates, slaPressure)
  {
    CourierIffSomeoneQualifies(orderId, candidates, slaPressure, selfDelivery, r);
    forall c | c in candidates
      ensures ScoreCandidate(c, slaPressure).score >= 15.0 <==> Free(c) && Burden(c) as real <= BurdenLimit(slaPressure)
    {
      MinimumScoreIsABurdenLimit(c, slaPressure);
    }
    if r.mode == Courier {
      var best := AssignedCourierIsCalledFor(orderId, candidates, slaPressure, selfDelivery, r);
      forall b | CalledFor(b, candidates, slaPressure) ensures b == best {
        BeforeIsTotal(b.courierId, best.courierId);
      }
    }
  }

  /** Three codes: near or far, the load, and eligible. */
  ghost predicate CodesTell(codes: seq<string>, b: Candidate) {
    && |codes| == 3
    && codes[0] == (if b.distanceMeters > 1000 then "DISTANCE_FAR" else "DISTANCE_NEAR")
    && codes[1] == (if b.activeOrders < 2 then "CAPACITY_AVAILABLE" else "CAPACITY_MEDIUM")
    && codes[2] == "ELIGIBLE"
  }

  lemma AssignedCourierIsCalledFor(orderId: string, candidates: seq<Candidate>, slaPressure: real, selfDelivery: bool,
                                   r: AssignResponse) returns (best: Candidate)
    requires DistinctCouriers(candidates) && Answers(r, orderId, candidates, slaPressure, selfDelivery)
    requires r.mode == Courier
    ensures CalledFor(best, candidates, slaPressure) && r.courierId == best.courierId
    ensures 8 * (r.etaSeconds - 181) < best.distanceMeters <= 8 * (r.etaSeconds - 180)
    ensures CodesTell(r.reasonCodes, best)
  {
    var scored :| IsRanking(scored, candidates, slaPressure) &&
                  r == Choose(orderId, candidates, slaPressure, selfDelivery, scored);
    best := HeadIsBest(scored, candidates, slaPressure);
    DistinctLookup(candidates, best);
    MinimumScoreIsABurdenLimit(best, slaPressure);
    FreeCodes(best, slaPressure);
    var b := AssignedCourierIsTheBest(orderId, candidates, slaPressure, selfDelivery, r);
    DistinctLookup(candidates, b);
    assert b == best;
    forall c | c in candidates && Free(c) && c != best
      ensures Burden(best) < Burden(c) || (Burden(best) == Burden(c) && Before(best.courierId, c.courierId))
    {
      BetterIsLessBurdened(best, c, slaPressure);
    }
  }

  lemma FreeCodes(c: Candidate, slaPressure: real)
    requires Free(c)
    ensures CodesTell(ScoreCandidate(c, slaPressure).reasonCodes, c)
  {
  }

  /** A courier who is not free is named with the first reason that applies. */
  lemma ObstacleIsNamed(c: Candidate, slaPressure: real)
    requires !Free(c)
    ensures var s := ScoreCandidate(c, slaPressure);
            && s.score == 0.0 && |s.reasonCodes| == 3
            && (s.reasonCodes[2] == "COURIER_UNAVAILABLE" <==> !c.available)
            && (s.reasonCodes[2] == "LEGAL_REST_REQUIRED" <==> c.available && !c.withinRestWindow)
            && (s.reasonCodes[2] == "CAPACITY_LIMIT_EXCEEDED" <==> c.available && c.withinRestWindow)
            && (s.reasonCodes[1] == "CAPACITY_HIGH" <==> c.activeOrders > 3)
  {
  }

  /** No free courier who is as near and as little loaded as the assigned one is passed over:
      a nearer one carries more orders, and a less loaded one is farther away. */
  lemma NobodyIsPassedOver(orderId: string, candidates: seq<Candidate>, slaPressure: real, selfDelivery: bool,
                           r: AssignResponse, best: Candidate, other: Candidate)
    requires DistinctCouriers(candidates) && Answers(r, orderId, candidates, slaPressure, selfDelivery)
    requires r.mode == Courier && best in candidates && best.courierId == r.courierId
    requires other in candidates && Free(other)
    ensures other.activeOrders <= best.activeOrders ==>
              other.distanceMeters >= best.distanceMeters || other.distanceMeters >= 6000
    ensures other.distanceMeters <= best.distanceMeters ==> other.activeOrders >= best.activeOrders
    ensures best.available && best.withinRestWindow && best.activeOrders < 4
  {
    var b := AssignedCourierIsCalledFor(orderId, candidates, slaPressure, selfDelivery, r);
    DistinctLookup(candidates, b);
    DistinctLookup(candidates, best);
  }

  /** Without a courier the merchant delivers if it may and the pressure is at most 0.9; a
      merchant that may but under more pressure goes to support; any other order stays
      unassigned. The answer names nobody, and begins with the codes that say so. */
  lemma FallbackIsDecidedByPressure(orderId: string, candidates: seq<Candidate>, slaPressure: real,
                                    selfDelivery: bool, r: AssignResponse)
    requires Answers(r, orderId, candidates, slaPressure, selfDelivery) && r.mode != Courier
    ensures r.mode == MerchantSelfDelivery <==> selfDelivery && slaPressure <= 0.9
    ensures r.mode == SupportQueue <==> selfDelivery && slaPressure > 0.9
    ensures r.mode == Unassigned <==> !selfDelivery
    ensures r.assignmentId == "" && r.courierId == "" && r.etaSeconds == 0
    ensures r.reasonCodes != [] && r.reasonCodes[0] == "NO_ELIGIBLE_COURIER"
    ensures r.mode == MerchantSelfDelivery ==>
              |r.reasonCodes| > 1 && r.reasonCodes[1] == "FALLBACK_MERCHANT_SELF_DELIVERY"
    ensures r.mode == SupportQueue ==>
              |r.reasonCodes| > 1 && r.reasonCodes[1] == "SLA_TOO_TIGHT_FOR_MERCHANT_FALLBACK"
  {
    var scored :| IsRanking(scored, candidates, slaPressure) &&
                  r == Choose(orderId, candidates, slaPressure, selfDelivery, scored);
    RankingLength(scored, candidates, slaPressure);
    var fallback := Fallback(slaPressure, selfDelivery);
    if scored == [] {
      FallbackIsDistinct(slaPressure, selfDelivery);
      DedupeKeepsDistinct(fallback);
      assert fallback + TopReasons(scored) == fallback;
    } else {
      var b := HeadIsBest(scored, candidates, slaPressure);
      FallbackKeepsReasons(b, slaPressure, selfDelivery);
    }
  }

  /** A reassignment is the assignment among the others: a courier is passed on unchanged and
      marked; from the third attempt on an unassigned order goes to support instead. The reason
      given comes first. */
  lemma ReassignmentPassesOn(a: AssignResponse, previousAssignmentId: string, reason: string, attempt: int)
    ensures var r := FromAssignment(a, previousAssignmentId, reason, attempt);
            && (r.mode == Courier <==> a.mode == Courier)
            && (r.escalatedToSupport <==> a.mode == Unassigned && attempt > 2)
            && (r.escalatedToSupport ==>
                  r.mode == SupportQueue && r.assignmentId == r.courierId == "" && r.etaSeconds == 0)
            && (!r.escalatedToSupport ==>
                  && r.mode == a.mode && r.assignmentId == a.assignmentId
                  && r.courierId == a.courierId && r.etaSeconds == a.etaSeconds)
            && (reason != "" ==> [reason] + a.reasonCodes <= r.reasonCodes)
            && (reason == "" ==> a.reasonCodes <= r.reasonCodes)
            && |r.reasonCodes| == (if reason == "" then 0 else 1) + |a.reasonCodes| +
                 (if a.mode == Courier then 1
                  else if !r.escalatedToSupport then 0
                  else if previousAssignmentId == "" then 1 else 2)
            && (a.mode == Courier ==> r.reasonCodes[|r.reasonCodes| - 1] == "REASSIGNED")
            && (r.escalatedToSupport && previousAssignmentId == "" ==>
                  r.reasonCodes[|r.reasonCodes| - 1] == "MAX_REASSIGNMENT_ATTEMPTS_REACHED")
            && (r.escalatedToSupport && previousAssignmentId != "" ==>
                  && r.reasonCodes[|r.reasonCodes| - 2] == "MAX_REASSIGNMENT_ATTEMPTS_REACHED"
                  && r.reasonCodes[|r.reasonCodes| - 1] == "PREVIOUS_ASSIGNMENT_" + Sanitize(previousAssignmentId))
  {
  }

  /** An order without a courier escalates exactly from the third attempt on, unless the
      merchant may deliver. */
  lemma EscalationIff(orderId: string, candidates: seq<Candidate>, slaPressure: real, selfDelivery: bool,
                      a: AssignResponse, previousAssignmentId: string, reason: string, attempt: int)
    requires Answers(a, orderId, candidates, slaPressure, selfDelivery)
    ensures FromAssignment(a, previousAssignmentId, reason, attempt).escalatedToSupport <==>
              a.mode != Courier && !selfDelivery && attempt > 2
  {
    if a.mode != Courier { FallbackIsDecidedByPressure(orderId, candidates, slaPressure, selfDelivery, a); }
  }

  // ----- texts -----

  predicate Blank(s: string) {
    forall i :: 0 <= i < |s| ==> IsSpace(s[i])
  }

  /** The blanks, by their codes: tabs and line ends, the space, and two control and Latin-1 blanks. */
  lemma BlanksAre(c: char)
    ensures IsSpace(c) <==> 9 <= c as int <= 13 || c as int in {32, 133, 160}
  {
  }

  lemma {:induction false} TrimDropsBlanks(left: string, s: string, right: string)
    requires Blank(left) && Blank(right)
    requires s != "" ==> !IsSpace(s[0]) && !IsSpace(s[|s| - 1])
    ensures Trim(left + s + right) == s
    decreases |left| + |right|
  {
    var text := left + s + right;
    if left != "" {
      assert text[1..] == left[1..] + s + right;
      TrimDropsBlanks(left[1..], s, right);
    } else if right != "" {
      assert text == s + right;
      if s == "" {
        assert text[1..] == right[1..] && "" + "" + right[1..] == right[1..];
        TrimDropsBlanks("", "", right[1..]);
      } else {
        assert text[0] == s[0] && text[..|text| - 1] == "" + s + right[..|right| - 1];
        TrimDropsBlanks("", s, right[..|right| - 1]);
      }
    } else {
      assert text == s;
    }
  }

  /** The text in an assignment: blanks around it are dropped, inner dashes and spaces become
      underscores, every other character stays, and nothing becomes "na". */
  lemma SanitizedText(left: string, s: string, right: string)
    requires Blank(left) && Blank(right)
    requires s != "" ==> !IsSpace(s[0]) && !IsSpace(s[|s| - 1])
    ensures var r := Sanitize(left + s + right);
            if s == "" then r == "na"
            else |r| == |s| && forall i :: 0 <= i < |s| ==> r[i] == if s[i] == '-' || s[i] == ' ' then '_' else s[i]
  {
    TrimDropsBlanks(left, s, right);
  }

  /** The assignment of a courier is named after order and courier. */
  lemma AssignmentsAreNamed(orderId: string, candidates: seq<Candidate>, slaPressure: real, selfDelivery: bool,
                            r: AssignResponse)
    requires Answers(r, orderId, candidates, slaPressure, selfDelivery) && r.mode == Courier
    ensures r.assignmentId == "asg_" + Sanitize(orderId) + "_" + Sanitize(r.courierId)
  {
  }
}
