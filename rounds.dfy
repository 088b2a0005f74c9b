/** A funding round and the simulation that drives it: the round holds the projects
    and voters and turns their votes into allocations; the simulation casts the
    default ballots, scores the round and resets it for the next run. */
module Rounds {
  import opened Base
  import opened Numerics
  import opened Scoring
  import opened Entities

  /** The vote amounts of each project (get_votes), in project order. */
  function VoteLists(ps: seq<Project>): (r: seq<seq<real>>)
    reads ps`votes
    ensures |r| == |ps| && forall j :: 0 <= j < |ps| ==> r[j] == Amounts(ps[j].votes)
  {
    if ps == [] then [] else VoteLists(ps[..|ps| - 1]) + [Amounts(ps[|ps| - 1].votes)]
  }

  /** The votes each voter has cast, in voter order. */
  function VoterVotes(vs: seq<Voter>): (r: seq<seq<Vote>>)
    reads vs`votes
    ensures |r| == |vs| && forall j :: 0 <= j < |vs| ==> r[j] == vs[j].votes
  {
    if vs == [] then [] else VoterVotes(vs[..|vs| - 1]) + [vs[|vs| - 1].votes]
  }

  /** The votes each project holds, in project order. */
  function HeldVotes(ps: seq<Project>): (r: seq<seq<Vote>>)
    reads ps`votes
    ensures |r| == |ps| && forall j :: 0 <= j < |ps| ==> r[j] == ps[j].votes
  {
    if ps == [] then [] else HeldVotes(ps[..|ps| - 1]) + [ps[|ps| - 1].votes]
  }

  /** The balance of each voter, in voter order. */
  function Balances(vs: seq<Voter>): (r: seq<real>)
    reads vs`balanceOp
    ensures |r| == |vs| && forall j :: 0 <= j < |vs| ==> r[j] == vs[j].balanceOp
  {
    if vs == [] then [] else Balances(vs[..|vs| - 1]) + [vs[|vs| - 1].balanceOp]
  }

  /** The score each project holds, in project order. */
  function ProjectScores(ps: seq<Project>): (r: seq<Option<Num>>)
    reads ps`score
    ensures |r| == |ps| && forall j :: 0 <= j < |ps| ==> r[j] == ps[j].score
  {
    if ps == [] then [] else ProjectScores(ps[..|ps| - 1]) + [ps[|ps| - 1].score]
  }

  /** The scores calculate_allocations leaves on the projects ps, whose vote lists
      were `lists` and whose scores were scores0: every project's own score once the
      scoring succeeds, and otherwise each project's score either as it was or its
      own. */
  ghost predicate ScoresLeft(ps: seq<Project>, scores0: seq<Option<Num>>, lists: seq<seq<real>>,
                             name: string, quorum: int, minAmount: real, ext: Externals)
    reads ps`score
  {
    && |scores0| == |lists| == |ps|
    && (var s := ScoresOf(lists, name, quorum, minAmount, ext);
        s.Success? ==> forall j :: 0 <= j < |ps| ==> ps[j].score == Some(s.value[j]))
    && forall j :: 0 <= j < |ps| ==>
         ps[j].score == scores0[j] ||
         (ps[j].score.Some? && ScoreOf(lists[j], name, quorum, minAmount, ext) == Success(ps[j].score.value))
  }

  class Round {
    const maxFunding: real
    var projects: seq<Project>
    var voters: seq<Voter>
    var numVoters: int
    var numProjects: int

    /** The counters are in step with the lists. */
    ghost predicate Counted()
      reads this
    {
      numProjects == |projects| && numVoters == |voters|
    }

    /** Every project's vote count and every voter's balance agree with their votes. */
    ghost predicate Consistent()
      reads this`projects, this`voters, projects`votes, projects`numVotes, voters`votes, voters`balanceOp
    {
      (forall p :: p in projects ==> p.Valid()) && (forall v :: v in voters ==> v.Valid())
    }

    constructor (maxFunding: real)
      ensures this.maxFunding == maxFunding
      ensures projects == [] && voters == [] && numProjects == 0 && numVoters == 0
      ensures Counted() && Consistent()
    {
      this.maxFunding := maxFunding;
      projects, voters, numVoters, numProjects := [], [], 0, 0;
    }

    method AddProjects(ps: seq<Project>)
      modifies this`projects, this`numProjects
      ensures projects == old(projects) + ps && numProjects == old(numProjects) + |ps|
      ensures old(Counted()) ==> Counted()
    {
      projects := projects + ps;
      numProjects := numProjects + |ps|;
    }

    method AddVoters(vs: seq<Voter>)
      modifies this`voters, this`numVoters
      ensures voters == old(voters) + vs && numVoters == old(numVoters) + |vs|
      ensures old(Counted()) ==> Counted()
    {
      voters := voters + vs;
      numVoters := numVoters + |vs|;
    }

    /** calculate_allocations: score every project (quorum gate, statistic, floor),
        then normalise the scores to max_funding or keep them raw.  The result is
        Allocations of the projects' vote lists; every project's score is set once
        the scoring succeeds and its token amount once the whole call does.  A
        scoring error leaves the projects before the failing one scored and every
        token amount as it was; a zero total raises before any token amount is
        set. */
    method CalculateAllocations(name: string, quorum: int, minAmount: real, normalize: bool, ext: Externals)
      returns (r: Result<seq<Num>>)
      modifies projects`score, projects`tokenAmount
      ensures r == Allocations(old(VoteLists(projects)), name, quorum, minAmount, maxFunding, normalize, ext)
      ensures ScoresLeft(projects, old(ProjectScores(projects)), old(VoteLists(projects)), name, quorum, minAmount, ext)
      ensures r.Success? ==> |r.value| == |projects| && forall j :: 0 <= j < |projects| ==> projects[j].tokenAmount == r.value[j]
      ensures r.Failure? ==> forall p :: p in projects ==> p.tokenAmount == old(p.tokenAmount)
    {
      var s := ScoreProjects(Scorer(name, quorum, minAmount, ext));
      match s
      case Failure(e) =>
        r := Failure(e);
      case Success(scores) =>
        r := PayOut(scores, normalize);
    }

    /** calculate_allocations' first loop: score the projects in order with
        `scorer` and record each score, stopping at the first error. */
    method ScoreProjects(scorer: seq<real> -> Result<Num>) returns (r: Result<seq<Num>>)
      modifies projects`score
      ensures r == ScoresBy(old(VoteLists(projects)), scorer)
      ensures r.Success? ==> forall j :: 0 <= j < |projects| ==> projects[j].score == Some(r.value[j])
      ensures forall j :: 0 <= j < |projects| ==>
        projects[j].score == old(projects[j].score) ||
        (projects[j].score.Some? && scorer(old(VoteLists(projects))[j]) == Success(projects[j].score.value))
    {
      var ps := projects;
      var lists := VoteLists(ps);
      var scores: seq<Num> := [];
      var i := 0;
      while i < |ps|
        invariant 0 <= i <= |ps| && |scores| == i
        invariant forall j :: 0 <= j < i ==> scorer(lists[j]) == Success(scores[j]) && ps[j].score == Some(scores[j])
        invariant forall j :: 0 <= j < |ps| ==>
          ps[j].score == old(ps[j].score) ||
          (ps[j].score.Some? && scorer(lists[j]) == Success(ps[j].score.value))
      {
        var p := ps[i];
        var s := scorer(lists[i]);
        match s
        case Failure(e) =>
          ScoresByFirstFailure(lists, i, scorer, e);
          return Failure(e);
        case Success(x) =>
          forall j | 0 <= j < i && ps[j] == p
            ensures scores[j] == x
          {
            assert lists[j] == lists[i];
          }
          p.score := Some(x);
          scores := scores + [x];
          i := i + 1;
      }
      ScoresByAllSucceed(lists, scores, scorer);
      r := Success(scores);
    }

    /** calculate_allocations' second loop: allocate each project its share of
        max_funding (or its raw score) and record it as the token amount. */
    method PayOut(scores: seq<Num>, normalize: bool) returns (r: Result<seq<Num>>)
      requires |scores| == |projects|
      requires forall j :: 0 <= j < |projects| ==> projects[j].score == Some(scores[j])
      modifies projects`tokenAmount
      ensures r == Normalize(scores, maxFunding, normalize)
      ensures r.Success? ==> |r.value| == |projects| && forall j :: 0 <= j < |projects| ==> projects[j].tokenAmount == r.value[j]
      ensures r.Failure? ==> forall p :: p in projects ==> p.tokenAmount == old(p.tokenAmount)
    {
      NormalizeElementwise(scores, maxFunding, normalize);
      var total := Total(scores);
      var allocations: seq<Num> := [];
      var i := 0;
      while i < |projects|
        invariant 0 <= i <= |projects| && |allocations| == i
        invariant normalize && total == Num(0.0) ==> i == 0
        invariant forall j :: 0 <= j < i ==>
          allocations[j] == NormalizedAt(scores, j, maxFunding, normalize) && projects[j].tokenAmount == allocations[j]
        invariant i == 0 ==> forall p :: p in projects ==> p.tokenAmount == old(p.tokenAmount)
      {
        var a: Num;
        if normalize {
          if total == Num(0.0) {
            return Failure(ZeroDivision);
          }
          a := if total.NaN? || scores[i].NaN? then NaN else Num(Share(scores[i].r, total.r, maxFunding));
        } else {
          a := scores[i];
        }
        assert a == NormalizedAt(scores, i, maxFunding, normalize);
        projects[i].tokenAmount := a;
        allocations := allocations + [a];
        i := i + 1;
      }
      assert allocations == Normalize(scores, maxFunding, normalize).value;
      r := Success(allocations);
    }
  }

  // ------------------------------------------------------ simulate_voting's ballot

  /** Python's int() on a float: truncation toward zero. */
  function Trunc(x: real): (r: int)
    ensures 0.0 <= x ==> 0 <= r && r as real <= x < r as real + 1.0
    ensures x < 0.0 ==> r <= 0 && r as real - 1.0 < x <= r as real
  {
    if 0.0 <= x then x.Floor else -((-x).Floor)
  }

  /** ballot_size: int((1 - laziness_factor) * num_projects). */
  function BallotSize(laziness: real, n: nat): int {
    Trunc((1.0 - laziness) * n as real)
  }

  /** A laziness factor in [0, 1] gives a ballot of between 0 and n places. */
  lemma BallotSizeWithin(laziness: real, n: nat)
    requires 0.0 <= laziness <= 1.0
    ensures 0 <= BallotSize(laziness, n) <= n
  {
    NonNegativeProduct(1.0 - laziness, n as real);
    NonNegativeProduct(laziness, n as real);
    assert (1.0 - laziness) * n as real == n as real - laziness * n as real;
  }

  /** personal_ratings: each project's rating times the voter's subjectivity score
      for it, a uniform draw from [expertise, 2 - expertise). */
  function Perceived(ratings: seq<real>, expertise: real, subjectivity: seq<real>): (r: seq<real>)
    requires |subjectivity| == |ratings|
    ensures |r| == |ratings|
    ensures forall i :: 0 <= i < |r| ==> r[i] == ratings[i] * Uniform(expertise, 2.0 - expertise, subjectivity[i])
  {
    seq(|ratings|, i requires 0 <= i < |ratings| => ratings[i] * Uniform(expertise, 2.0 - expertise, subjectivity[i]))
  }

  /** The ballot simulate_voting casts for one voter: every project, highest
      perceived rating first, each priced by BallotRule with the ballot's size and
      per-place caps; `subjectivity` and `draws` are the voter's fractions in [0, 1). */
  function BallotPlan(size: int, weights: seq<real>, expertise: real, ratings: seq<real>,
                      subjectivity: seq<real>, draws: seq<real>): (plan: Plan)
    requires |subjectivity| == |ratings| == |draws| == |weights|
    ensures Fits(plan, |ratings|) && |plan.targets| == |ratings|
    ensures forall j :: 0 <= j < |ratings| ==> j in plan.targets
    ensures RankedBy(Perceived(ratings, expertise, subjectivity), plan.targets)
    ensures plan.rule == BallotRule(size, weights, draws)
  {
    var keys := Perceived(ratings, expertise, subjectivity);
    RankIsPermutation(keys);
    Plan(Rank(keys), BallotRule(size, weights, draws))
  }

  /** The caps of a ballot as simulate_voting computes them are between 0 and the
      laziness factor, the laziness factor is in [0, 1] and the draws in [0, 1). */
  predicate BallotCaps(size: int, weights: seq<real>, laziness: real, draws: seq<real>) {
    && 0.0 <= laziness <= 1.0
    && |weights| == |draws|
    && forall i :: 0 <= i < |draws| && i < size ==> 0.0 <= weights[i] <= laziness && 0.0 <= draws[i] < 1.0
  }

  /** BallotWeights meets BallotCaps for a laziness factor in [0, 1]. */
  lemma BallotWeightsCaps(size: int, laziness: real, sqrt: real -> real, draws: seq<real>)
    requires IsSqrt(sqrt) && 0.0 <= laziness <= 1.0 && forall i :: 0 <= i < |draws| ==> 0.0 <= draws[i] < 1.0
    ensures BallotCaps(size, BallotWeights(size, laziness, sqrt, |draws|), laziness, draws)
  {
  }

  /** One full ballot over distinct projects gives every project exactly one vote,
      from this voter: the ranking is a permutation. */
  lemma BallotVotesEveryProject(voter: Voter, ps: seq<Project>, plan: Plan, balance0: real, cast: seq<Vote>)
    requires Fits(plan, |ps|) && Distinct(ps) && CastsFollow(voter, ps, plan, balance0, cast)
    requires |cast| == |plan.targets| == |ps| && forall j :: 0 <= j < |ps| ==> j in plan.targets
    ensures forall j :: 0 <= j < |ps| ==>
      |VotesOn(cast, ps[j])| == 1 && VotesOn(cast, ps[j])[0].voter == voter && VotesOn(cast, ps[j])[0].project == ps[j]
  {
    EachTargetGetsItsVote(voter, ps, plan, balance0, cast);
    forall j | 0 <= j < |ps|
      ensures |VotesOn(cast, ps[j])| == 1 && VotesOn(cast, ps[j])[0].voter == voter && VotesOn(cast, ps[j])[0].project == ps[j]
    {
      assert j in plan.targets;
      var i :| 0 <= i < |plan.targets| && plan.targets[i] == j;
      CastsFollowAt(voter, ps, plan, balance0, cast, i);
    }
  }

  /** The rule offers nothing from place `size` on. */
  ghost predicate AbsentPast(rule: OfferRule, size: int) {
    forall i: nat, b: real :: size <= i ==> OfferAt(rule, i, b) == None
  }

  /** Whatever the rule offers at a non-negative balance is at a place before
      `size`, and is below the balance times the laziness factor, which is then at
      least 1. */
  ghost predicate CappedBy(rule: OfferRule, size: int, laziness: real) {
    forall i: nat, b: real :: CappedAt(rule, size, laziness, i, b)
  }

  /** CappedBy at one place and one balance. */
  ghost predicate CappedAt(rule: OfferRule, size: int, laziness: real, i: nat, b: real) {
    0.0 <= b && OfferAt(rule, i, b).Some? ==>
      i < size && 1.0 <= b * laziness && 0.0 <= OfferAt(rule, i, b).value < b * laziness
  }

  /** simulate_voting's pricing offers nothing past the ballot, keeps every offer
      below the balance times the laziness factor and never overspends. */
  lemma BallotRuleCapped(size: int, weights: seq<real>, laziness: real, draws: seq<real>)
    requires BallotCaps(size, weights, laziness, draws)
    ensures AbsentPast(BallotRule(size, weights, draws), size)
    ensures CappedBy(BallotRule(size, weights, draws), size, laziness)
    ensures forall n: nat :: SpendsWithin(BallotRule(size, weights, draws), n)
  {
    var rule := BallotRule(size, weights, draws);
    forall i: nat, b: real | size <= i
      ensures OfferAt(rule, i, b) == None
    {
      assert OfferAt(rule, i, b) == BallotOffer(size, weights, draws, i, b);
    }
    forall i: nat, b: real
      ensures CappedAt(rule, size, laziness, i, b)
    {
      if 0.0 <= b {
        assert OfferAt(rule, i, b) == BallotOffer(size, weights, draws, i, b);
        BallotOfferBelowLaziness(size, weights, laziness, draws, i, b);
      }
    }
    assert BallotInputs(size, weights, draws);
    forall n: nat
      ensures SpendsWithin(rule, n)
    {
      BallotSpendsWithin(size, weights, draws, n);
    }
  }

  /** Projects ranked at or past the ballot size get a vote without an amount. */
  lemma PastSizeAbsent(voter: Voter, ps: seq<Project>, plan: Plan, size: int, balance0: real, cast: seq<Vote>, i: nat)
    requires Fits(plan, |ps|) && CastsFollow(voter, ps, plan, balance0, cast)
    requires AbsentPast(plan.rule, size) && size <= i < |cast|
    ensures cast[i].amount == None
  {
    CastsFollowAt(voter, ps, plan, balance0, cast, i);
    assert OfferAt(plan.rule, i, BalanceLeft(balance0, cast[..i])) == None;
  }

  /** Every amount cast under a capped rule is below the balance b left before it
      times the laziness factor, and that product is at least 1. */
  lemma AmountBelowCap(voter: Voter, ps: seq<Project>, plan: Plan, size: int, laziness: real,
                       balance0: real, cast: seq<Vote>, i: nat, b: real)
    requires Fits(plan, |ps|) && CastsFollow(voter, ps, plan, balance0, cast)
    requires CappedBy(plan.rule, size, laziness) && SpendsWithin(plan.rule, |plan.targets|)
    requires 0.0 <= balance0 && i < |cast| && cast[i].amount.Some?
    requires b == BalanceLeft(balance0, cast[..i])
    ensures i < size && 1.0 <= b * laziness && 0.0 <= cast[i].amount.value < b * laziness
  {
    FollowedUpTo(voter, ps, plan, balance0, cast, i);
    CappedOffer(plan.rule, size, laziness, i, b, cast[i].amount);
  }

  /** The amount of the vote at place i of a followed plan, if any, is the rule's
      offer at the balance left before it, which is still non-negative. */
  lemma FollowedUpTo(voter: Voter, ps: seq<Project>, plan: Plan, balance0: real, cast: seq<Vote>, i: nat)
    requires Fits(plan, |ps|) && CastsFollow(voter, ps, plan, balance0, cast)
    requires SpendsWithin(plan.rule, |plan.targets|) && 0.0 <= balance0 && i < |cast|
    ensures i < |plan.targets| && 0.0 <= BalanceLeft(balance0, cast[..i])
    ensures cast[i].amount.Some? ==> cast[i].amount == OfferAt(plan.rule, i, BalanceLeft(balance0, cast[..i]))
  {
    CastsFollowPrefix(voter, ps, plan, balance0, cast, i);
    FollowKeepsBalance(voter, ps, plan, balance0, cast[..i]);
    CastsFollowAt(voter, ps, plan, balance0, cast, i);
    PrescribedAmount(voter, ps, plan, balance0, cast[..i]);
  }

  /** An offer a capped rule makes at a non-negative balance b is below b times the
      laziness factor. */
  lemma CappedOffer(rule: OfferRule, size: int, laziness: real, i: nat, b: real, offer: Option<real>)
    requires CappedBy(rule, size, laziness) && 0.0 <= b && offer == OfferAt(rule, i, b) && offer.Some?
    ensures i < size && 1.0 <= b * laziness && 0.0 <= offer.value < b * laziness
  {
    assert CappedAt(rule, size, laziness, i, b);
  }

  /** A ballot's offer at a non-negative balance is below the balance times the
      laziness factor, which is then at least 1. */
  lemma BallotOfferBelowLaziness(size: int, weights: seq<real>, laziness: real, draws: seq<real>, i: nat, balance: real)
    requires BallotCaps(size, weights, laziness, draws) && 0.0 <= balance
    ensures var offer := BallotOffer(size, weights, draws, i, balance);
      offer.Some? ==> i < size && 1.0 <= balance * laziness && 0.0 <= offer.value < balance * laziness
  {
    var offer := BallotOffer(size, weights, draws, i, balance);
    assert BallotInputs(size, weights, draws);
    BallotOfferBelowBalance(size, weights, draws, i, balance);
    if offer.Some? {
      CapWithinLaziness(balance, weights[i], laziness, offer.value);
    }
  }

  lemma CapWithinLaziness(balance: real, w: real, laziness: real, a: real)
    requires 0.0 <= balance && 0.0 <= w <= laziness && 1.0 <= balance * w && a < balance * w
    ensures 1.0 <= balance * laziness && a < balance * laziness
  {
    NonNegativeProduct(balance, laziness - w);
    assert balance * (laziness - w) == balance * laziness - balance * w;
  }

  /** The ballot simulate_voting builds for a voter over the projects ps. */
  function BallotOf(voter: Voter, ps: seq<Project>, subjectivity: seq<real>, draws: seq<real>, sqrt: real -> real): (plan: Plan)
    requires |subjectivity| == |ps| == |draws| && IsSqrt(sqrt)
    ensures Fits(plan, |ps|) && |plan.targets| == |ps| && forall j :: 0 <= j < |ps| ==> j in plan.targets
  {
    var size := BallotSize(voter.laziness, |ps|);
    BallotPlan(size, BallotWeights(size, voter.laziness, sqrt, |ps|), voter.expertise, Ratings(ps), subjectivity, draws)
  }

  /** With a laziness factor in [0, 1] and draws in [0, 1), the ballot of a voter
      offers nothing past its ballot size, keeps every amount below the balance times
      the laziness factor and never overspends. */
  lemma BallotOfCapped(voter: Voter, ps: seq<Project>, subjectivity: seq<real>, draws: seq<real>, sqrt: real -> real)
    requires |subjectivity| == |ps| == |draws| && IsSqrt(sqrt) && 0.0 <= voter.laziness <= 1.0
    requires forall i :: 0 <= i < |draws| ==> 0.0 <= draws[i] < 1.0
    ensures var plan := BallotOf(voter, ps, subjectivity, draws, sqrt);
      && AbsentPast(plan.rule, BallotSize(voter.laziness, |ps|))
      && CappedBy(plan.rule, BallotSize(voter.laziness, |ps|), voter.laziness)
      && SpendsWithin(plan.rule, |plan.targets|)
  {
    var size := BallotSize(voter.laziness, |ps|);
    BallotWeightsCaps(size, voter.laziness, sqrt, draws);
    BallotRuleCapped(size, BallotWeights(size, voter.laziness, sqrt, |ps|), voter.laziness, draws);
  }

  /** What simulate_voting promises of one voter's ballot, for any plan whose rule is
      capped as BallotOfCapped shows the ballot's is: the projects ranked at or past
      the ballot size get no amount, and the balance stays between 0 and where it
      started (AmountBelowCap bounds each amount). */
  lemma BallotWithinCaps(voter: Voter, ps: seq<Project>, plan: Plan, size: int, laziness: real,
                         balance0: real, cast: seq<Vote>)
    requires Fits(plan, |ps|) && CastsFollow(voter, ps, plan, balance0, cast) && 0.0 <= balance0
    requires AbsentPast(plan.rule, size) && SpendsWithin(plan.rule, |plan.targets|)
    ensures forall i :: 0 <= i < |cast| && size <= i ==> cast[i].amount == None
    ensures 0.0 <= BalanceLeft(balance0, cast) <= balance0
  {
    FollowKeepsBalance(voter, ps, plan, balance0, cast);
    forall i | 0 <= i < |cast| && size <= i
      ensures cast[i].amount == None
    {
      PastSizeAbsent(voter, ps, plan, size, balance0, cast, i);
    }
  }

  /** simulate_voting's promise for one voter with a laziness factor in [0, 1] and
      draws in [0, 1): casting its ballot from a non-negative balance leaves a balance
      between 0 and where it started. */
  lemma BallotKeepsBalance(voter: Voter, ps: seq<Project>, subjectivity: seq<real>, draws: seq<real>,
                           sqrt: real -> real, balance0: real, cast: seq<Vote>)
    requires |subjectivity| == |ps| == |draws| && IsSqrt(sqrt) && 0.0 <= voter.laziness <= 1.0
    requires forall i :: 0 <= i < |draws| ==> 0.0 <= draws[i] < 1.0
    requires 0.0 <= balance0 && CastsFollow(voter, ps, BallotOf(voter, ps, subjectivity, draws, sqrt), balance0, cast)
    ensures 0.0 <= BalanceLeft(balance0, cast) <= balance0
  {
    var plan := BallotOf(voter, ps, subjectivity, draws, sqrt);
    BallotOfCapped(voter, ps, subjectivity, draws, sqrt);
    BallotWithinCaps(voter, ps, plan, BallotSize(voter.laziness, |ps|), voter.laziness, balance0, cast);
  }

  /** The votes of several voters' casts that are on project p, voter by voter. */
  function Gathered(casts: seq<seq<Vote>>, p: Project): seq<Vote> {
    if casts == [] then [] else Gathered(casts[..|casts| - 1], p) + VotesOn(casts[|casts| - 1], p)
  }

  /** A project that had received the votes of `casts` on it and now receives those
      of one more cast has received the votes of all of them. */
  lemma GatherOne(start: seq<Vote>, before: seq<Vote>, after: seq<Vote>, casts: seq<seq<Vote>>, cast: seq<Vote>, p: Project)
    requires before == start + Gathered(casts, p) && after == before + VotesOn(cast, p)
    ensures after == start + Gathered(casts + [cast], p)
  {
    assert (casts + [cast])[..|casts|] == casts;
  }

  /** One voter's turn in simulate_voting: build the ballot and cast it. */
  method CastBallot(voter: Voter, ps: seq<Project>, subjectivity: seq<real>, draws: seq<real>, sqrt: real -> real)
    returns (ghost plan: Plan, ghost cast: seq<Vote>)
    requires |subjectivity| == |ps| == |draws| && IsSqrt(sqrt)
    requires voter.Valid() && forall q :: q in ps ==> q.Valid()
    modifies voter`votes, voter`balanceOp, ps`votes, ps`numVotes
    ensures plan == BallotOf(voter, ps, subjectivity, draws, sqrt) && |cast| == |ps|
    ensures voter.Valid() && voter.votes == old(voter.votes) + cast
    ensures voter.balanceOp == old(voter.balanceOp) - Sum(Amounts(cast))
    ensures CastsFollow(voter, ps, plan, old(voter.balanceOp), cast)
    ensures forall q :: q in ps ==> q.votes == old(q.votes) + VotesOn(cast, q) && q.Valid()
  {
    var size := BallotSize(voter.laziness, |ps|);
    var weights := BallotWeights(size, voter.laziness, sqrt, |ps|);
    var ballot := BallotPlan(size, weights, voter.expertise, Ratings(ps), subjectivity, draws);
    plan := ballot;
    ghost var k := |voter.votes|;
    voter.FollowPlan(ps, ballot);
    cast := voter.votes[k..];
    SplitAt(voter.votes, k);
  }

  lemma SplitAt<T>(s: seq<T>, k: nat)
    requires k <= |s|
    ensures s[..k] + s[k..] == s
  {
  }

  /** Casts that each hold exactly one vote on p, by the voter in the same place,
      give p one vote per voter, in voter order. */
  lemma {:induction false} GatheredOnePerCast(voters: seq<Voter>, casts: seq<seq<Vote>>, p: Project)
    requires |casts| == |voters|
    requires forall k :: 0 <= k < |casts| ==>
      |VotesOn(casts[k], p)| == 1 && VotesOn(casts[k], p)[0].voter == voters[k] && VotesOn(casts[k], p)[0].project == p
    ensures |Gathered(casts, p)| == |casts|
    ensures forall k :: 0 <= k < |casts| ==> Gathered(casts, p)[k].voter == voters[k] && Gathered(casts, p)[k].project == p
    decreases |casts|
  {
    if casts != [] {
      var m := |casts| - 1;
      assert forall k :: 0 <= k < m ==> casts[..m][k] == casts[k] && voters[..m][k] == voters[k];
      GatheredOnePerCast(voters[..m], casts[..m], p);
    }
  }

  /** Every voter's ballot over distinct projects gives each project one vote per
      voter, in voter order: simulate_voting's "one vote per project per voter". */
  lemma OneVotePerVoter(voters: seq<Voter>, ps: seq<Project>, plans: seq<Plan>, balances: seq<real>,
                        casts: seq<seq<Vote>>, j: nat)
    requires |plans| == |balances| == |casts| == |voters| && Distinct(ps) && j < |ps|
    requires forall k :: 0 <= k < |casts| ==>
      && Fits(plans[k], |ps|) && |casts[k]| == |plans[k].targets| == |ps|
      && (forall i :: 0 <= i < |ps| ==> i in plans[k].targets)
      && CastsFollow(voters[k], ps, plans[k], balances[k], casts[k])
    ensures |Gathered(casts, ps[j])| == |casts|
    ensures forall k :: 0 <= k < |casts| ==> Gathered(casts, ps[j])[k].voter == voters[k] && Gathered(casts, ps[j])[k].project == ps[j]
  {
    forall k | 0 <= k < |casts|
      ensures |VotesOn(casts[k], ps[j])| == 1
      ensures VotesOn(casts[k], ps[j])[0].voter == voters[k] && VotesOn(casts[k], ps[j])[0].project == ps[j]
    {
      BallotVotesEveryProject(voters[k], ps, plans[k], balances[k], casts[k]);
    }
    GatheredOnePerCast(voters, casts, ps[j]);
  }

  /** The first |casts| voters of vs cast the ballots `casts` over ps, each following
      the plan built from its subjectivity and draws, from its balance in balances0. */
  ghost predicate BallotsFollowed(vs: seq<Voter>, ps: seq<Project>, subjectivity: seq<seq<real>>, draws: seq<seq<real>>,
                           sqrt: real -> real, balances0: seq<real>, casts: seq<seq<Vote>>)
  {
    && |casts| <= |vs| == |balances0| == |subjectivity| == |draws| && IsSqrt(sqrt)
    && (forall j :: 0 <= j < |vs| ==> |subjectivity[j]| == |draws[j]| == |ps|)
    && (forall j {:trigger Followed(vs[j], ps, subjectivity[j], draws[j], sqrt, balances0[j], casts[j])} ::
         0 <= j < |casts| ==> Followed(vs[j], ps, subjectivity[j], draws[j], sqrt, balances0[j], casts[j]))
  }

  /** voter, starting from balance0, cast `cast` over ps by following the ballot its
      subjectivity and draws make. */
  ghost predicate Followed(voter: Voter, ps: seq<Project>, subjectivity: seq<real>, draws: seq<real>,
                           sqrt: real -> real, balance0: real, cast: seq<Vote>)
  {
    && |subjectivity| == |ps| == |draws| == |cast| && IsSqrt(sqrt)
    && CastsFollow(voter, ps, BallotOf(voter, ps, subjectivity, draws, sqrt), balance0, cast)
  }

  /** The next voter's ballot extends the ballots followed so far. */
  lemma BallotsFollowedAppend(vs: seq<Voter>, ps: seq<Project>, subjectivity: seq<seq<real>>, draws: seq<seq<real>>,
                       sqrt: real -> real, balances0: seq<real>, casts: seq<seq<Vote>>, cast: seq<Vote>)
    requires BallotsFollowed(vs, ps, subjectivity, draws, sqrt, balances0, casts) && |casts| < |vs|
    requires var k := |casts|; Followed(vs[k], ps, subjectivity[k], draws[k], sqrt, balances0[k], cast)
    ensures BallotsFollowed(vs, ps, subjectivity, draws, sqrt, balances0, casts + [cast])
  {
    var casts' := casts + [cast];
    forall j | 0 <= j < |casts'|
      ensures Followed(vs[j], ps, subjectivity[j], draws[j], sqrt, balances0[j], casts'[j])
    {
      if j < |casts| {
        assert casts'[j] == casts[j];
      }
    }
  }

  /** The state simulate_voting has reached after the first k voters of vs cast the
      ballots `casts` over ps, from the voters' votes0 and balances0 and the projects'
      start votes. */
  ghost predicate VotedSoFar(vs: seq<Voter>, ps: seq<Project>, subjectivity: seq<seq<real>>, draws: seq<seq<real>>,
                             sqrt: real -> real, votes0: seq<seq<Vote>>, balances0: seq<real>,
                             start: map<Project, seq<Vote>>, k: nat, casts: seq<seq<Vote>>)
    reads vs, ps
  {
    && |vs| == |subjectivity| == |draws| && Distinct(vs)
    && IsSqrt(sqrt) && (forall j :: 0 <= j < |vs| ==> |subjectivity[j]| == |draws[j]| == |ps|)
    && VotesAt(VoterVotes(vs), Balances(vs), votes0, balances0, k, casts)
    && (forall j :: 0 <= j < |vs| ==> vs[j].Valid())
    && (forall q :: q in ps ==> q in start && q.votes == start[q] + Gathered(casts, q) && q.Valid())
  }

  /** The votes and balances of voters who started from votes0 and balances0 once the
      first k of them cast the ballots `casts`. */
  ghost predicate VotesAt(votes: seq<seq<Vote>>, balances: seq<real>, votes0: seq<seq<Vote>>, balances0: seq<real>,
                          k: nat, casts: seq<seq<Vote>>)
  {
    && |casts| == k <= |votes| == |balances| == |votes0| == |balances0|
    && (forall j :: 0 <= j < k ==> votes[j] == votes0[j] + casts[j] && balances[j] == balances0[j] - Sum(Amounts(casts[j])))
    && (forall j :: k <= j < |votes| ==> votes[j] == votes0[j] && balances[j] == balances0[j])
  }

  /** The state a run leaves behind: voters who started it holding votes0 and
      balances0, and projects that held held0, once every voter k cast casts[k]; each
      voter's votes grow by its ballot and its balance drops by what the ballot costs,
      and each project gathers the votes cast for it. */
  ghost predicate Voted(vs: seq<Voter>, ps: seq<Project>, votes: seq<seq<Vote>>, balances: seq<real>, held: seq<seq<Vote>>,
                        votes0: seq<seq<Vote>>, balances0: seq<real>, held0: seq<seq<Vote>>, casts: seq<seq<Vote>>)
  {
    && VotesAt(votes, balances, votes0, balances0, |vs|, casts)
    && |held| == |held0| == |ps|
    && forall j :: 0 <= j < |ps| ==> held[j] == held0[j] + Gathered(casts, ps[j])
  }

  /** Voted of the last of i + 1 runs, stated by its index i or by the length of runs. */
  lemma VotedLast(vs: seq<Voter>, ps: seq<Project>, votes: seq<seq<Vote>>, balances: seq<real>, held: seq<seq<Vote>>,
                  votes0: seq<seq<Vote>>, balances0: seq<real>, held0: seq<seq<Vote>>, runs: seq<seq<seq<Vote>>>, i: nat)
    requires |runs| == i + 1
    requires Voted(vs, ps, votes, balances, held, RunStartVotes(i, votes0, |vs|), RunStart(vs, balances0, i),
                   RunStartVotes(i, held0, |ps|), runs[i])
    ensures Voted(vs, ps, votes, balances, held, RunStartVotes(|runs| - 1, votes0, |vs|), RunStart(vs, balances0, |runs| - 1),
                  RunStartVotes(|runs| - 1, held0, |ps|), runs[|runs| - 1])
  {
  }

  /** Before the first turn no ballot is cast and every voter and project is as it was. */
  lemma VotingStarts(vs: seq<Voter>, ps: seq<Project>, subjectivity: seq<seq<real>>, draws: seq<seq<real>>,
                     sqrt: real -> real, start: map<Project, seq<Vote>>, lists0: seq<seq<real>>)
    requires |subjectivity| == |draws| == |vs| && IsSqrt(sqrt) && Distinct(vs)
    requires forall j :: 0 <= j < |vs| ==> |subjectivity[j]| == |draws[j]| == |ps|
    requires (forall v :: v in vs ==> v.Valid()) && (forall q :: q in ps ==> q.Valid())
    requires start == map q | q in ps :: q.votes
    requires lists0 == VoteLists(ps)
    ensures VotedSoFar(vs, ps, subjectivity, draws, sqrt, VoterVotes(vs), Balances(vs), start, 0, [])
    ensures BallotsFollowed(vs, ps, subjectivity, draws, sqrt, Balances(vs), [])
    ensures |lists0| == |ps| && forall j :: 0 <= j < |ps| ==> ps[j] in start && lists0[j] == Amounts(start[ps[j]])
  {
    var votes0, balances0 := VoterVotes(vs), Balances(vs);
    assert BallotsFollowed(vs, ps, subjectivity, draws, sqrt, balances0, []);
    forall j | 0 <= j < |vs|
      ensures vs[j].votes == votes0[j] && vs[j].balanceOp == balances0[j] && vs[j].Valid()
    {
      assert vs[j] in vs;
    }
    forall q | q in ps
      ensures q in start && q.votes == start[q] + Gathered([], q) && q.Valid()
    {
      assert start[q] + Gathered([], q) == start[q];
    }
    forall j | 0 <= j < |ps|
      ensures ps[j] in start && lists0[j] == Amounts(start[ps[j]])
    {
      assert ps[j] in ps;
    }
  }

  /** After the last turn every voter has cast its ballot and every project holds the
      votes of all of them on it. */
  lemma VotingEnds(vs: seq<Voter>, ps: seq<Project>, subjectivity: seq<seq<real>>, draws: seq<seq<real>>,
                   sqrt: real -> real, votes0: seq<seq<Vote>>, balances0: seq<real>,
                   start: map<Project, seq<Vote>>, lists0: seq<seq<real>>, casts: seq<seq<Vote>>)
    requires VotedSoFar(vs, ps, subjectivity, draws, sqrt, votes0, balances0, start, |vs|, casts)
    requires BallotsFollowed(vs, ps, subjectivity, draws, sqrt, balances0, casts)
    requires |lists0| == |ps| && forall j :: 0 <= j < |ps| ==> ps[j] in start && lists0[j] == Amounts(start[ps[j]])
    ensures |casts| == |vs| == |votes0| == |balances0| && forall v :: v in vs ==> v.Valid()
    ensures VotesAt(VoterVotes(vs), Balances(vs), votes0, balances0, |vs|, casts)
    ensures forall q :: q in ps ==> q in start && q.votes == start[q] + Gathered(casts, q) && q.Valid()
    ensures VoteLists(ps) == RunLists(lists0, ps, casts)
  {
    forall j | 0 <= j < |ps|
      ensures VoteLists(ps)[j] == RunLists(lists0, ps, casts)[j]
    {
      assert ps[j] in ps;
      AmountsAppend(start[ps[j]], Gathered(casts, ps[j]));
    }
    forall v | v in vs
      ensures v.Valid()
    {
      var j :| 0 <= j < |vs| && vs[j] == v;
    }
  }

  /** Voter k's turn of simulate_voting, seen from the whole round: the state moves
      from the one the first k ballots leave to the one the first k + 1 leave. */
  method TakeTurn(vs: seq<Voter>, ps: seq<Project>, subjectivity: seq<seq<real>>, draws: seq<seq<real>>, sqrt: real -> real,
                  ghost votes0: seq<seq<Vote>>, ghost balances0: seq<real>, ghost start: map<Project, seq<Vote>>,
                  k: nat, ghost casts: seq<seq<Vote>>)
    returns (ghost casts': seq<seq<Vote>>)
    requires k < |vs| && VotedSoFar(vs, ps, subjectivity, draws, sqrt, votes0, balances0, start, k, casts)
    requires BallotsFollowed(vs, ps, subjectivity, draws, sqrt, balances0, casts)
    modifies vs`votes, vs`balanceOp, ps`votes, ps`numVotes
    ensures VotedSoFar(vs, ps, subjectivity, draws, sqrt, votes0, balances0, start, k + 1, casts')
    ensures BallotsFollowed(vs, ps, subjectivity, draws, sqrt, balances0, casts')
  {
    ghost var votes, balances := VoterVotes(vs), Balances(vs);
    ghost var cast := Turn(vs, ps, subjectivity, draws, sqrt, votes, balances, start, k, casts);
    TurnTaken(vs, votes, balances, votes0, balances0, k, casts, cast);
    BallotsFollowedAppend(vs, ps, subjectivity, draws, sqrt, balances0, casts, cast);
    casts' := casts + [cast];
  }

  /** Voter k's turn of simulate_voting: voter k casts a ballot, which the projects
      gather, and every other voter is left as it was. The voters held votes and
      balances before the turn. */
  method Turn(vs: seq<Voter>, ps: seq<Project>, subjectivity: seq<seq<real>>, draws: seq<seq<real>>, sqrt: real -> real,
              ghost votes: seq<seq<Vote>>, ghost balances: seq<real>,
              ghost start: map<Project, seq<Vote>>, k: nat, ghost casts: seq<seq<Vote>>)
    returns (ghost cast: seq<Vote>)
    requires k < |vs| == |subjectivity| == |draws| && Distinct(vs) && IsSqrt(sqrt)
    requires |subjectivity[k]| == |draws[k]| == |ps|
    requires votes == VoterVotes(vs) && balances == Balances(vs) && forall j :: 0 <= j < |vs| ==> vs[j].Valid()
    requires forall q :: q in ps ==> q in start && q.votes == start[q] + Gathered(casts, q) && q.Valid()
    modifies vs`votes, vs`balanceOp, ps`votes, ps`numVotes
    ensures |cast| == |ps|
    ensures CastsFollow(vs[k], ps, BallotOf(vs[k], ps, subjectivity[k], draws[k], sqrt), balances[k], cast)
    ensures vs[k].votes == votes[k] + cast && vs[k].balanceOp == balances[k] - Sum(Amounts(cast))
    ensures forall j :: 0 <= j < |vs| && j != k ==> vs[j].votes == votes[j] && vs[j].balanceOp == balances[j]
    ensures forall j :: 0 <= j < |vs| ==> vs[j].Valid()
    ensures forall q :: q in ps ==> q in start && q.votes == start[q] + Gathered(casts + [cast], q) && q.Valid()
  {
    cast := CastAndGather(vs[k], ps, subjectivity[k], draws[k], sqrt, start, casts);
    forall j | 0 <= j < |vs| && j != k
      ensures vs[j].votes == votes[j] && vs[j].balanceOp == balances[j]
    {
      assert vs[j] != vs[k];
    }
  }

  /** Voter k's turn takes VotesAt from k to k + 1 voters: the voters held votes and
      balances before the turn, and only voter k's have moved, by the ballot cast. */
  lemma TurnTaken(vs: seq<Voter>, votes: seq<seq<Vote>>, balances: seq<real>,
                  votes0: seq<seq<Vote>>, balances0: seq<real>, k: nat, casts: seq<seq<Vote>>, cast: seq<Vote>)
    requires VotesAt(votes, balances, votes0, balances0, k, casts) && k < |votes| == |vs|
    requires vs[k].votes == votes[k] + cast && vs[k].balanceOp == balances[k] - Sum(Amounts(cast))
    requires forall j :: 0 <= j < |vs| && j != k ==> vs[j].votes == votes[j] && vs[j].balanceOp == balances[j]
    ensures VotesAt(VoterVotes(vs), Balances(vs), votes0, balances0, k + 1, casts + [cast])
  {
    var casts' := casts + [cast];
    forall j | 0 <= j < k + 1
      ensures vs[j].votes == votes0[j] + casts'[j] && vs[j].balanceOp == balances0[j] - Sum(Amounts(casts'[j]))
    {
      if j == k {
        assert votes0[k] + casts'[k] == votes[k] + cast;
      }
    }
  }

  /** CastBallot, seen from the projects: each now holds the votes of one more
      ballot on it. */
  method CastAndGather(voter: Voter, ps: seq<Project>, subjectivity: seq<real>, draws: seq<real>, sqrt: real -> real,
                       ghost start: map<Project, seq<Vote>>, ghost casts: seq<seq<Vote>>)
    returns (ghost cast: seq<Vote>)
    requires |subjectivity| == |ps| == |draws| && IsSqrt(sqrt) && voter.Valid()
    requires forall q :: q in ps ==> q in start && q.votes == start[q] + Gathered(casts, q) && q.Valid()
    modifies voter`votes, voter`balanceOp, ps`votes, ps`numVotes
    ensures |cast| == |ps| && voter.Valid() && voter.votes == old(voter.votes) + cast
    ensures voter.balanceOp == old(voter.balanceOp) - Sum(Amounts(cast))
    ensures CastsFollow(voter, ps, BallotOf(voter, ps, subjectivity, draws, sqrt), old(voter.balanceOp), cast)
    ensures forall q :: q in ps ==> q in start && q.votes == start[q] + Gathered(casts + [cast], q) && q.Valid()
  {
    ghost var plan;
    plan, cast := CastBallot(voter, ps, subjectivity, draws, sqrt);
    forall q | q in ps
      ensures q.votes == start[q] + Gathered(casts + [cast], q)
    {
      GatherOne(start[q], old(q.votes), q.votes, casts, cast, q);
    }
  }

  /** The voters vs cast their ballots over ps in turn. */
  method VoteAll(vs: seq<Voter>, ps: seq<Project>, subjectivity: seq<seq<real>>, draws: seq<seq<real>>, sqrt: real -> real)
    returns (ghost casts: seq<seq<Vote>>)
    requires Distinct(vs) && |subjectivity| == |draws| == |vs| && IsSqrt(sqrt)
    requires forall k :: 0 <= k < |vs| ==> |subjectivity[k]| == |draws[k]| == |ps|
    requires (forall v :: v in vs ==> v.Valid()) && (forall q :: q in ps ==> q.Valid())
    modifies vs`votes, vs`balanceOp, ps`votes, ps`numVotes
    ensures |casts| == |vs| && (forall v :: v in vs ==> v.Valid()) && (forall q :: q in ps ==> q.Valid())
    ensures BallotsFollowed(vs, ps, subjectivity, draws, sqrt, old(Balances(vs)), casts)
    ensures VotesAt(VoterVotes(vs), Balances(vs), old(VoterVotes(vs)), old(Balances(vs)), |vs|, casts)
    ensures forall q :: q in ps ==> q.votes == old(q.votes) + Gathered(casts, q)
    ensures forall j :: 0 <= j < |ps| ==> ps[j].score == old(ps[j].score) && ps[j].tokenAmount == old(ps[j].tokenAmount)
    ensures VoteLists(ps) == RunLists(old(VoteLists(ps)), ps, casts)
  {
    ghost var votes0, balances0, lists0 := VoterVotes(vs), Balances(vs), VoteLists(ps);
    ghost var start := map q | q in ps :: q.votes;
    VotingStarts(vs, ps, subjectivity, draws, sqrt, start, lists0);
    casts := TakeTurns(vs, ps, subjectivity, draws, sqrt, votes0, balances0, start);
    VotingEnds(vs, ps, subjectivity, draws, sqrt, votes0, balances0, start, lists0, casts);
  }

  /** The loop of simulate_voting over the voters: each takes its turn, from the
      state before any ballot to the one all ballots leave. */
  method TakeTurns(vs: seq<Voter>, ps: seq<Project>, subjectivity: seq<seq<real>>, draws: seq<seq<real>>, sqrt: real -> real,
                   ghost votes0: seq<seq<Vote>>, ghost balances0: seq<real>, ghost start: map<Project, seq<Vote>>)
    returns (ghost casts: seq<seq<Vote>>)
    requires VotedSoFar(vs, ps, subjectivity, draws, sqrt, votes0, balances0, start, 0, [])
    requires BallotsFollowed(vs, ps, subjectivity, draws, sqrt, balances0, [])
    modifies vs`votes, vs`balanceOp, ps`votes, ps`numVotes
    ensures VotedSoFar(vs, ps, subjectivity, draws, sqrt, votes0, balances0, start, |vs|, casts)
    ensures BallotsFollowed(vs, ps, subjectivity, draws, sqrt, balances0, casts)
    ensures forall j :: 0 <= j < |ps| ==> ps[j].score == old(ps[j].score) && ps[j].tokenAmount == old(ps[j].tokenAmount)
  {
    casts := [];
    var k := 0;
    while k < |vs|
      invariant 0 <= k <= |vs|
      invariant VotedSoFar(vs, ps, subjectivity, draws, sqrt, votes0, balances0, start, k, casts)
      invariant BallotsFollowed(vs, ps, subjectivity, draws, sqrt, balances0, casts)
    {
      casts := TakeTurn(vs, ps, subjectivity, draws, sqrt, votes0, balances0, start, k, casts);
      k := k + 1;
    }
  }

  /** The vote amounts each project holds after one run of voting: the amounts it
      held before, then those of the run's ballots on it. */
  function RunLists(before: seq<seq<real>>, ps: seq<Project>, casts: seq<seq<Vote>>): (r: seq<seq<real>>)
    requires |before| == |ps|
    ensures |r| == |ps| && forall j :: 0 <= j < |ps| ==> r[j] == before[j] + Amounts(Gathered(casts, ps[j]))
  {
    seq(|ps|, j requires 0 <= j < |ps| => before[j] + Amounts(Gathered(casts, ps[j])))
  }

  /** n empty vote lists: what a reset round's projects hold. */
  function NoVotes<T>(n: nat): (r: seq<seq<T>>)
    ensures |r| == n && forall j :: 0 <= j < n ==> r[j] == []
  {
    seq(n, _ => [])
  }

  /** What the projects or voters hold when run t starts: `first` for the first run,
      n empty lists (after the reset) for every later one. */
  function RunStartVotes<T>(t: nat, first: seq<seq<T>>, n: nat): seq<seq<T>> {
    if t == 0 then first else NoVotes(n)
  }

  /** An allocation counts as a payout when it is a number above 0 (NaN is not). */
  predicate Paid(a: Num) {
    a.Num? && a.r > 0.0
  }

  /** Whether some allocation is a payout, the condition for np.max of the payouts not
      to raise. */
  function AnyPaid(allocations: seq<Num>): (b: bool)
    ensures b <==> exists j :: 0 <= j < |allocations| && Paid(allocations[j])
  {
    if allocations == [] then false else AnyPaid(allocations[..|allocations| - 1]) || Paid(allocations[|allocations| - 1])
  }

  /** The payouts, [a for a in allocations if a > 0]: the allocations that are
      payouts, in order. */
  function Payouts(allocations: seq<Num>): (r: seq<real>)
    ensures forall x :: x in r <==> exists j :: 0 <= j < |allocations| && Paid(allocations[j]) && allocations[j].r == x
    ensures r != [] <==> AnyPaid(allocations)
  {
    if allocations == [] then []
    else
      var last := allocations[|allocations| - 1];
      Payouts(allocations[..|allocations| - 1]) + if Paid(last) then [last.r] else []
  }

  /** Projects that hold no votes have empty vote lists. */
  lemma ResetHoldsNoVotes(ps: seq<Project>)
    requires forall p :: p in ps ==> p.IsReset()
    ensures VoteLists(ps) == NoVotes(|ps|) && HeldVotes(ps) == NoVotes(|ps|)
  {
    assert forall j :: 0 <= j < |ps| ==> ps[j] in ps;
  }

  /** Every voter's budget, total_op: what a reset voter holds as its balance. */
  function Budgets(vs: seq<Voter>): (r: seq<real>)
    ensures |r| == |vs| && forall j :: 0 <= j < |vs| ==> r[j] == vs[j].totalOp
  {
    if vs == [] then [] else Budgets(vs[..|vs| - 1]) + [vs[|vs| - 1].totalOp]
  }

  /** Reset voters hold no votes and their whole budget. */
  lemma ResetHoldsBudgets(vs: seq<Voter>)
    requires forall v :: v in vs ==> v.IsReset()
    ensures VoterVotes(vs) == NoVotes(|vs|) && Balances(vs) == Budgets(vs)
  {
    assert forall j :: 0 <= j < |vs| ==> vs[j] in vs;
  }

  /** The balances the voters start run t from: balances0 for the first run, the
      budgets of the reset voters for every later one. */
  function RunStart(vs: seq<Voter>, balances0: seq<real>, t: nat): seq<real> {
    if t == 0 then balances0 else Budgets(vs)
  }

  /** In every run t so far, each voter cast the ballot its subjectivity[t] and
      draws[t] make, from the balance it started run t with. */
  ghost predicate RunsFollowed(vs: seq<Voter>, ps: seq<Project>, subjectivity: seq<seq<seq<real>>>,
                               draws: seq<seq<seq<real>>>, sqrt: real -> real, balances0: seq<real>,
                               runs: seq<seq<seq<Vote>>>)
  {
    && |runs| <= |subjectivity| == |draws|
    && forall t :: 0 <= t < |runs| ==>
      |runs[t]| == |vs| && BallotsFollowed(vs, ps, subjectivity[t], draws[t], sqrt, RunStart(vs, balances0, t), runs[t])
  }

  /** A run whose ballots all follow their draws extends the followed runs. */
  lemma RunsFollowedAppend(vs: seq<Voter>, ps: seq<Project>, subjectivity: seq<seq<seq<real>>>,
                           draws: seq<seq<seq<real>>>, sqrt: real -> real, balances0: seq<real>,
                           runs: seq<seq<seq<Vote>>>, casts: seq<seq<Vote>>)
    requires RunsFollowed(vs, ps, subjectivity, draws, sqrt, balances0, runs) && |runs| < |subjectivity|
    requires |casts| == |vs|
    requires BallotsFollowed(vs, ps, subjectivity[|runs|], draws[|runs|], sqrt, RunStart(vs, balances0, |runs|), casts)
    ensures RunsFollowed(vs, ps, subjectivity, draws, sqrt, balances0, runs + [casts])
  {
    var runs' := runs + [casts];
    forall t | 0 <= t < |runs'|
      ensures |runs'[t]| == |vs| && BallotsFollowed(vs, ps, subjectivity[t], draws[t], sqrt, RunStart(vs, balances0, t), runs'[t])
    {
      if t < |runs| {
        assert runs'[t] == runs[t];
      }
    }
  }

  /** What calculate_allocations is called with besides the vote lists: the round's
      scoring settings. */
  datatype Settings = Settings(name: string, quorum: int, minAmount: real, funding: real, normalize: bool, ext: Externals)

  /** The allocations the settings sc give the vote lists. */
  function Score(sc: Settings, lists: seq<seq<real>>): Result<seq<Num>> {
    Allocations(lists, sc.name, sc.quorum, sc.minAmount, sc.funding, sc.normalize, sc.ext)
  }

  /** Every run so far reported payouts, and run t's allocations are those scored with
      the settings sc from the votes cast in it on top of what the projects held before
      it: the vote lists `first` for the first run and empty lists (after the reset) for
      every later one. */
  ghost predicate Scored(results: seq<seq<Num>>, runs: seq<seq<seq<Vote>>>, first: seq<seq<real>>, ps: seq<Project>,
                         sc: Settings)
  {
    && |results| == |runs| && |first| == |ps|
    && forall t :: 0 <= t < |results| ==>
      && Success(results[t]) == Score(sc, RunLists(RunStartVotes(t, first, |ps|), ps, runs[t]))
      && AnyPaid(results[t])
  }

  /** A run scored on top of the right vote lists extends the scored runs. */
  lemma ScoredAppend(results: seq<seq<Num>>, runs: seq<seq<seq<Vote>>>, first: seq<seq<real>>, ps: seq<Project>,
                     sc: Settings, a: seq<Num>, casts: seq<seq<Vote>>)
    requires Scored(results, runs, first, ps, sc)
    requires Success(a) == Score(sc, RunLists(RunStartVotes(|results|, first, |ps|), ps, casts))
    requires AnyPaid(a)
    ensures Scored(results + [a], runs + [casts], first, ps, sc)
  {
    var results', runs' := results + [a], runs + [casts];
    forall t | 0 <= t < |results|
      ensures Success(results'[t]) == Score(sc, RunLists(RunStartVotes(t, first, |ps|), ps, runs'[t]))
      ensures AnyPaid(results'[t])
    {
      assert results'[t] == results[t] && runs'[t] == runs[t];
    }
    assert results'[|results|] == a && runs'[|results|] == casts;
  }

  /** A run with allocations a reports payouts: calculate_allocations returned and
      np.max of its payouts does not raise. */
  predicate Pays(a: Result<seq<Num>>) {
    a.Success? && AnyPaid(a.value)
  }

  /** r is how simulate_voting_and_scoring fails on a run whose allocations are a:
      with calculate_allocations' error, or with np.max's on no payouts. */
  predicate StopsWith(r: Result<seq<seq<Num>>>, a: Result<seq<Num>>) {
    if a.Failure? then r == Failure(a.error) else !AnyPaid(a.value) && r == Failure(EmptyMaximum)
  }

  /** A failing run does not report payouts. */
  lemma StopsWithoutPaying(r: Result<seq<seq<Num>>>, a: Result<seq<Num>>)
    requires StopsWith(r, a)
    ensures r.Failure? && !Pays(a)
  {
  }

  /** Each of the first m runs, scored with the settings sc on top of what the projects
      held before it, reported payouts. */
  ghost predicate PaidRuns(runs: seq<seq<seq<Vote>>>, first: seq<seq<real>>, ps: seq<Project>, sc: Settings, m: int) {
    && 0 <= m <= |runs| && |first| == |ps|
    && forall t :: 0 <= t < m ==> Pays(Score(sc, RunLists(RunStartVotes(t, first, |ps|), ps, runs[t])))
  }

  /** How a simulation that made the runs `runs` failed: every run but the last
      reported payouts, and the last one failed, with r. */
  ghost predicate Stopped(r: Result<seq<seq<Num>>>, runs: seq<seq<seq<Vote>>>, first: seq<seq<real>>, ps: seq<Project>,
                          sc: Settings)
  {
    && 0 < |runs| && PaidRuns(runs, first, ps, sc, |runs| - 1)
    && StopsWith(r, Score(sc, RunLists(RunStartVotes(|runs| - 1, first, |ps|), ps, runs[|runs| - 1])))
  }

  /** The scored runs all reported payouts, also once a further run is added. */
  lemma ScoredPaid(results: seq<seq<Num>>, runs: seq<seq<seq<Vote>>>, first: seq<seq<real>>, ps: seq<Project>,
                   sc: Settings, casts: seq<seq<Vote>>)
    requires Scored(results, runs, first, ps, sc)
    ensures PaidRuns(runs + [casts], first, ps, sc, |runs|)
  {
    var runs' := runs + [casts];
    forall t | 0 <= t < |runs|
      ensures Pays(Score(sc, RunLists(RunStartVotes(t, first, |ps|), ps, runs'[t])))
    {
      assert runs'[t] == runs[t];
    }
  }

  /** The loop of reset_round over the projects: reset_project on each. */
  method ResetProjects(ps: seq<Project>)
    modifies ps`votes, ps`numVotes, ps`score, ps`mean, ps`tokenAmount
    ensures forall p :: p in ps ==> p.IsReset() && p.Valid()
  {
    var i := 0;
    while i < |ps|
      invariant 0 <= i <= |ps|
      invariant forall j :: 0 <= j < i ==> ps[j].IsReset()
    {
      ps[i].ResetProject();
      i := i + 1;
    }
  }

  /** The loop of reset_round over the voters: reset_voter on each. */
  method ResetVoters(vs: seq<Voter>)
    modifies vs`votes, vs`balanceOp
    ensures forall v :: v in vs ==> v.IsReset() && v.Valid()
  {
    var i := 0;
    while i < |vs|
      invariant 0 <= i <= |vs|
      invariant forall j :: 0 <= j < i ==> vs[j].IsReset()
    {
      vs[i].ResetVoter();
      i := i + 1;
    }
  }

  class Simulation {
    var round: Round?

    constructor ()
      ensures round == null
    {
      round := null;
    }

    method InitializeRound(maxFunding: real)
      modifies this
      ensures round != null && fresh(round) && round.maxFunding == maxFunding
      ensures round.projects == [] && round.voters == [] && round.Counted() && round.Consistent()
    {
      round := new Round(maxFunding);
    }

    /** simulate_voting: each voter in turn builds its ballot (ballot size, perceived
        ratings, caps) and casts it over the round's projects.  subjectivity[k] and
        draws[k] are voter k's fractions in [0, 1). */
    method SimulateVoting(subjectivity: seq<seq<real>>, draws: seq<seq<real>>, sqrt: real -> real)
      returns (ghost casts: seq<seq<Vote>>)
      requires round != null && round.Counted() && round.Consistent() && Distinct(round.voters)
      requires |subjectivity| == |draws| == |round.voters| && IsSqrt(sqrt)
      requires forall k :: 0 <= k < |round.voters| ==> |subjectivity[k]| == |draws[k]| == |round.projects|
      modifies round.voters`votes, round.voters`balanceOp, round.projects`votes, round.projects`numVotes
      ensures round == old(round) && round.projects == old(round.projects) && round.voters == old(round.voters)
      ensures round.Counted() && round.Consistent() && |casts| == |round.voters|
      ensures forall q :: q in round.projects ==> q.score == old(q.score) && q.tokenAmount == old(q.tokenAmount)
      ensures BallotsFollowed(round.voters, round.projects, subjectivity, draws, sqrt, old(Balances(round.voters)), casts)
      ensures VotesAt(VoterVotes(round.voters), Balances(round.voters), old(VoterVotes(round.voters)),
                      old(Balances(round.voters)), |round.voters|, casts)
      ensures forall q :: q in round.projects ==> q.votes == old(q.votes) + Gathered(casts, q)
      ensures VoteLists(round.projects) == RunLists(old(VoteLists(round.projects)), round.projects, casts)
    {
      var vs, ps := round.voters, round.projects;
      casts := VoteAll(vs, ps, subjectivity, draws, sqrt);
      assert round.voters == vs && round.projects == ps;
    }

    /** calculate_allocations on the round, as allocate_votes and
        simulate_voting_and_scoring call it: only the projects' scores and token
        amounts change. */
    method ScoreRound(name: string, quorum: int, minAmount: real, normalize: bool, ext: Externals)
      returns (a: Result<seq<Num>>)
      requires round != null
      modifies round.projects`score, round.projects`tokenAmount
      ensures a == Allocations(old(VoteLists(round.projects)), name, quorum, minAmount, round.maxFunding, normalize, ext)
      ensures a.Success? ==>
        |a.value| == |round.projects| && forall j :: 0 <= j < |round.projects| ==> round.projects[j].tokenAmount == a.value[j]
      ensures a.Failure? ==> forall q :: q in round.projects ==> q.tokenAmount == old(q.tokenAmount)
      ensures ScoresLeft(round.projects, old(ProjectScores(round.projects)), old(VoteLists(round.projects)),
                         name, quorum, minAmount, ext)
      ensures unchanged(this, round, round.voters)
      ensures forall q :: q in round.projects ==> q.votes == old(q.votes)
    {
      a := round.CalculateAllocations(name, quorum, minAmount, normalize, ext);
    }

    /** allocate_votes: calculate the round's allocations and keep the payouts, the
        allocations above 0. */
    method AllocateVotes(name: string, quorum: int, minAmount: real, normalize: bool, ext: Externals)
      returns (a: Result<seq<Num>>, payouts: seq<real>)
      requires round != null
      modifies round.projects`score, round.projects`tokenAmount
      ensures a == Allocations(old(VoteLists(round.projects)), name, quorum, minAmount, round.maxFunding, normalize, ext)
      ensures a.Success? ==>
        |a.value| == |round.projects| && forall j :: 0 <= j < |round.projects| ==> round.projects[j].tokenAmount == a.value[j]
      ensures a.Success? ==> payouts == Payouts(a.value)
      ensures a.Failure? ==> forall q :: q in round.projects ==> q.tokenAmount == old(q.tokenAmount)
      ensures ScoresLeft(round.projects, old(ProjectScores(round.projects)), old(VoteLists(round.projects)),
                         name, quorum, minAmount, ext)
      ensures unchanged(round.voters)
      ensures forall q :: q in round.projects ==> q.votes == old(q.votes)
    {
      a := ScoreRound(name, quorum, minAmount, normalize, ext);
      payouts := if a.Success? then Payouts(a.value) else [];
    }

    /** One run's voting and scoring: cast the default ballots, then calculate the
        allocations of the votes the projects hold. */
    method VoteAndScore(name: string, quorum: int, minAmount: real, normalize: bool, ext: Externals,
                        subjectivity: seq<seq<real>>, draws: seq<seq<real>>)
      returns (a: Result<seq<Num>>, ghost casts: seq<seq<Vote>>)
      requires round != null && round.Counted() && round.Consistent() && Distinct(round.voters)
      requires |subjectivity| == |draws| == |round.voters| && IsSqrt(ext.sqrt)
      requires forall k :: 0 <= k < |round.voters| ==> |subjectivity[k]| == |draws[k]| == |round.projects|
      modifies round.projects`votes, round.projects`numVotes, round.projects`score, round.projects`mean, round.projects`tokenAmount,
               round.voters`votes, round.voters`balanceOp
      ensures round.projects == old(round.projects) && round.voters == old(round.voters)
      ensures round.numProjects == old(round.numProjects) && round.numVoters == old(round.numVoters)
      ensures |casts| == |round.voters|
      ensures BallotsFollowed(round.voters, round.projects, subjectivity, draws, ext.sqrt, old(Balances(round.voters)), casts)
      ensures VotesAt(VoterVotes(round.voters), Balances(round.voters), old(VoterVotes(round.voters)),
                      old(Balances(round.voters)), |round.voters|, casts)
      ensures forall q :: q in round.projects ==> q.votes == old(q.votes) + Gathered(casts, q)
      ensures a.Success? ==>
        |a.value| == |round.projects| && forall j :: 0 <= j < |round.projects| ==> round.projects[j].tokenAmount == a.value[j]
      ensures a.Failure? ==> forall q :: q in round.projects ==> q.tokenAmount == old(q.tokenAmount)
      ensures ScoresLeft(round.projects, old(ProjectScores(round.projects)), RunLists(old(VoteLists(round.projects)), old(round.projects), casts),
                         name, quorum, minAmount, ext)
      ensures a == Allocations(RunLists(old(VoteLists(round.projects)), old(round.projects), casts),
                               name, quorum, minAmount, old(round.maxFunding), normalize, ext)
    {
      ghost var lists0, scores0 := VoteLists(round.projects), ProjectScores(round.projects);
      casts := SimulateVoting(subjectivity, draws, ext.sqrt);
      assert ProjectScores(round.projects) == scores0;
      ghost var lists := VoteLists(round.projects);
      assert lists == RunLists(lists0, round.projects, casts);
      a := ScoreRound(name, quorum, minAmount, normalize, ext);
    }

    /** simulate_voting_and_scoring: n runs, each casting the default ballots, scoring
        the round and resetting it.  Each run's allocations are those of the votes cast
        in it, on top of what the round held before the first run; a run with no
        payout fails as np.max of the empty payouts does, before the reset, and no run
        at all fails as results[0] does.  Run t uses subjectivity[t] and draws[t]; runs
        holds the ballots of every run made, the failing one included, and a failing
        run leaves the round as its ballots made it. */
    method SimulateVotingAndScoring(n: int, name: string, quorum: int, minAmount: real, normalize: bool, ext: Externals,
                                    subjectivity: seq<seq<seq<real>>>, draws: seq<seq<seq<real>>>)
      returns (r: Result<seq<seq<Num>>>, ghost runs: seq<seq<seq<Vote>>>)
      requires round != null && round.Counted() && round.Consistent() && Distinct(round.voters)
      requires n <= |subjectivity| == |draws| && IsSqrt(ext.sqrt)
      requires forall t :: 0 <= t < |subjectivity| ==> |subjectivity[t]| == |draws[t]| == |round.voters|
      requires forall t, k :: 0 <= t < |subjectivity| && 0 <= k < |round.voters| ==>
        |subjectivity[t][k]| == |draws[t][k]| == |round.projects|
      modifies round.projects`votes, round.projects`numVotes, round.projects`score, round.projects`mean, round.projects`tokenAmount,
               round.voters`votes, round.voters`balanceOp
      ensures n <= 0 ==> r == Failure(NoResults) && runs == []
      ensures r.Success? ==> |r.value| == n && RoundIsReset()
      ensures r.Success? ==> Scored(r.value, runs, old(VoteLists(round.projects)), round.projects,
                                    Settings(name, quorum, minAmount, round.maxFunding, normalize, ext))
      ensures RunsFollowed(round.voters, round.projects, subjectivity, draws, ext.sqrt, old(Balances(round.voters)), runs)
      ensures r.Failure? && 0 < n ==> 0 < |runs| <= n
      ensures r.Failure? && 0 < n ==>
        Voted(round.voters, round.projects, VoterVotes(round.voters), Balances(round.voters), HeldVotes(round.projects),
              RunStartVotes(|runs| - 1, old(VoterVotes(round.voters)), |round.voters|),
              RunStart(round.voters, old(Balances(round.voters)), |runs| - 1),
              RunStartVotes(|runs| - 1, old(HeldVotes(round.projects)), |round.projects|), runs[|runs| - 1])
      ensures r.Failure? && 0 < n ==>
        Stopped(r, runs, old(VoteLists(round.projects)), round.projects,
                Settings(name, quorum, minAmount, round.maxFunding, normalize, ext))
    {
      r, runs := Simulate(n, name, quorum, minAmount, round.maxFunding, normalize, ext, subjectivity, draws, round.projects, round.voters,
                          VoteLists(round.projects), HeldVotes(round.projects), VoterVotes(round.voters), Balances(round.voters));
    }

    /** The loop of simulate_voting_and_scoring, over the round's projects ps and
        voters vs. */
    method Simulate(n: int, name: string, quorum: int, minAmount: real, funding: real, normalize: bool, ext: Externals,
                    subjectivity: seq<seq<seq<real>>>, draws: seq<seq<seq<real>>>, ps: seq<Project>, vs: seq<Voter>,
                    ghost lists0: seq<seq<real>>, ghost held0: seq<seq<Vote>>, ghost votes0: seq<seq<Vote>>, ghost balances0: seq<real>)
      returns (r: Result<seq<seq<Num>>>, ghost runs: seq<seq<seq<Vote>>>)
      requires round != null && round.projects == ps && round.voters == vs && round.maxFunding == funding
      requires round.Counted() && round.Consistent() && Distinct(vs)
      requires VoteLists(ps) == lists0 && HeldVotes(ps) == held0 && VoterVotes(vs) == votes0 && Balances(vs) == balances0
      requires n <= |subjectivity| == |draws| && IsSqrt(ext.sqrt)
      requires forall t :: 0 <= t < |subjectivity| ==> |subjectivity[t]| == |draws[t]| == |vs|
      requires forall t, k :: 0 <= t < |subjectivity| && 0 <= k < |vs| ==> |subjectivity[t][k]| == |draws[t][k]| == |ps|
      modifies ps`votes, ps`numVotes, ps`score, ps`mean, ps`tokenAmount, vs`votes, vs`balanceOp
      ensures n <= 0 ==> r == Failure(NoResults) && runs == []
      ensures r.Success? ==> |r.value| == n && RoundIsReset()
      ensures r.Success? ==> Scored(r.value, runs, lists0, ps, Settings(name, quorum, minAmount, funding, normalize, ext))
      ensures RunsFollowed(vs, ps, subjectivity, draws, ext.sqrt, balances0, runs)
      ensures r.Failure? && 0 < n ==> 0 < |runs| <= n
      ensures r.Failure? && 0 < n ==>
        Voted(vs, ps, VoterVotes(vs), Balances(vs), HeldVotes(ps), RunStartVotes(|runs| - 1, votes0, |vs|),
              RunStart(vs, balances0, |runs| - 1), RunStartVotes(|runs| - 1, held0, |ps|), runs[|runs| - 1])
      ensures r.Failure? && 0 < n ==> Stopped(r, runs, lists0, ps, Settings(name, quorum, minAmount, funding, normalize, ext))
    {
      var results: seq<seq<Num>> := [];
      runs := [];
      var i, stop := 0, false;
      r := Failure(NoResults);
      ProgressStarts(n, Settings(name, quorum, minAmount, funding, normalize, ext), subjectivity, draws, lists0, held0, votes0, balances0);
      while i < n && !stop
        invariant Progress(n, i, stop, r, results, runs, Settings(name, quorum, minAmount, funding, normalize, ext),
                           subjectivity, draws, lists0, held0, votes0, balances0)
        decreases n - i, !stop
      {
        i, stop, r, results, runs := Step(n, i, name, quorum, minAmount, funding, normalize, ext, subjectivity, draws, ps, vs,
                                          lists0, held0, votes0, balances0, r, results, runs);
      }
      ghost var r0 := r;
      if !stop && 0 < n {
        r := Success(results);
      }
      ProgressEnds(n, i, stop, r0, r, results, runs, name, quorum, minAmount, funding, normalize, ext,
                   subjectivity, draws, ps, vs, lists0, held0, votes0, balances0);
    }

    /** Before the first run the loop has results [] and runs [], and the round is
        ready for run 0. */
    lemma ProgressStarts(n: int, sc: Settings, subjectivity: seq<seq<seq<real>>>, draws: seq<seq<seq<real>>>,
                         lists0: seq<seq<real>>, held0: seq<seq<Vote>>, votes0: seq<seq<Vote>>, balances0: seq<real>)
      requires round != null && round.Consistent() && |subjectivity| == |draws|
      requires VoteLists(round.projects) == lists0 && HeldVotes(round.projects) == held0
      requires VoterVotes(round.voters) == votes0 && Balances(round.voters) == balances0
      ensures Progress(n, 0, false, Failure(NoResults), [], [], sc, subjectivity, draws, lists0, held0, votes0, balances0)
    {
    }

    /** When the loop ends, the outcome of simulate_voting_and_scoring is r: the
        results of all n runs when none stopped it, the stopping run's error when one
        did (the round then as that run's ballots left it), NoResults when n <= 0. */
    lemma ProgressEnds(n: int, i: int, stop: bool, r0: Result<seq<seq<Num>>>, r: Result<seq<seq<Num>>>,
                       results: seq<seq<Num>>, runs: seq<seq<seq<Vote>>>,
                       name: string, quorum: int, minAmount: real, funding: real, normalize: bool, ext: Externals,
                       subjectivity: seq<seq<seq<real>>>, draws: seq<seq<seq<real>>>, ps: seq<Project>, vs: seq<Voter>,
                       lists0: seq<seq<real>>, held0: seq<seq<Vote>>, votes0: seq<seq<Vote>>, balances0: seq<real>)
      requires round != null && round.projects == ps && round.voters == vs
      requires Progress(n, i, stop, r0, results, runs, Settings(name, quorum, minAmount, funding, normalize, ext),
                        subjectivity, draws, lists0, held0, votes0, balances0)
      requires !(i < n && !stop) && r == if !stop && 0 < n then Success(results) else r0
      ensures n <= 0 ==> r == Failure(NoResults) && runs == []
      ensures r.Success? ==> |r.value| == n && RoundIsReset()
      ensures r.Success? ==> Scored(r.value, runs, lists0, ps, Settings(name, quorum, minAmount, funding, normalize, ext))
      ensures RunsFollowed(vs, ps, subjectivity, draws, ext.sqrt, balances0, runs)
      ensures r.Failure? && 0 < n ==> 0 < |runs| <= n
      ensures r.Failure? && 0 < n ==>
        Voted(vs, ps, VoterVotes(vs), Balances(vs), HeldVotes(ps), RunStartVotes(|runs| - 1, votes0, |vs|),
              RunStart(vs, balances0, |runs| - 1), RunStartVotes(|runs| - 1, held0, |ps|), runs[|runs| - 1])
      ensures r.Failure? && 0 < n ==> Stopped(r, runs, lists0, ps, Settings(name, quorum, minAmount, funding, normalize, ext))
    {
      if stop {
        VotedLast(vs, ps, VoterVotes(vs), Balances(vs), HeldVotes(ps), votes0, balances0, held0, runs, i);
      }
    }

    /** Where the loop of simulate_voting_and_scoring stands after i runs: the first i
        runs reported payouts and run i failed (stop), with its own error, leaving the
        round as its ballots made it; or every run so far
        reported payouts, their allocations are the results and the round is ready
        for run i. */
    ghost predicate Progress(n: int, i: int, stop: bool, r: Result<seq<seq<Num>>>, results: seq<seq<Num>>,
                             runs: seq<seq<seq<Vote>>>, sc: Settings, subjectivity: seq<seq<seq<real>>>,
                             draws: seq<seq<seq<real>>>, lists0: seq<seq<real>>, held0: seq<seq<Vote>>,
                             votes0: seq<seq<Vote>>, balances0: seq<real>)
      requires round != null
      reads this, round, round.projects, round.voters
    {
      var ps, vs := round.projects, round.voters;
      && 0 <= i <= (if 0 < n then n else 0) && |runs| == (if stop then i + 1 else i)
      && RunsFollowed(vs, ps, subjectivity, draws, sc.ext.sqrt, balances0, runs)
      && (stop ==> r.Failure? && i < n)
      && (stop ==> Stopped(r, runs, lists0, ps, sc))
      && (n <= 0 ==> r == Failure(NoResults))
      && (stop ==>
            Voted(vs, ps, VoterVotes(vs), Balances(vs), HeldVotes(ps), RunStartVotes(i, votes0, |vs|),
                  RunStart(vs, balances0, i), RunStartVotes(i, held0, |ps|), runs[i]))
      && (!stop ==> |results| == i && Ready(i, lists0, held0, votes0, balances0) && Scored(results, runs, lists0, ps, sc))
    }

    /** Run i of simulate_voting_and_scoring with its report: a run that fails or has
        no payout stops the simulation with its error; any other adds its allocations
        to the results and moves on to run i + 1. */
    method Step(n: int, i: nat, name: string, quorum: int, minAmount: real, funding: real, normalize: bool, ext: Externals,
                subjectivity: seq<seq<seq<real>>>, draws: seq<seq<seq<real>>>, ps: seq<Project>, vs: seq<Voter>,
                ghost lists0: seq<seq<real>>, ghost held0: seq<seq<Vote>>, ghost votes0: seq<seq<Vote>>,
                ghost balances0: seq<real>, r: Result<seq<seq<Num>>>, results: seq<seq<Num>>, ghost runs: seq<seq<seq<Vote>>>)
      returns (i': nat, stop: bool, r': Result<seq<seq<Num>>>, results': seq<seq<Num>>, ghost runs': seq<seq<seq<Vote>>>)
      requires round != null && round.projects == ps && round.voters == vs && round.maxFunding == funding
      requires round.Counted() && Distinct(vs) && i < n <= |subjectivity| == |draws| && IsSqrt(ext.sqrt)
      requires |subjectivity[i]| == |draws[i]| == |vs|
      requires forall k :: 0 <= k < |vs| ==> |subjectivity[i][k]| == |draws[i][k]| == |ps|
      requires Progress(n, i, false, r, results, runs, Settings(name, quorum, minAmount, funding, normalize, ext),
                        subjectivity, draws, lists0, held0, votes0, balances0)
      modifies ps`votes, ps`numVotes, ps`score, ps`mean, ps`tokenAmount, vs`votes, vs`balanceOp
      ensures i' == if stop then i else i + 1
      ensures Progress(n, i', stop, r', results', runs', Settings(name, quorum, minAmount, funding, normalize, ext),
                       subjectivity, draws, lists0, held0, votes0, balances0)
      ensures |runs'| == i + 1 && (stop <==> !Pays(Score(Settings(name, quorum, minAmount, funding, normalize, ext), RunLists(RunStartVotes(i, lists0, |ps|), ps, runs'[i]))))
    {
      ghost var casts;
      var a;
      a, casts := Run(i, name, quorum, minAmount, funding, normalize, ext, subjectivity, draws, ps, vs,
                      lists0, held0, votes0, balances0, runs);
      runs' := runs + [casts];
      if a.Failure? || !AnyPaid(a.value) {
        r' := if a.Failure? then Failure(a.error) else Failure(EmptyMaximum);
        StepStops(n, i, a, r', r, results, runs, casts, name, quorum, minAmount, funding, normalize, ext,
                  subjectivity, draws, ps, vs, lists0, held0, votes0, balances0);
        i', stop, results' := i, true, results;
      } else {
        StepGoes(n, i, r, results, runs, a.value, casts, name, quorum, minAmount, funding, normalize, ext,
                 subjectivity, draws, ps, vs, lists0, held0, votes0, balances0);
        i', stop, r', results' := i + 1, false, Success([]), results + [a.value];
      }
    }

    /** A run i that fails leaves the loop stopped with its error r', the round as the
        run's ballots casts left it. */
    lemma StepStops(n: int, i: nat, a: Result<seq<Num>>, r': Result<seq<seq<Num>>>, r: Result<seq<seq<Num>>>, results: seq<seq<Num>>,
                    runs: seq<seq<seq<Vote>>>, casts: seq<seq<Vote>>,
                    name: string, quorum: int, minAmount: real, funding: real, normalize: bool, ext: Externals,
                    subjectivity: seq<seq<seq<real>>>, draws: seq<seq<seq<real>>>, ps: seq<Project>, vs: seq<Voter>,
                    lists0: seq<seq<real>>, held0: seq<seq<Vote>>, votes0: seq<seq<Vote>>, balances0: seq<real>)
      requires round != null && round.projects == ps && round.voters == vs
      requires i < n && |runs| == i
      requires Scored(results, runs, lists0, ps, Settings(name, quorum, minAmount, funding, normalize, ext))
      requires a == Score(Settings(name, quorum, minAmount, funding, normalize, ext), RunLists(RunStartVotes(i, lists0, |ps|), ps, casts)) && StopsWith(r', a)
      requires RunsFollowed(vs, ps, subjectivity, draws, ext.sqrt, balances0, runs + [casts])
      requires Voted(vs, ps, VoterVotes(vs), Balances(vs), HeldVotes(ps), RunStartVotes(i, votes0, |vs|),
                     RunStart(vs, balances0, i), RunStartVotes(i, held0, |ps|), casts)
      ensures Progress(n, i, true, r', results, runs + [casts], Settings(name, quorum, minAmount, funding, normalize, ext),
                       subjectivity, draws, lists0, held0, votes0, balances0)
      ensures !Pays(Score(Settings(name, quorum, minAmount, funding, normalize, ext), RunLists(RunStartVotes(i, lists0, |ps|), ps, (runs + [casts])[i])))
    {
      assert (runs + [casts])[i] == casts;
      ScoredPaid(results, runs, lists0, ps, Settings(name, quorum, minAmount, funding, normalize, ext), casts);
      StopsWithoutPaying(r', a);
    }

    /** A run i that reports the payouts a, after which the round is reset, moves the
        loop on to run i + 1 with a added to the results. */
    lemma StepGoes(n: int, i: nat, r: Result<seq<seq<Num>>>, results: seq<seq<Num>>, runs: seq<seq<seq<Vote>>>,
                   a: seq<Num>, casts: seq<seq<Vote>>,
                   name: string, quorum: int, minAmount: real, funding: real, normalize: bool, ext: Externals,
                   subjectivity: seq<seq<seq<real>>>, draws: seq<seq<seq<real>>>, ps: seq<Project>, vs: seq<Voter>,
                   lists0: seq<seq<real>>, held0: seq<seq<Vote>>, votes0: seq<seq<Vote>>, balances0: seq<real>)
      requires round != null && round.projects == ps && round.voters == vs
      requires i < n && |runs| == i && |results| == i
      requires Scored(results, runs, lists0, ps, Settings(name, quorum, minAmount, funding, normalize, ext))
      requires RunsFollowed(vs, ps, subjectivity, draws, ext.sqrt, balances0, runs + [casts])
      requires Success(a) == Score(Settings(name, quorum, minAmount, funding, normalize, ext), RunLists(RunStartVotes(i, lists0, |ps|), ps, casts))
      requires AnyPaid(a) && RoundIsReset() && round.Consistent()
      ensures Progress(n, i + 1, false, Success([]), results + [a], runs + [casts],
                       Settings(name, quorum, minAmount, funding, normalize, ext),
                       subjectivity, draws, lists0, held0, votes0, balances0)
      ensures Pays(Score(Settings(name, quorum, minAmount, funding, normalize, ext), RunLists(RunStartVotes(i, lists0, |ps|), ps, (runs + [casts])[i])))
    {
      ScoredAppend(results, runs, lists0, ps, Settings(name, quorum, minAmount, funding, normalize, ext), a, casts);
      assert (runs + [casts])[i] == casts;
    }

    /** Run |runs| of simulate_voting_and_scoring, the body of its loop: vote and score
        the round, and reset it when the run has a payout; a run without one is left
        as it voted, for np.max to fail on its empty payouts.  The first run starts
        from the vote lists lists0, the held votes held0, the voters' votes0 and
        balances0; every later one from the reset round.  casts are the run's
        ballots, one per voter. */
    method Run(t: nat, name: string, quorum: int, minAmount: real, funding: real, normalize: bool, ext: Externals,
               subjectivity: seq<seq<seq<real>>>, draws: seq<seq<seq<real>>>, ps: seq<Project>, vs: seq<Voter>,
               ghost lists0: seq<seq<real>>, ghost held0: seq<seq<Vote>>, ghost votes0: seq<seq<Vote>>,
               ghost balances0: seq<real>, ghost runs: seq<seq<seq<Vote>>>)
      returns (a: Result<seq<Num>>, ghost casts: seq<seq<Vote>>)
      requires round != null && round.projects == ps && round.voters == vs && round.maxFunding == funding
      requires round.Counted() && round.Consistent() && Distinct(vs)
      requires t == |runs| < |subjectivity| == |draws| && IsSqrt(ext.sqrt)
      requires |subjectivity[t]| == |draws[t]| == |vs|
      requires forall k :: 0 <= k < |vs| ==> |subjectivity[t][k]| == |draws[t][k]| == |ps|
      requires t == 0 ==> VoteLists(ps) == lists0 && HeldVotes(ps) == held0 && VoterVotes(vs) == votes0 && Balances(vs) == balances0
      requires 0 < t ==> RoundIsReset()
      requires RunsFollowed(vs, ps, subjectivity, draws, ext.sqrt, balances0, runs)
      modifies ps`votes, ps`numVotes, ps`score, ps`mean, ps`tokenAmount, vs`votes, vs`balanceOp
      ensures RunsFollowed(vs, ps, subjectivity, draws, ext.sqrt, balances0, runs + [casts])
      ensures a.Success? && AnyPaid(a.value) ==> RoundIsReset() && round.Consistent()
      ensures a.Failure? || !AnyPaid(a.value) ==>
        Voted(vs, ps, VoterVotes(vs), Balances(vs), HeldVotes(ps), RunStartVotes(t, votes0, |vs|),
              RunStart(vs, balances0, t), RunStartVotes(t, held0, |ps|), casts)
      ensures a == Score(Settings(name, quorum, minAmount, funding, normalize, ext), RunLists(RunStartVotes(t, lists0, |ps|), ps, casts))
    {
      RunStarts(t, ps, vs, lists0, held0, votes0, balances0);
      a, casts := Pass(t, name, quorum, minAmount, funding, normalize, ext, subjectivity, draws, ps, vs,
                       RunStartVotes(t, lists0, |ps|), RunStartVotes(t, held0, |ps|), RunStartVotes(t, votes0, |vs|),
                       balances0, runs);
      if a.Success? && AnyPaid(a.value) {
        ResetCounted(ps, vs);
      }
    }

    /** What run t starts from: the round as the simulation found it for the first
        run, the reset round for every later one. */
    lemma RunStarts(t: nat, ps: seq<Project>, vs: seq<Voter>, lists0: seq<seq<real>>, held0: seq<seq<Vote>>,
                    votes0: seq<seq<Vote>>, balances0: seq<real>)
      requires round != null && round.projects == ps && round.voters == vs
      requires t == 0 ==> VoteLists(ps) == lists0 && HeldVotes(ps) == held0 && VoterVotes(vs) == votes0 && Balances(vs) == balances0
      requires 0 < t ==> RoundIsReset()
      ensures VoteLists(ps) == RunStartVotes(t, lists0, |ps|) && HeldVotes(ps) == RunStartVotes(t, held0, |ps|)
      ensures VoterVotes(vs) == RunStartVotes(t, votes0, |vs|) && Balances(vs) == RunStart(vs, balances0, t)
    {
      if 0 < t {
        ResetHoldsNoVotes(ps);
        ResetHoldsBudgets(vs);
      }
    }

    /** reset_round on a round whose counts match its lists, with projects ps and
        voters vs: every project and voter is back in its initial state. */
    method ResetCounted(ps: seq<Project>, vs: seq<Voter>)
      requires round != null && round.projects == ps && round.voters == vs && round.Counted()
      modifies ps`votes, ps`numVotes, ps`score, ps`mean, ps`tokenAmount, vs`votes, vs`balanceOp
      ensures RoundIsReset() && round.Consistent()
    {
      ResetRound();
    }

    /** Run |runs| of simulate_voting_and_scoring up to its report: the voters cast the
        ballots their draws make from the balances they start the run with, and the
        round is scored on the votes the projects then hold. */
    method Pass(t: nat, name: string, quorum: int, minAmount: real, funding: real, normalize: bool, ext: Externals,
                subjectivity: seq<seq<seq<real>>>, draws: seq<seq<seq<real>>>, ps: seq<Project>, vs: seq<Voter>,
                ghost listsB: seq<seq<real>>, ghost heldB: seq<seq<Vote>>, ghost votesB: seq<seq<Vote>>,
                ghost balances0: seq<real>, ghost runs: seq<seq<seq<Vote>>>)
      returns (a: Result<seq<Num>>, ghost casts: seq<seq<Vote>>)
      requires round != null && round.projects == ps && round.voters == vs && round.maxFunding == funding
      requires round.Counted() && round.Consistent() && Distinct(vs)
      requires t == |runs| < |subjectivity| == |draws| && IsSqrt(ext.sqrt)
      requires |subjectivity[t]| == |draws[t]| == |vs|
      requires forall k :: 0 <= k < |vs| ==> |subjectivity[t][k]| == |draws[t][k]| == |ps|
      requires VoteLists(ps) == listsB && HeldVotes(ps) == heldB && VoterVotes(vs) == votesB
      requires Balances(vs) == RunStart(vs, balances0, t)
      requires RunsFollowed(vs, ps, subjectivity, draws, ext.sqrt, balances0, runs)
      modifies ps`votes, ps`numVotes, ps`score, ps`mean, ps`tokenAmount, vs`votes, vs`balanceOp
      ensures round.projects == ps && round.voters == vs && round.Counted()
      ensures RunsFollowed(vs, ps, subjectivity, draws, ext.sqrt, balances0, runs + [casts])
      ensures Voted(vs, ps, VoterVotes(vs), Balances(vs), HeldVotes(ps), votesB, RunStart(vs, balances0, t), heldB, casts)
      ensures a == Score(Settings(name, quorum, minAmount, funding, normalize, ext), RunLists(listsB, ps, casts))
    {
      a, casts := VoteAndScore(name, quorum, minAmount, normalize, ext, subjectivity[t], draws[t]);
      RunsFollowedAppend(vs, ps, subjectivity, draws, ext.sqrt, balances0, runs, casts);
      forall j | 0 <= j < |ps|
        ensures HeldVotes(ps)[j] == heldB[j] + Gathered(casts, ps[j])
      {
        assert ps[j] in ps;
      }
    }

    /** The round is ready for run i of simulate_voting_and_scoring: its counts agree
        with its votes, and it is as the simulation found it (vote lists lists0, held
        votes held0, voters' votes0 and balances0) for the first run and reset for
        every later one. */
    ghost predicate Ready(i: nat, lists0: seq<seq<real>>, held0: seq<seq<Vote>>, votes0: seq<seq<Vote>>, balances0: seq<real>)
      requires round != null
      reads this, round, round.projects`votes, round.projects`numVotes, round.projects`score, round.projects`mean,
            round.projects`tokenAmount, round.voters`votes, round.voters`balanceOp
    {
      && round.Consistent()
      && (i == 0 ==> VoteLists(round.projects) == lists0 && HeldVotes(round.projects) == held0
                     && VoterVotes(round.voters) == votes0 && Balances(round.voters) == balances0)
      && (0 < i ==> RoundIsReset())
    }

    /** Every project and every voter of the round is in its initial state. */
    ghost predicate RoundIsReset()
      requires round != null
      reads this, round, round.projects`votes, round.projects`numVotes, round.projects`score, round.projects`mean,
            round.projects`tokenAmount, round.voters`votes, round.voters`balanceOp
    {
      (forall p :: p in round.projects ==> p.IsReset()) && (forall v :: v in round.voters ==> v.IsReset())
    }

    /** reset_round: reset every project if the project count is non-zero, and every
        voter if the voter count is. */
    method ResetRound()
      requires round != null
      modifies round.projects`votes, round.projects`numVotes, round.projects`score, round.projects`mean, round.projects`tokenAmount,
               round.voters`votes, round.voters`balanceOp
      ensures round.numProjects != 0 ==> forall p :: p in round.projects ==> p.IsReset() && p.Valid()
      ensures round.numProjects == 0 ==> forall p :: p in round.projects ==> unchanged(p)
      ensures round.numVoters != 0 ==> forall v :: v in round.voters ==> v.IsReset() && v.Valid()
      ensures round.numVoters == 0 ==> forall v :: v in round.voters ==> unchanged(v)
      ensures round.Counted() ==> RoundIsReset() && round.Consistent()
    {
      if round.numProjects != 0 {
        ResetProjects(round.projects);
      }
      if round.numVoters != 0 {
        ResetVoters(round.voters);
      }
    }
  }
}
