/** The records of the voting engine: votes, projects and voters, with the voters'
    ballot strategies.  A project and a voter are objects whose fields the engine
    updates in place; a vote is a value that both of them keep. */
module Entities {
  import opened Base
  import opened Numerics

  /** A vote: who cast it (no voter for the zero votes `add_zeroes` injects), on
      which project, and the amount, absent when the voter left the project out. */
  datatype Vote = Cast(voter: Voter?, project: Project, amount: Option<real>)

  /** The amount of a vote as a list of zero or one elements. */
  function Present(a: Option<real>): seq<real> {
    match a
    case Some(x) => [x]
    case None => []
  }

  /** The non-absent amounts of a vote list, in the order the votes were cast. */
  function Amounts(votes: seq<Vote>): seq<real> {
    if votes == [] then [] else Amounts(votes[..|votes| - 1]) + Present(votes[|votes| - 1].amount)
  }

  lemma {:induction false} AmountsAppend(a: seq<Vote>, b: seq<Vote>)
    ensures Amounts(a + b) == Amounts(a) + Amounts(b)
    decreases |b|
  {
    if b == [] {
      assert a + b == a;
    } else {
      assert (a + b)[..|a + b| - 1] == a + b[..|b| - 1];
      AmountsAppend(a, b[..|b| - 1]);
    }
  }

  /** What casting the amount takes from the balance: `if amount: balance_op -= amount`
      (a zero amount, which the test skips, would subtract nothing anyway). */
  function Spent(a: Option<real>): real {
    match a
    case Some(x) => x
    case None => 0.0
  }

  lemma AppendOne<T>(a: seq<T>, b: seq<T>, x: T)
    ensures (a + b) + [x] == a + (b + [x])
  {
  }

  /** A list that was a + b and gains x is a + (b + [x]). */
  lemma ExtendedBy<T>(a: seq<T>, b: seq<T>, x: T, before: seq<T>, after: seq<T>)
    requires before == a + b && after == before + [x]
    ensures after == a + (b + [x])
  {
    AppendOne(a, b, x);
  }

  lemma AppendParts<T>(a: seq<T>, b: seq<T>)
    ensures (a + b)[..|a|] == a && (a + b)[|a|..] == b
  {
  }

  /** The spending recorded in a vote list is the sum of its amounts. */
  lemma SpentAppend(votes: seq<Vote>, v: Vote)
    ensures Sum(Amounts(votes + [v])) == Sum(Amounts(votes)) + Spent(v.amount)
  {
    AmountsAppend(votes, [v]);
    assert [v][..0] == [];
    SumAppend(Amounts(votes), Amounts([v]));
  }

  /** The self-dealing guard of cast_vote: a voter's vote on a project they own is
      recorded without an amount. */
  function Guard(voterId: int, owner: Option<int>, amount: Option<real>): Option<real> {
    if owner == Some(voterId) then None else amount
  }

  class Project {
    const id: int
    const owner: Option<int>
    /** The project's "true" impact. */
    const rating: real
    var votes: seq<Vote>
    var numVotes: int
    var score: Option<Num>
    var mean: real
    var tokenAmount: Num

    /** num_votes counts the votes that carry an amount. */
    ghost predicate Valid()
      reads this`votes, this`numVotes
    {
      numVotes == |Amounts(votes)|
    }

    /** The state a new project starts in and reset_project restores. */
    ghost predicate IsReset()
      reads this`votes, this`numVotes, this`score, this`mean, this`tokenAmount
    {
      votes == [] && numVotes == 0 && score == None && mean == 0.0 && tokenAmount == Num(0.0)
    }

    constructor (id: int, rating: real, owner: Option<int>)
      ensures this.id == id && this.rating == rating && this.owner == owner
      ensures IsReset() && Valid()
    {
      this.id, this.rating, this.owner := id, rating, owner;
      votes, numVotes, score, mean, tokenAmount := [], 0, None, 0.0, Num(0.0);
    }

    method ResetProject()
      modifies this`votes, this`numVotes, this`score, this`mean, this`tokenAmount
      ensures IsReset() && Valid()
    {
      votes, numVotes, score, mean, tokenAmount := [], 0, None, 0.0, Num(0.0);
    }

    /** get_votes: the amounts of the votes that carry one, in insertion order. */
    function GetVotes(): seq<real>
      reads this
    {
      Amounts(votes)
    }

    method AddVote(v: Vote)
      modifies this`votes, this`numVotes
      ensures votes == old(votes) + [v]
      ensures GetVotes() == old(GetVotes()) + Present(v.amount)
      ensures Valid()
    {
      votes := votes + [v];
      AmountsAppend(old(votes), [v]);
      assert [v][..0] == [];
      numVotes := |GetVotes()|;
    }

    method AddZeroes(numZeroes: int)
      requires Valid()
      modifies this`votes, this`numVotes
      ensures Valid()
      ensures var m := if numZeroes < 0 then 0 else numZeroes;
        && votes == old(votes) + seq(m, _ => Cast(null, this, Some(0.0)))
        && numVotes == old(numVotes) + m
    {
      var m := if numZeroes < 0 then 0 else numZeroes;
      var i := 0;
      while i < m
        invariant 0 <= i <= m
        invariant Valid()
        invariant votes == old(votes) + seq(i, _ => Cast(null, this, Some(0.0)))
        invariant numVotes == old(numVotes) + i
      {
        AddVote(Cast(null, this, Some(0.0)));
        assert seq(i + 1, _ => Cast(null, this, Some(0.0))) == seq(i, _ => Cast(null, this, Some(0.0))) + [Cast(null, this, Some(0.0))];
        i := i + 1;
      }
    }
  }

  // ------------------------------------------------------- what a ballot casts

  /** How the amount offered to the i-th project of a ballot is chosen, given the
      voter's balance at that point.  Draws are the caller-supplied values of
      np.random.uniform's underlying fraction in [0, 1). */
  datatype OfferRule =
    | Fixed(amount: real)                          // equal split and top-k
    | Split(first: real, rest: real)               // partial commitment
    | Priced(offer: (nat, real) -> Option<real>)   // random voting and simulate_voting

  /** np.random.uniform(lo, hi) for the fraction u. */
  function Uniform(lo: real, hi: real, u: real): real {
    lo + (hi - lo) * u
  }

  /** random_voting's pricing: a uniform draw from [0, current balance). */
  function RandomRule(draws: seq<real>): OfferRule {
    Priced((i: nat, balance: real) => RandomOffer(draws, i, balance))
  }

  function RandomOffer(draws: seq<real>, i: nat, balance: real): Option<real> {
    if i < |draws| then Some(Uniform(0.0, balance, draws[i])) else None
  }

  /** The factor by which a ballot caps the vote on its idx-th project:
      `max_vote_per_project` is the current balance times laziness_factor over the
      square root of the number of ballot places left, ballot_size - idx. */
  function Weight(laziness: real, root: real): (w: real)
    requires 1.0 <= root
    ensures 0.0 <= laziness ==> 0.0 <= w <= laziness
  {
    var w := laziness / root;
    assert 0.0 <= laziness ==> 0.0 <= w <= laziness by {
      if 0.0 <= laziness {
        assert laziness == w * root;
        assert 0.0 <= w;
        NonNegativeProduct(w, root - 1.0);
      }
    }
    w
  }

  /** The caps of the n places of a ballot of the given size (places past the ballot
      are never priced). */
  function BallotWeights(size: int, laziness: real, sqrt: real -> real, n: nat): (w: seq<real>)
    requires IsSqrt(sqrt)
    ensures |w| == n
    ensures forall i :: 0 <= i < n && i < size ==> 0.0 <= laziness ==> 0.0 <= w[i] <= laziness
  {
    var w := seq(n, i requires 0 <= i < n =>
      if i < size then
        SqrtAtLeastOne(sqrt, (size - i) as real);
        Weight(laziness, sqrt((size - i) as real))
      else 0.0);
    assert forall i :: 0 <= i < n && i < size ==> 0.0 <= laziness ==> 0.0 <= w[i] <= laziness by {
      forall i | 0 <= i < n && i < size
        ensures 0.0 <= laziness ==> 0.0 <= w[i] <= laziness
      {
        SqrtAtLeastOne(sqrt, (size - i) as real);
        assert w[i] == Weight(laziness, sqrt((size - i) as real));
      }
    }
    w
  }

  /** The pricing of simulate_voting's ballots: places from the ballot size on get
      no amount; otherwise the cap is the current balance times the place's weight,
      a cap below 1 gives no amount, and any other a uniform draw below the cap. */
  function BallotRule(size: int, weights: seq<real>, draws: seq<real>): OfferRule
    requires |weights| == |draws|
  {
    Priced((i: nat, balance: real) => BallotOffer(size, weights, draws, i, balance))
  }

  function BallotOffer(size: int, weights: seq<real>, draws: seq<real>, i: nat, balance: real): Option<real>
    requires |weights| == |draws|
  {
    if i >= size || i >= |draws| then None
    else
      var cap := balance * weights[i];
      if cap < 1.0 then None else Some(Uniform(0.0, cap, draws[i]))
  }

  /** The amount offered to the i-th project of a ballot when the voter's balance
      is `balance`, before the self-dealing guard. */
  function OfferAt(rule: OfferRule, i: nat, balance: real): Option<real> {
    match rule
    case Fixed(a) => Some(a)
    case Split(first, rest) => if i == 0 then Some(first) else Some(rest)
    case Priced(offer) => offer(i, balance)
  }

  /** A voter's strategy as a list of project indices to vote on, in order, and the
      rule that prices each of them. */
  datatype Plan = Plan(targets: seq<nat>, rule: OfferRule)

  /** The plan names distinct projects among n and can price all of them. */
  ghost predicate Fits(plan: Plan, n: nat) {
    && (forall i :: 0 <= i < |plan.targets| ==> plan.targets[i] < n)
    && Distinct(plan.targets)
  }

  /** The vote the plan prescribes once the votes `prior` are cast: on its next
      target, with the amount the rule offers at the balance those votes left,
      unless the voter owns that project. */
  ghost function Prescribed(voter: Voter, ps: seq<Project>, plan: Plan, balance0: real, prior: seq<Vote>): Vote
    requires Fits(plan, |ps|) && |prior| < |plan.targets|
  {
    var p := ps[plan.targets[|prior|]];
    Cast(voter, p, Guard(voter.id, p.owner, OfferAt(plan.rule, |prior|, BalanceLeft(balance0, prior))))
  }

  /** What is left of balance0 once the votes `prior` are paid for. */
  function BalanceLeft(balance0: real, prior: seq<Vote>): real {
    balance0 - Sum(Amounts(prior))
  }

  /** `cast` is what voter, starting from balance0, records by following the first
      |cast| steps of the plan over ps, each vote the one prescribed after the
      earlier ones. */
  ghost predicate CastsFollow(voter: Voter, ps: seq<Project>, plan: Plan, balance0: real, cast: seq<Vote>)
    requires Fits(plan, |ps|)
    decreases |cast|
  {
    && |cast| <= |plan.targets|
    && (cast != [] ==>
         var i := |cast| - 1;
         && CastsFollow(voter, ps, plan, balance0, cast[..i])
         && cast[i] == Prescribed(voter, ps, plan, balance0, cast[..i]))
  }

  /** A prescribed vote that carries an amount carries the rule's offer at the
      balance the earlier votes left. */
  lemma PrescribedAmount(voter: Voter, ps: seq<Project>, plan: Plan, balance0: real, prior: seq<Vote>)
    requires Fits(plan, |ps|) && |prior| < |plan.targets|
    ensures var v := Prescribed(voter, ps, plan, balance0, prior);
      v.amount.Some? ==> v.amount == OfferAt(plan.rule, |prior|, BalanceLeft(balance0, prior))
  {
  }

  /** Every prefix of a followed plan was followed too. */
  lemma {:induction false} CastsFollowPrefix(voter: Voter, ps: seq<Project>, plan: Plan, balance0: real, cast: seq<Vote>, m: nat)
    requires Fits(plan, |ps|) && CastsFollow(voter, ps, plan, balance0, cast) && m <= |cast|
    ensures CastsFollow(voter, ps, plan, balance0, cast[..m])
    decreases |cast|
  {
    if m < |cast| {
      var n := |cast| - 1;
      CastsFollowPrefix(voter, ps, plan, balance0, cast[..n], m);
      assert cast[..n][..m] == cast[..m];
    } else {
      assert cast[..m] == cast;
    }
  }

  /** Every vote of a followed plan, not just the last, is the vote the plan
      prescribes at its place. */
  lemma {:induction false} CastsFollowAt(voter: Voter, ps: seq<Project>, plan: Plan, balance0: real, cast: seq<Vote>, i: nat)
    requires Fits(plan, |ps|) && CastsFollow(voter, ps, plan, balance0, cast) && i < |cast|
    ensures i < |plan.targets| && cast[i] == Prescribed(voter, ps, plan, balance0, cast[..i])
    decreases |cast|
  {
    var n := |cast| - 1;
    if i < n {
      CastsFollowAt(voter, ps, plan, balance0, cast[..n], i);
      PrefixOfPrefix(cast, n, i);
    }
  }

  lemma PrefixOfPrefix<T>(s: seq<T>, n: nat, i: nat)
    requires i <= n <= |s|
    ensures s[..n][..i] == s[..i]
  {
  }

  /** Following one more step of the plan extends what was cast so far. */
  lemma FollowStep(voter: Voter, ps: seq<Project>, plan: Plan, balance0: real, cast: seq<Vote>, balance: real, v: Vote)
    requires Fits(plan, |ps|) && CastsFollow(voter, ps, plan, balance0, cast) && |cast| < |plan.targets|
    requires balance == BalanceLeft(balance0, cast)
    requires var p := ps[plan.targets[|cast|]];
      v == Cast(voter, p, Guard(voter.id, p.owner, OfferAt(plan.rule, |cast|, balance)))
    ensures CastsFollow(voter, ps, plan, balance0, cast + [v])
  {
    assert (cast + [v])[..|cast|] == cast;
  }

  /** The votes of `cast` that are on project p, in order. */
  function VotesOn(cast: seq<Vote>, p: Project): seq<Vote> {
    if cast == [] then []
    else VotesOn(cast[..|cast| - 1], p) + (if cast[|cast| - 1].project == p then [cast[|cast| - 1]] else [])
  }

  lemma VotesOnAppend(cast: seq<Vote>, v: Vote, p: Project)
    ensures VotesOn(cast + [v], p) == VotesOn(cast, p) + (if v.project == p then [v] else [])
  {
    assert (cast + [v])[..|cast|] == cast;
  }

  /** A project that had received the votes of `cast` on it and now receives v if v
      is on it has received the votes of `cast + [v]` on it. */
  lemma GainOne(start: seq<Vote>, before: seq<Vote>, after: seq<Vote>, cast: seq<Vote>, v: Vote, p: Project)
    requires before == start + VotesOn(cast, p)
    requires after == before + (if v.project == p then [v] else [])
    ensures after == start + VotesOn(cast + [v], p)
  {
    VotesOnAppend(cast, v, p);
    if v.project == p {
      AppendOne(start, VotesOn(cast, p), v);
    }
  }

  /** Votes whose i-th one is on project ps[targets[i]], for distinct targets over
      distinct projects, give each of those projects exactly its vote and no vote to
      the others. */
  lemma {:induction false} VotesOnTargets(ps: seq<Project>, targets: seq<nat>, cast: seq<Vote>)
    requires Distinct(ps) && Distinct(targets) && |cast| <= |targets|
    requires forall i :: 0 <= i < |targets| ==> targets[i] < |ps|
    requires forall i :: 0 <= i < |cast| ==> cast[i].project == ps[targets[i]]
    ensures forall i :: 0 <= i < |cast| ==> VotesOn(cast, ps[targets[i]]) == [cast[i]]
    ensures forall j :: 0 <= j < |ps| && j !in targets[..|cast|] ==> VotesOn(cast, ps[j]) == []
    decreases |cast|
  {
    if cast != [] {
      var n := |cast| - 1;
      var t := targets;
      var last := cast[n];
      assert cast == cast[..n] + [last];
      VotesOnTargets(ps, t, cast[..n]);
      assert t[..n + 1] == t[..n] + [t[n]];
      forall i | 0 <= i < |cast|
        ensures VotesOn(cast, ps[t[i]]) == [cast[i]]
      {
        VotesOnAppend(cast[..n], last, ps[t[i]]);
        if i < n {
          assert t[i] in t[..n];
          assert t[i] != t[n];
        } else {
          assert t[n] !in t[..n];
        }
      }
      forall j | 0 <= j < |ps| && j !in t[..n + 1]
        ensures VotesOn(cast, ps[j]) == []
      {
        VotesOnAppend(cast[..n], last, ps[j]);
      }
    }
  }

  /** Following a plan over distinct projects gives each target exactly the vote cast
      for it and no vote to a project the plan leaves out. */
  lemma EachTargetGetsItsVote(voter: Voter, ps: seq<Project>, plan: Plan, balance0: real, cast: seq<Vote>)
    requires Fits(plan, |ps|) && Distinct(ps) && CastsFollow(voter, ps, plan, balance0, cast)
    ensures forall i :: 0 <= i < |cast| ==> VotesOn(cast, ps[plan.targets[i]]) == [cast[i]]
    ensures forall j :: 0 <= j < |ps| && j !in plan.targets[..|cast|] ==> VotesOn(cast, ps[j]) == []
  {
    forall i | 0 <= i < |cast|
      ensures i < |plan.targets| && cast[i].project == ps[plan.targets[i]]
    {
      CastsFollowAt(voter, ps, plan, balance0, cast, i);
    }
    VotesOnTargets(ps, plan.targets, cast);
  }

  /** Ballot parameters as simulate_voting produces them: every weight in [0, 1]
      (a laziness factor of at most 1 over a root of at least 1) and every draw a
      fraction in [0, 1). */
  predicate BallotInputs(size: int, weights: seq<real>, draws: seq<real>) {
    && |weights| == |draws|
    && forall i :: 0 <= i < |draws| && i < size ==> 0.0 <= weights[i] <= 1.0 && 0.0 <= draws[i] < 1.0
  }

  /** The rule never offers more than the balance it is offered at, nor a negative
      amount, over the first n places. */
  ghost predicate SpendsWithin(rule: OfferRule, n: nat) {
    forall i: nat, b: real :: i < n && 0.0 <= b ==> 0.0 <= Spent(OfferAt(rule, i, b)) <= b
  }

  /** A ballot offers an amount only within the ballot and when the cap is at least
      1, and then an amount below the cap, which is at most the balance. */
  lemma BallotOfferBelowBalance(size: int, weights: seq<real>, draws: seq<real>, i: nat, balance: real)
    requires BallotInputs(size, weights, draws) && 0.0 <= balance
    ensures var offer := BallotOffer(size, weights, draws, i, balance);
      offer.Some? ==> i < size && i < |draws| && 1.0 <= balance * weights[i] && 0.0 <= offer.value < balance * weights[i] <= balance
  {
    if i < size && i < |draws| {
      var w, u := weights[i], draws[i];
      var cap := balance * w;
      CapBelowBalance(balance, w);
      if 1.0 <= cap {
        DrawBelowCap(cap, u);
      }
    }
  }

  lemma CapBelowBalance(balance: real, w: real)
    requires 0.0 <= balance && 0.0 <= w <= 1.0
    ensures balance * w <= balance
  {
    NonNegativeProduct(balance, 1.0 - w);
    assert balance * (1.0 - w) == balance - balance * w;
  }

  lemma DrawBelowCap(cap: real, u: real)
    requires 0.0 < cap && 0.0 <= u < 1.0
    ensures 0.0 <= Uniform(0.0, cap, u) < cap
  {
    NonNegativeProduct(cap, u);
    PositiveProduct(cap, 1.0 - u);
    assert cap * (1.0 - u) == cap - cap * u;
  }

  lemma BallotSpendsWithin(size: int, weights: seq<real>, draws: seq<real>, n: nat)
    requires BallotInputs(size, weights, draws)
    ensures SpendsWithin(BallotRule(size, weights, draws), n)
  {
    forall i: nat, b: real | i < n && 0.0 <= b
      ensures 0.0 <= Spent(OfferAt(BallotRule(size, weights, draws), i, b)) <= b
    {
      assert OfferAt(BallotRule(size, weights, draws), i, b) == BallotOffer(size, weights, draws, i, b);
      BallotOfferBelowBalance(size, weights, draws, i, b);
    }
  }

  /** random_voting draws each amount from [0, balance), so it never overspends
      either. */
  lemma RandomSpendsWithin(draws: seq<real>, n: nat)
    requires n <= |draws| && forall i :: 0 <= i < n ==> 0.0 <= draws[i] < 1.0
    ensures SpendsWithin(RandomRule(draws), n)
  {
    forall i: nat, b: real | i < n && 0.0 <= b
      ensures 0.0 <= Spent(OfferAt(RandomRule(draws), i, b)) <= b
    {
      assert OfferAt(RandomRule(draws), i, b) == RandomOffer(draws, i, b);
      if 0.0 < b {
        DrawBelowCap(b, draws[i]);
      }
    }
  }

  /** A voter following a rule that never overspends ends with a balance between 0
      and the starting one: balance_op stays non-negative. */
  lemma {:induction false} FollowKeepsBalance(voter: Voter, ps: seq<Project>, plan: Plan, balance0: real, cast: seq<Vote>)
    requires Fits(plan, |ps|) && SpendsWithin(plan.rule, |plan.targets|)
    requires CastsFollow(voter, ps, plan, balance0, cast) && 0.0 <= balance0
    ensures 0.0 <= BalanceLeft(balance0, cast) <= balance0
    decreases |cast|
  {
    if cast != [] {
      var n := |cast| - 1;
      FollowKeepsBalance(voter, ps, plan, balance0, cast[..n]);
      var b := BalanceLeft(balance0, cast[..n]);
      var p, offer := ps[plan.targets[n]], OfferAt(plan.rule, n, b);
      assert cast[n] == Cast(voter, p, Guard(voter.id, p.owner, offer));
      assert 0.0 <= Spent(offer) <= b;
      assert cast == cast[..n] + [cast[n]];
      SpentAppend(cast[..n], cast[n]);
    }
  }

  /** The effect of following a plan, between the state before and after: the voter
      has appended the votes CastsFollow describes and paid for them, and each project
      has received the ones on it (by EachTargetGetsItsVote, one per target and none
      elsewhere). */
  twostate predicate Followed(voter: Voter, ps: seq<Project>, plan: Plan)
    requires Fits(plan, |ps|)
    reads voter, ps
  {
    var k := old(|voter.votes|);
    && |voter.votes| == k + |plan.targets|
    && voter.votes[..k] == old(voter.votes)
    && CastsFollow(voter, ps, plan, old(voter.balanceOp), voter.votes[k..])
    && voter.balanceOp == old(voter.balanceOp) - Sum(Amounts(voter.votes[k..]))
    && (forall p :: p in ps ==> p.votes == old(p.votes) + VotesOn(voter.votes[k..], p) && p.Valid())
  }

  // ------------------------------------------------------------- strategies

  /** The ratings of the projects, in list order. */
  function Ratings(ps: seq<Project>): (r: seq<real>)
    ensures |r| == |ps| && forall i :: 0 <= i < |ps| ==> r[i] == ps[i].rating
  {
    seq(|ps|, i requires 0 <= i < |ps| => ps[i].rating)
  }

  /** `total_op / n`. */
  function Portion(total: real, n: int): (r: real)
    requires n != 0
    ensures n as real * r == total
  {
    total / n as real
  }

  /** random_voting: every project in order, each with a uniform draw from
      [0, current balance). */
  function RandomPlan(n: nat, draws: seq<real>): (plan: Plan)
    requires n <= |draws|
    ensures Fits(plan, n) && plan.targets == Indices(n)
  {
    Plan(Indices(n), RandomRule(draws))
  }

  /** equal_distribution_voting: every project once, in order, with total_op / n;
      the shares add up to total_op.  No projects raises ZeroDivisionError. */
  function EqualSplitPlan(n: nat, totalOp: real): (r: Result<Plan>)
    ensures r.Failure? <==> n == 0
    ensures r.Failure? ==> r.error == ZeroDivision
    ensures r.Success? ==>
      && Fits(r.value, n) && r.value.targets == Indices(n)
      && r.value.rule.Fixed? && n as real * r.value.rule.amount == totalOp
  {
    if n == 0 then Failure(ZeroDivision)
    else Success(Plan(Indices(n), Fixed(Portion(totalOp, n))))
  }

  function Min(a: int, b: int): int { if a < b then a else b }

  /** top_k_voting: the k highest-rated projects (ties in list order), each with
      total_op / k; k = 0 raises ZeroDivisionError. */
  function TopKPlan(ratings: seq<real>, k: nat, totalOp: real): (r: Result<Plan>)
    ensures r.Failure? <==> k == 0
    ensures r.Failure? ==> r.error == ZeroDivision
    ensures r.Success? ==>
      var t := r.value.targets;
      && Fits(r.value, |ratings|)
      && |t| == Min(k, |ratings|)
      && (forall i, j :: 0 <= i < |t| && 0 <= j < |ratings| && j !in t ==> ratings[t[i]] >= ratings[j])
      && r.value.rule.Fixed? && k as real * r.value.rule.amount == totalOp
  {
    if k == 0 then Failure(ZeroDivision)
    else
      var order := Rank(ratings);
      var m := Min(k, |ratings|);
      var t := order[..m];
      RankPrefixIsTop(ratings, m);
      Success(Plan(t, Fixed(Portion(totalOp, k))))
  }

  /** The indices 0..n-1 without `skip`, in order. */
  function AllBut(n: nat, skip: nat): (r: seq<nat>)
    requires skip < n
    ensures |r| == n - 1
    ensures forall i :: 0 <= i < |r| ==> r[i] == if i < skip then i else i + 1
  {
    seq(n - 1, i requires 0 <= i < n - 1 => if i < skip then i else i + 1)
  }

  /** The first highest-rated project, then every other project in list order. */
  function TopThenRest(ratings: seq<real>): (t: seq<nat>)
    requires ratings != []
    ensures |t| == |ratings| && Distinct(t)
    ensures forall i :: 0 <= i < |t| ==> t[i] < |ratings|
    ensures forall j :: 0 <= j < |ratings| ==> ratings[j] <= ratings[t[0]]
    ensures forall j :: 0 <= j < t[0] ==> ratings[j] < ratings[t[0]]
  {
    var n := |ratings|;
    var top := Rank(ratings)[0];
    RankHeadIsFirstMaximum(ratings);
    var t := [top] + AllBut(n, top);
    assert Distinct(t) by {
      forall i, j | 0 <= i < j < |t| ensures t[i] != t[j] {
        if i > 0 { assert t[i] == AllBut(n, top)[i - 1]; }
      }
      DistinctPairwise<nat>(t);
    }
    t
  }

  /** partial_commitment_voting: 70% of total_op to the first highest-rated project,
      then the remaining 30% split evenly over every other project, in list order.
      One project raises ZeroDivisionError (n - 1 = 0); none raises the ValueError
      of max() on an empty list. */
  function PartialCommitmentPlan(ratings: seq<real>, totalOp: real): (r: Result<Plan>)
    ensures |ratings| == 1 <==> r == Failure(ZeroDivision)
    ensures ratings == [] <==> r == Failure(EmptyMaximum)
    ensures r.Success? ==>
      var t := r.value.targets;
      && Fits(r.value, |ratings|)
      && |t| == |ratings|
      && (forall j :: 0 <= j < |ratings| ==> ratings[j] <= ratings[t[0]])
      && (forall j :: 0 <= j < t[0] ==> ratings[j] < ratings[t[0]])
      && r.value.rule.Split?
      && r.value.rule.first == 0.7 * totalOp
      && r.value.rule.first + (|ratings| - 1) as real * r.value.rule.rest == totalOp
  {
    var n := |ratings|;
    if n == 1 then Failure(ZeroDivision)
    else if n == 0 then Failure(EmptyMaximum)
    else Success(Plan(TopThenRest(ratings), Split(0.7 * totalOp, Portion(0.3 * totalOp, n - 1))))
  }

  class Voter {
    const id: int
    /** How much OP the voter is willing to put in their ballot. */
    const totalOp: real
    const laziness: real
    const expertise: real
    var votes: seq<Vote>
    /** The OP not yet allocated. */
    var balanceOp: real
    var strategy: string

    /** The balance is the budget less what the recorded votes spent. */
    ghost predicate Valid()
      reads this`votes, this`balanceOp
    {
      balanceOp + Sum(Amounts(votes)) == totalOp
    }

    /** The state a new voter starts in and reset_voter restores. */
    ghost predicate IsReset()
      reads this`votes, this`balanceOp
    {
      votes == [] && balanceOp == totalOp
    }

    constructor (id: int, opAvailable: real, laziness: real, expertise: real)
      ensures this.id == id && totalOp == opAvailable && this.laziness == laziness && this.expertise == expertise
      ensures strategy == "random"
      ensures IsReset() && Valid()
    {
      this.id, totalOp, this.laziness, this.expertise := id, opAvailable, laziness, expertise;
      votes, balanceOp, strategy := [], opAvailable, "random";
    }

    method ResetVoter()
      modifies this`votes, this`balanceOp
      ensures IsReset() && Valid()
    {
      votes := [];
      balanceOp := totalOp;
    }

    /** cast_vote: record the vote (without an amount on an owned project) with the
        voter and with the project, and pay for it. */
    method CastVote(p: Project, amount: Option<real>)
      requires Valid()
      modifies this`votes, this`balanceOp, p`votes, p`numVotes
      ensures Valid() && p.Valid()
      ensures votes == old(votes) + [Cast(this, p, Guard(id, p.owner, amount))]
      ensures p.votes == old(p.votes) + [Cast(this, p, Guard(id, p.owner, amount))]
      ensures balanceOp == old(balanceOp) - Spent(Guard(id, p.owner, amount))
    {
      var a := amount;
      if p.owner == Some(id) {
        a := None;
      }
      if a.Some? && a.value != 0.0 {
        balanceOp := balanceOp - a.value;
      }
      var v := Cast(this, p, a);
      votes := votes + [v];
      SpentAppend(old(votes), v);
      p.AddVote(v);
    }

    /** One turn of FollowPlan's loop: cast the offer for the next target.  `start`
        holds the projects' votes from before the loop. */
    method CastNext(ps: seq<Project>, plan: Plan, i: nat, ghost balance0: real, ghost cast: seq<Vote>,
                    ghost start: map<Project, seq<Vote>>) returns (ghost v: Vote)
      requires Valid() && Fits(plan, |ps|) && i == |cast| < |plan.targets|
      requires CastsFollow(this, ps, plan, balance0, cast) && balanceOp == BalanceLeft(balance0, cast)
      requires forall q :: q in ps ==> q in start && q.votes == start[q] + VotesOn(cast, q) && q.Valid()
      modifies this`votes, this`balanceOp, ps`votes, ps`numVotes
      ensures Valid() && votes == old(votes) + [v]
      ensures balanceOp == BalanceLeft(balance0, cast + [v])
      ensures CastsFollow(this, ps, plan, balance0, cast + [v])
      ensures forall q :: q in ps ==> q.votes == start[q] + VotesOn(cast + [v], q) && q.Valid()
    {
      v := CastOn(ps, plan.targets[i], OfferAt(plan.rule, i, balanceOp), start, cast);
      FollowStep(this, ps, plan, balance0, cast, old(balanceOp), v);
      SpentAppend(cast, v);
    }

    /** cast_vote on ps[k], seen from all of ps: the projects that held the votes
        `cast` on them after start now hold those of cast + [v]. */
    method CastOn(ps: seq<Project>, k: nat, amount: Option<real>, ghost start: map<Project, seq<Vote>>,
                  ghost cast: seq<Vote>) returns (ghost v: Vote)
      requires Valid() && k < |ps|
      requires forall q :: q in ps ==> q in start && q.votes == start[q] + VotesOn(cast, q) && q.Valid()
      modifies this`votes, this`balanceOp, ps`votes, ps`numVotes
      ensures v == Cast(this, ps[k], Guard(id, ps[k].owner, amount))
      ensures Valid() && votes == old(votes) + [v] && balanceOp == old(balanceOp) - Spent(v.amount)
      ensures forall q :: q in ps ==> q.votes == start[q] + VotesOn(cast + [v], q) && q.Valid()
    {
      var p := ps[k];
      v := Cast(this, p, Guard(id, p.owner, amount));
      CastVote(p, amount);
      forall q | q in ps
        ensures q.votes == start[q] + VotesOn(cast + [v], q) && q.Valid()
      {
        GainOne(start[q], old(q.votes), q.votes, cast, v, q);
      }
    }

    /** The loop every strategy runs: cast the plan's amount on each of its targets
        in turn. */
    method FollowPlan(ps: seq<Project>, plan: Plan)
      requires Valid() && Fits(plan, |ps|)
      requires forall p :: p in ps ==> p.Valid()
      modifies this`votes, this`balanceOp, ps`votes, ps`numVotes
      ensures Valid()
      ensures Followed(this, ps, plan)
    {
      ghost var cast := CastAll(ps, plan);
      AppendParts(old(votes), cast);
      assert votes[|old(votes)|..] == cast;
    }

    /** FollowPlan's loop, with the votes it casts. */
    method CastAll(ps: seq<Project>, plan: Plan) returns (ghost cast: seq<Vote>)
      requires Valid() && Fits(plan, |ps|)
      requires forall p :: p in ps ==> p.Valid()
      modifies this`votes, this`balanceOp, ps`votes, ps`numVotes
      ensures Valid() && |cast| == |plan.targets| && votes == old(votes) + cast
      ensures balanceOp == old(balanceOp) - Sum(Amounts(cast))
      ensures CastsFollow(this, ps, plan, old(balanceOp), cast)
      ensures forall q :: q in ps ==> q.votes == old(q.votes) + VotesOn(cast, q) && q.Valid()
    {
      ghost var start := map q | q in ps :: q.votes;
      cast := [];
      var i := 0;
      while i < |plan.targets|
        invariant 0 <= i <= |plan.targets| && |cast| == i
        invariant Valid()
        invariant votes == old(votes) + cast
        invariant balanceOp == BalanceLeft(old(balanceOp), cast)
        invariant CastsFollow(this, ps, plan, old(balanceOp), cast)
        invariant forall q :: q in ps ==> q.votes == start[q] + VotesOn(cast, q) && q.Valid()
      {
        ghost var before := votes;
        ghost var v := CastNext(ps, plan, i, old(balanceOp), cast, start);
        ExtendedBy(old(votes), cast, v, before, votes);
        cast := cast + [v];
        i := i + 1;
      }
      forall q | q in ps
        ensures q.votes == old(q.votes) + VotesOn(cast, q)
      {
        assert start[q] == old(q.votes);
      }
    }

    method RandomVoting(ps: seq<Project>, draws: seq<real>)
      requires Valid() && |ps| <= |draws|
      requires forall p :: p in ps ==> p.Valid()
      modifies this`votes, this`balanceOp, ps`votes, ps`numVotes
      ensures Valid()
      ensures Followed(this, ps, RandomPlan(|ps|, draws))
    {
      FollowPlan(ps, RandomPlan(|ps|, draws));
    }

    method EqualDistributionVoting(ps: seq<Project>) returns (r: Outcome)
      requires Valid()
      requires forall p :: p in ps ==> p.Valid()
      modifies this`votes, this`balanceOp, ps`votes, ps`numVotes
      ensures Valid()
      ensures r.Fail? ==> unchanged(this) && forall p :: p in ps ==> unchanged(p)
      ensures match EqualSplitPlan(|ps|, totalOp)
        case Failure(e) => r == Fail(e)
        case Success(plan) => r == Pass && Followed(this, ps, plan)
    {
      match EqualSplitPlan(|ps|, totalOp)
      case Failure(e) => r := Fail(e);
      case Success(plan) => FollowPlan(ps, plan); r := Pass;
    }

    method TopKVoting(ps: seq<Project>, k: nat) returns (r: Outcome)
      requires Valid()
      requires forall p :: p in ps ==> p.Valid()
      modifies this`votes, this`balanceOp, ps`votes, ps`numVotes
      ensures Valid()
      ensures r.Fail? ==> unchanged(this) && forall p :: p in ps ==> unchanged(p)
      ensures match TopKPlan(Ratings(ps), k, totalOp)
        case Failure(e) => r == Fail(e)
        case Success(plan) => r == Pass && Followed(this, ps, plan)
    {
      match TopKPlan(Ratings(ps), k, totalOp)
      case Failure(e) => r := Fail(e);
      case Success(plan) => FollowPlan(ps, plan); r := Pass;
    }

    /** Placeholder in the source: casts nothing. */
    method StrategicVoting(ps: seq<Project>)
      ensures unchanged(this) && forall p :: p in ps ==> unchanged(p)
    {
    }

    method PartialCommitmentVoting(ps: seq<Project>) returns (r: Outcome)
      requires Valid() && Distinct(ps)
      requires forall p :: p in ps ==> p.Valid()
      modifies this`votes, this`balanceOp, ps`votes, ps`numVotes
      ensures Valid()
      ensures r.Fail? ==> unchanged(this) && forall p :: p in ps ==> unchanged(p)
      ensures match PartialCommitmentPlan(Ratings(ps), totalOp)
        case Failure(e) => r == Fail(e)
        case Success(plan) => r == Pass && Followed(this, ps, plan)
    {
      match PartialCommitmentPlan(Ratings(ps), totalOp)
      case Failure(e) => r := Fail(e);
      case Success(plan) => FollowPlan(ps, plan); r := Pass;
    }

    /** Placeholder in the source: casts nothing. */
    method IssueBasedVoting(ps: seq<Project>)
      ensures unchanged(this) && forall p :: p in ps ==> unchanged(p)
    {
    }

    /** vote: dispatch on the strategy name; 'strategic', 'issue_based' and any
        unrecognised name cast nothing. */
    method Vote(ps: seq<Project>, draws: seq<real>) returns (r: Outcome)
      requires Valid() && |ps| <= |draws|
      requires strategy == "partial_commitment" ==> Distinct(ps)
      requires forall p :: p in ps ==> p.Valid()
      modifies this`votes, this`balanceOp, ps`votes, ps`numVotes
      ensures Valid()
      ensures r.Fail? ==> unchanged(this) && forall p :: p in ps ==> unchanged(p)
      ensures match StrategyPlan(strategy, Ratings(ps), totalOp, draws)
        case Failure(e) => r == Fail(e)
        case Success(None) => r == Pass && unchanged(this) && forall p :: p in ps ==> unchanged(p)
        case Success(Some(plan)) => r == Pass && Followed(this, ps, plan)
    {
      r := Pass;
      if strategy == "random" {
        RandomVoting(ps, draws);
      } else if strategy == "equal_distribution" {
        r := EqualDistributionVoting(ps);
      } else if strategy == "top_k" {
        r := TopKVoting(ps, 3);
      } else if strategy == "strategic" {
        StrategicVoting(ps);
      } else if strategy == "partial_commitment" {
        r := PartialCommitmentVoting(ps);
      } else if strategy == "issue_based" {
        IssueBasedVoting(ps);
      }
    }
  }

  /** The plan each strategy name stands for: none for the placeholders and for an
      unrecognised name; top_k uses k = 3. */
  function StrategyPlan(strategy: string, ratings: seq<real>, totalOp: real, draws: seq<real>): Result<Option<Plan>>
    requires |ratings| <= |draws|
  {
    if strategy == "random" then Success(Some(RandomPlan(|ratings|, draws)))
    else if strategy == "equal_distribution" then Lift(EqualSplitPlan(|ratings|, totalOp))
    else if strategy == "top_k" then Lift(TopKPlan(ratings, 3, totalOp))
    else if strategy == "partial_commitment" then Lift(PartialCommitmentPlan(ratings, totalOp))
    else Success(None)
  }

  function Lift(r: Result<Plan>): Result<Option<Plan>> {
    match r
    case Failure(e) => Failure(e)
    case Success(plan) => Success(Some(plan))
  }
}
