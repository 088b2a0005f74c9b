/** The allocation-rule registry of the mesa-based VotingModel: a name -> rule
    dictionary discovered from the rules object, queried and edited by name, and
    turned into one allocation table with a column per rule and a column of
    project labels. */
module Registry {
  import opened Base

  /** The voting matrix: one row of amounts per voter, one column per project. */
  type Matrix = seq<seq<real>>

  /** An allocation rule, applied as allocate_funds applies it: to the voting matrix,
      the total OP tokens and the number of voters. */
  type Rule = (Matrix, real, int) -> seq<real>

  /** An attribute of the rules object: its name and, when it is callable, the
      bound method it is. */
  datatype Attribute = Attribute(name: string, value: Option<Rule>)

  /** A column of the allocation table: a rule's allocations or the project labels. */
  datatype Column = Allocation(amounts: seq<real>) | Labels(names: seq<string>)

  /** The allocation table, column name -> column. */
  type Table = map<string, Column>

  /** A name written with a leading double underscore (Python's special names). */
  predicate IsDunder(name: string) {
    |name| >= 2 && name[0] == '_' && name[1] == '_'
  }

  /** _discover_voting_rules registers an attribute that is callable and is not a
      special name. */
  predicate Registers(a: Attribute) {
    a.value.Some? && !IsDunder(a.name)
  }

  /** The dictionary _discover_voting_rules builds from attrs, in order: each
      registered attribute is stored under its name, a later one over an earlier one. */
  function Discovered(attrs: seq<Attribute>): map<string, Rule> {
    if attrs == [] then map[]
    else
      var rules := Discovered(attrs[..|attrs| - 1]);
      var a := attrs[|attrs| - 1];
      if Registers(a) then rules[a.name := a.value.value] else rules
  }

  /** Exactly the names of registered attributes are discovered. */
  lemma {:induction false} DiscoveredNames(attrs: seq<Attribute>, name: string)
    ensures name in Discovered(attrs) <==>
      exists i :: 0 <= i < |attrs| && Registers(attrs[i]) && attrs[i].name == name
  {
    if attrs != [] {
      var init := attrs[..|attrs| - 1];
      DiscoveredNames(init, name);
      if exists i :: 0 <= i < |init| && Registers(init[i]) && init[i].name == name {
        var i :| 0 <= i < |init| && Registers(init[i]) && init[i].name == name;
        assert attrs[i] == init[i];
      }
      if exists i :: 0 <= i < |attrs| && Registers(attrs[i]) && attrs[i].name == name {
        var i :| 0 <= i < |attrs| && Registers(attrs[i]) && attrs[i].name == name;
        if i < |init| {
          assert init[i] == attrs[i];
        }
      }
    }
  }

  /** A discovered name is bound to the rule of the last registered attribute of that
      name. */
  lemma {:induction false} DiscoveredRule(attrs: seq<Attribute>, name: string)
    requires name in Discovered(attrs)
    ensures exists i :: (0 <= i < |attrs| && Registers(attrs[i]) && attrs[i].name == name
      && Discovered(attrs)[name] == attrs[i].value.value
      && forall j :: i < j < |attrs| ==> !(Registers(attrs[j]) && attrs[j].name == name))
  {
    var init := attrs[..|attrs| - 1];
    var a := attrs[|attrs| - 1];
    if Registers(a) && a.name == name {
      assert Discovered(attrs)[name] == a.value.value;
    } else {
      DiscoveredRule(init, name);
      var i :| 0 <= i < |init| && Registers(init[i]) && init[i].name == name
        && Discovered(init)[name] == init[i].value.value
        && forall j :: i < j < |init| ==> !(Registers(init[j]) && init[j].name == name);
      assert attrs[i] == init[i];
      forall j | i < j < |attrs|
        ensures !(Registers(attrs[j]) && attrs[j].name == name)
      {
        if j < |init| {
          assert attrs[j] == init[j];
        }
      }
    }
  }

  /** _discover_voting_rules: walk the attributes of the rules object and register
      every callable one whose name is not a special name. */
  method DiscoverVotingRules(attrs: seq<Attribute>) returns (rules: map<string, Rule>)
    ensures rules == Discovered(attrs)
    ensures forall name :: name in rules <==>
      exists i :: 0 <= i < |attrs| && Registers(attrs[i]) && attrs[i].name == name
  {
    rules := map[];
    var i := 0;
    while i < |attrs|
      invariant 0 <= i <= |attrs|
      invariant rules == Discovered(attrs[..i])
    {
      var a := attrs[i];
      assert attrs[..i + 1][..i] == attrs[..i];
      if a.value.Some? && !IsDunder(a.name) {
        rules := rules[a.name := a.value.value];
      }
      i := i + 1;
    }
    assert attrs[..i] == attrs;
    forall name
      ensures name in rules <==> exists i :: 0 <= i < |attrs| && Registers(attrs[i]) && attrs[i].name == name
    {
      DiscoveredNames(attrs, name);
    }
  }

  /** The decimal digit of d. */
  function DigitChar(d: nat): char
    requires d < 10
  {
    "0123456789"[d]
  }

  /** The value of a decimal digit character. */
  function DigitValue(c: char): nat {
    if '0' <= c <= '9' then (c - '0') as nat else 0
  }

  /** Python's str(n) for a natural number: its decimal digits, most significant
      first, without leading zeros. */
  function NatToString(n: nat): (s: string)
    ensures |s| >= 1 && forall k :: 0 <= k < |s| ==> '0' <= s[k] <= '9'
  {
    if n < 10 then [DigitChar(n)] else NatToString(n / 10) + [DigitChar(n % 10)]
  }

  /** Reading a digit back gives its value. */
  lemma DigitRoundTrip(d: nat)
    requires d < 10
    ensures DigitValue(DigitChar(d)) == d
  {
  }

  /** The number a string of decimal digits denotes. */
  function DecimalValue(s: string): nat {
    if s == [] then 0 else DecimalValue(s[..|s| - 1]) * 10 + DigitValue(s[|s| - 1])
  }

  /** Reading NatToString(n) back gives n. */
  lemma {:induction false} DecimalRoundTrip(n: nat)
    ensures DecimalValue(NatToString(n)) == n
  {
    if n >= 10 {
      var q, d := n / 10, n % 10;
      DecimalRoundTrip(q);
      var s := NatToString(n);
      assert s[..|s| - 1] == NatToString(q);
      DigitRoundTrip(d);
    }
  }

  /** Different numbers are written differently. */
  lemma NatToStringInjective(m: nat, n: nat)
    requires NatToString(m) == NatToString(n)
    ensures m == n
  {
    DecimalRoundTrip(m);
    DecimalRoundTrip(n);
  }

  /** The label column: "Project 1", ..., "Project n". */
  function ProjectLabels(n: nat): (labels: seq<string>)
    ensures |labels| == n && forall i :: 0 <= i < n ==> labels[i] == "Project " + NatToString(i + 1)
  {
    seq(n, i requires 0 <= i < n => "Project " + NatToString(i + 1))
  }

  /** No two projects get the same label. */
  lemma ProjectLabelsDistinct(n: nat)
    ensures Distinct(ProjectLabels(n))
  {
    var labels := ProjectLabels(n);
    forall i, j | 0 <= i < j < n
      ensures labels[i] != labels[j]
    {
      if labels[i] == labels[j] {
        var prefix := "Project ";
        assert labels[i][|prefix|..] == NatToString(i + 1);
        assert labels[j][|prefix|..] == NatToString(j + 1);
        NatToStringInjective(i + 1, j + 1);
      }
    }
    DistinctPairwise(labels);
  }

  /** numpy's zeros((rows, cols)). */
  function Zeros(rows: nat, cols: nat): (m: Matrix)
    ensures |m| == rows && forall r :: 0 <= r < rows ==> |m[r]| == cols && forall c :: 0 <= c < cols ==> m[r][c] == 0.0
  {
    seq(rows, _ => seq(cols, _ => 0.0))
  }

  /** The mesa model that holds the rule registry and the latest voting matrix. The
      voter agent's votes reach it as the matrix each step is given. */
  class VotingModel {
    const numVoters: nat
    const numProjects: nat
    const totalOpTokens: real
    var votingMatrix: Matrix
    var votingRules: map<string, Rule>

    /** A new model: an all-zero matrix and the rules discovered on the rules object,
        whose attributes are attrs. */
    constructor (numVoters: nat, numProjects: nat, totalOpTokens: real, attrs: seq<Attribute>)
      ensures this.numVoters == numVoters && this.numProjects == numProjects
      ensures this.totalOpTokens == totalOpTokens
      ensures votingMatrix == Zeros(numVoters, numProjects) && votingRules == Discovered(attrs)
    {
      var rules := DiscoverVotingRules(attrs);
      this.numVoters, this.numProjects, this.totalOpTokens := numVoters, numProjects, totalOpTokens;
      votingMatrix := Zeros(numVoters, numProjects);
      votingRules := rules;
    }

    /** step: the matrix the voter agent casts for numVoters voters, `cast`, replaces
        the previous one and is returned; the rules stay as they were. */
    method Step(cast: Matrix) returns (m: Matrix)
      modifies this`votingMatrix
      ensures votingMatrix == cast && m == cast
    {
      votingMatrix := cast;
      m := votingMatrix;
    }

    /** run_simulation: one step with the agent's matrix `cast`, then the allocation
        table of that matrix. */
    method RunSimulation(cast: Matrix) returns (r: Result<Table>)
      modifies this`votingMatrix
      ensures votingMatrix == cast && r == CompileFundAllocations()
    {
      var _ := Step(cast);
      r := CompileFundAllocations();
    }

    /** allocate_funds: the named rule applied to the current matrix; an unregistered
        name raises. */
    function AllocateFunds(name: string): (r: Result<seq<real>>)
      reads this`votingRules, this`votingMatrix
      ensures r.Failure? <==> name !in votingRules
      ensures r.Failure? ==> r.error == UnknownAggregation(name)
      ensures r.Success? ==> r.value == votingRules[name](votingMatrix, totalOpTokens, numVoters)
    {
      if name !in votingRules then Failure(UnknownAggregation(name))
      else Success(votingRules[name](votingMatrix, totalOpTokens, numVoters))
    }

    /** add_voting_rule: name now allocates by f; every other name as before. */
    method AddVotingRule(name: string, f: Rule)
      modifies this`votingRules
      ensures votingRules == old(votingRules)[name := f]
      ensures AllocateFunds(name) == Success(f(votingMatrix, totalOpTokens, numVoters))
      ensures forall n :: n != name ==> AllocateFunds(n) == old(AllocateFunds(n))
    {
      votingRules := votingRules[name := f];
    }

    /** remove_voting_rule: name is no longer registered; removing an absent name
        changes nothing and raises nothing. */
    method RemoveVotingRule(name: string)
      modifies this`votingRules
      ensures votingRules == old(votingRules) - {name}
      ensures name !in old(votingRules) ==> votingRules == old(votingRules)
      ensures AllocateFunds(name) == Failure(UnknownAggregation(name))
      ensures forall n :: n != name ==> AllocateFunds(n) == old(AllocateFunds(n))
    {
      if name in votingRules {
        votingRules := votingRules - {name};
      }
    }

    /** compile_fund_allocations: one column per registered rule, computed by
        allocate_funds, then the "Project" label column, which replaces a rule of that
        name. pandas refuses columns of different lengths. */
    function CompileFundAllocations(): (r: Result<Table>)
      reads this`votingRules, this`votingMatrix
      ensures r.Success? ==> r.value.Keys == votingRules.Keys + {"Project"}
      ensures r.Success? ==> r.value["Project"] == Labels(ProjectLabels(numProjects))
      ensures r.Success? ==> forall n :: n in votingRules && n != "Project" ==>
        AllocateFunds(n).Success? && r.value[n] == Allocation(AllocateFunds(n).value)
      ensures r.Failure? <==> exists n :: (n in votingRules && n != "Project" &&
        |votingRules[n](votingMatrix, totalOpTokens, numVoters)| != numProjects)
      ensures r.Failure? ==> r.error == ColumnLengthMismatch
    {
      var columns := map n | n in votingRules :: Allocation(votingRules[n](votingMatrix, totalOpTokens, numVoters));
      var table := columns["Project" := Labels(ProjectLabels(numProjects))];
      if forall n :: n in table ==> ColumnLength(table[n]) == numProjects then Success(table)
      else Failure(ColumnLengthMismatch)
    }
  }

  /** The number of rows a column holds. */
  function ColumnLength(c: Column): nat {
    match c
    case Allocation(amounts) => |amounts|
    case Labels(names) => |names|
  }
}
