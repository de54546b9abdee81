/**
 The data carriers of a run: the candidate solution, the outcome of one test,
 the submission that collects the outcomes, and the task that pairs a
 description with its own copy of a suite.
 */
module Records {
  import opened Suites

  /** The candidate's code; it is carried along and never interpreted. */
  datatype UserSolution = UserSolution(solutionCode: string)

  /** The outcome of one test: the label written for it and whether it passed. */
  datatype ExecutionResult = ExecutionResult(actualOutput: string, isPassed: bool)

  /** A result before any test has been run. */
  function DefaultResult(): (r: ExecutionResult)
    ensures !r.isPassed && r.actualOutput == ""
  {
    ExecutionResult("", false)
  }

  /** The number of passed results in `rs`. */
  function CountPassed(rs: seq<ExecutionResult>): (n: nat)
    ensures n <= |rs|
  {
    if rs == [] then 0
    else CountPassed(rs[..|rs| - 1]) + (if rs[|rs| - 1].isPassed then 1 else 0)
  }

  /** Every result passed exactly when the count of passed results is the length. */
  lemma {:induction false} AllPassedIff(rs: seq<ExecutionResult>)
    ensures CountPassed(rs) == |rs| <==> forall i :: 0 <= i < |rs| ==> rs[i].isPassed
  {
    if rs != [] {
      var init := rs[..|rs| - 1];
      AllPassedIff(init);
      assert forall i :: 0 <= i < |init| ==> init[i] == rs[i];
    }
  }

  /**
   A submission: a copy of the solution, one result slot per test (sized when
   the submission is built) and the number of passed tests.
   */
  class Submission {
    const solution: UserSolution
    const results: array<ExecutionResult>
    var totalPassed: int

    /** `testCount` default results and a passed count of zero. */
    constructor(userSolution: UserSolution, testCount: nat)
      ensures solution == userSolution
      ensures fresh(results) && results.Length == testCount
      ensures forall i :: 0 <= i < testCount ==> results[i] == DefaultResult()
      ensures totalPassed == 0
    {
      solution := userSolution;
      results := new ExecutionResult[testCount](_ => DefaultResult());
      totalPassed := 0;
    }

    /** The passed count agrees with the results held. */
    ghost predicate Tallied()
      reads this, results
    {
      totalPassed == CountPassed(results[..])
    }

    method SetTotalPassed(passed: int)
      modifies this
      ensures totalPassed == passed
    {
      totalPassed := passed;
    }

    function GetTotalPassed(): int
      reads this
    {
      totalPassed
    }
  }

  /**
   A task: a description and a suite that the task owns, copied from the one it
   was given. The copy goes through the suite's copy constructor, so building a
   task does not change the suite counter.
   */
  class Task {
    const description: string
    const testSuite: TestSuite

    constructor(desc: string, suite: TestSuite)
      ensures description == desc
      ensures fresh(testSuite)
      ensures ClonesOf(testSuite.tests, suite.tests)
      ensures forall i :: 0 <= i < |testSuite.tests| ==> fresh(testSuite.tests[i])
      ensures testSuite.Values() == suite.Values()
    {
      description := desc;
      testSuite := new TestSuite.Copy(suite);
    }

    function GetTestSuite(): TestSuite
    {
      testSuite
    }
  }
}
