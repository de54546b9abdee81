/**
 The runner: evaluate one test for a solution, and evaluate a task's whole
 suite into a submission. The solution is handed to both operations and
 consulted by neither: the outcome depends on the test cases alone.
 */
module Runner {
  import opened TestCases
  import opened Suites
  import opened Records

  /** The label written for a test: "Passed" or "Failed". */
  function Label(passed: bool): string
  {
    if passed then "Passed" else "Failed"
  }

  /**
   One test's result. The source evaluates the test twice, once for the label
   and once for the flag; both evaluations give the same answer.
   */
  function RunTestCase(solution: UserSolution, t: TestCase): (r: ExecutionResult)
    ensures r.isPassed <==> t.input == t.expected && (t.Advanced? ==> t.complexityLevel > 2)
    ensures r.actualOutput == "Passed" <==> r.isPassed
    ensures r.actualOutput == "Failed" <==> !r.isPassed
  {
    var r := DefaultResult().(actualOutput := Label(RunTest(t)));
    r.(isPassed := RunTest(t))
  }

  /** The console lines one `RunTestCase` writes: those of two evaluations. */
  function RunTestCaseTrace(t: TestCase): (lines: seq<TraceLine>)
    ensures |lines| == if t.Advanced? then 2 else 0
  {
    RunTestTrace(t) + RunTestTrace(t)
  }

  /** The results of running every test of `ts`, in order. */
  function Outcome(solution: UserSolution, ts: seq<TestCase>): seq<ExecutionResult>
  {
    seq(|ts|, i requires 0 <= i < |ts| => RunTestCase(solution, ts[i]))
  }

  /** The console lines written while running every test of `ts`, in order. */
  function SuiteTrace(ts: seq<TestCase>): seq<TraceLine>
  {
    if ts == [] then [] else SuiteTrace(ts[..|ts| - 1]) + RunTestCaseTrace(ts[|ts| - 1])
  }

  /** The number of tests in `ts` whose evaluation passes. */
  function CountPassing(ts: seq<TestCase>): nat
  {
    if ts == [] then 0
    else CountPassing(ts[..|ts| - 1]) + (if RunTest(ts[|ts| - 1]) then 1 else 0)
  }

  /** The number of advanced tests in `ts`. */
  function CountAdvanced(ts: seq<TestCase>): nat
  {
    if ts == [] then 0
    else CountAdvanced(ts[..|ts| - 1]) + (if ts[|ts| - 1].Advanced? then 1 else 0)
  }

  /** The passed count of an outcome is the number of passing tests. */
  lemma {:induction false} OutcomePassedCount(solution: UserSolution, ts: seq<TestCase>)
    ensures CountPassed(Outcome(solution, ts)) == CountPassing(ts)
  {
    if ts != [] {
      var init := ts[..|ts| - 1];
      OutcomePassedCount(solution, init);
      assert Outcome(solution, ts)[..|ts| - 1] == Outcome(solution, init);
    }
  }

  /** Running a suite writes exactly two trace lines per advanced test. */
  lemma {:induction false} SuiteTraceLength(ts: seq<TestCase>)
    ensures |SuiteTrace(ts)| == 2 * CountAdvanced(ts)
  {
    if ts != [] {
      SuiteTraceLength(ts[..|ts| - 1]);
    }
  }

  /** The candidate's solution never changes the outcome. */
  lemma SolutionIsIgnored(s1: UserSolution, s2: UserSolution, ts: seq<TestCase>)
    ensures Outcome(s1, ts) == Outcome(s2, ts)
  {
  }

  /**
   Runs every test of the task's suite once, in order, writes each result into
   its slot of a new submission and records the number of passed tests.
   */
  method CheckSolution(solution: UserSolution, task: Task) returns (submission: Submission, trace: seq<TraceLine>)
    ensures fresh(submission) && fresh(submission.results)
    ensures submission.solution == solution
    ensures submission.results.Length == task.testSuite.GetTestCount()
    ensures forall i :: 0 <= i < submission.results.Length ==>
              submission.results[i].isPassed == RunTest(task.testSuite.tests[i].value)
    ensures submission.results[..] == Outcome(solution, task.testSuite.Values())
    ensures submission.totalPassed == CountPassing(task.testSuite.Values())
    ensures submission.Tallied()
    ensures task.testSuite.tests == [] ==> submission.results.Length == 0 && submission.totalPassed == 0
    ensures trace == SuiteTrace(task.testSuite.Values())
  {
    var suite := task.GetTestSuite();
    submission := new Submission(solution, suite.GetTestCount());
    ghost var values := suite.Values();
    var totalPassed := 0;
    trace := [];
    for i := 0 to suite.GetTestCount()
      invariant forall k :: 0 <= k < i ==> submission.results[k] == RunTestCase(solution, values[k])
      invariant totalPassed == CountPassing(values[..i])
      invariant trace == SuiteTrace(values[..i])
    {
      var test := suite.GetTests()[i];
      var result := RunTestCase(solution, test.value);
      trace := trace + RunTestCaseTrace(test.value);
      submission.results[i] := result;
      assert values[..i + 1][..i] == values[..i];
      if result.isPassed {
        totalPassed := totalPassed + 1;
      }
    }
    submission.SetTotalPassed(totalPassed);
    assert values[..|values|] == values;
    assert submission.results[..] == Outcome(solution, values);
    OutcomePassedCount(solution, values);
  }

  /**
   The flow of the source's entry point, without its console output: two base
   tests, one passing and one failing, run through a task. Only the suite's
   default construction counts; the task copies the suite without counting.
   */
  method ExampleRun() returns (totalPassed: int, passed: seq<bool>, labels: seq<string>, suitesCreated: nat)
    ensures totalPassed == 1
    ensures passed == [true, false]
    ensures labels == ["Passed", "Failed"]
    ensures suitesCreated == 1
  {
    var counter := new SuiteCounter();
    var test1 := new TestCaseObject.Base("input1", "input1");
    var test2 := new TestCaseObject.Base("input2", "expected2");
    var suite := new TestSuite(counter);
    suite.AddTest(test1);
    suite.AddTest(test2);
    var task := new Task("Example Task", suite);
    var solution := UserSolution("user_solution_code");
    var submission, _ := CheckSolution(solution, task);
    assert task.testSuite.Values() == [test1.value, test2.value];
    totalPassed := submission.GetTotalPassed();
    passed := [submission.results[0].isPassed, submission.results[1].isPassed];
    labels := [submission.results[0].actualOutput, submission.results[1].actualOutput];
    suitesCreated := counter.GetTotalTestSuitesCreated();
  }

  /**
   Two default constructions, then a copy construction, an assignment and a
   shallow copy: only the two default constructions are counted. The copy
   first holds its own instance and, after the shallow copy, the other's.
   */
  method CounterScenario() returns (suitesCreated: nat, copiedCount: nat, ownedAfterCopy: bool, aliased: bool)
    ensures suitesCreated == 2
    ensures copiedCount == 1
    ensures ownedAfterCopy && aliased
  {
    var counter := new SuiteCounter();
    var first := new TestSuite(counter);
    var second := new TestSuite(counter);
    var test := new TestCaseObject.Advanced("x", "x", 3);
    first.AddTest(test);
    var copy := new TestSuite.Copy(first);
    ownedAfterCopy := copy.GetTests()[0] != first.GetTests()[0] && copy.Values() == first.Values();
    second.Assign(first);
    copy.ShallowCopy(second);
    suitesCreated := counter.GetTotalTestSuitesCreated();
    copiedCount := copy.GetTestCount();
    aliased := copy.GetTests()[0] == second.GetTests()[0];
  }

  /** The advanced variant at level 3 passes on equal strings, at level 1 it fails; both trace once. */
  lemma AdvancedScenario()
    ensures RunTest(Advanced("x", "x", 3)) && |RunTestTrace(Advanced("x", "x", 3))| == 1
    ensures !RunTest(Advanced("x", "x", 1)) && |RunTestTrace(Advanced("x", "x", 1))| == 1
  {
  }
}
