# Test-harness simulator, modelled in Dafny

The system is a small in-process test harness. A suite holds test cases of two
kinds. A base case passes when its input equals its expected output. An
advanced case also needs a complexity level above 2, and it writes one trace
line each time it is evaluated. A task owns its own copy of a suite. The runner
evaluates every test of a task for a candidate solution and collects one result
per test, plus the number of tests passed, into a submission. The solution
string is carried along but never consulted.

The model has four modules:

- `TestCases` (`test_case.dfy`) holds the variants. `TestCase` is the immutable
  value (`Base` or `Advanced`) and `RunTest` is its pass rule. `RunTestTrace`
  gives the console lines one evaluation writes. `TestCaseObject` is a heap
  instance holding such a value; its `Clone` rebuilds the same variant as a
  new instance.
- `Suites` (`test_suite.dfy`) holds the suite. `TestSuite.tests` is a sequence of
  instance references. Deep copy (copy construction, assignment) is written
  through `CloneAll` and stated with `ClonesOf`: the same values, and fresh,
  pairwise distinct instances. `ShallowCopy` shares the other suite's references.
  The process-wide creation counter is a `SuiteCounter` object that the default
  constructor is handed and increments.
- `Records` (`records.dfy`) holds `UserSolution`, `ExecutionResult` (value
  records), `Submission` (results kept in a fixed-size array, plus the passed
  count) and `Task`.
- `Runner` (`runner.dfy`) holds `RunTestCase` and `CheckSolution`, the
  specification functions `Outcome`, `CountPassing` and `SuiteTrace`, and the
  lemmas and scenarios about them.

The accessors `getTests`, `getTestCount`, `getTotalTestSuitesCreated`,
`getTotalPassed` and `getTestSuite` are the functions `TestSuite.GetTests`,
`TestSuite.GetTestCount`, `SuiteCounter.GetTotalTestSuitesCreated`,
`Submission.GetTotalPassed` and `Task.GetTestSuite`.
`getDescription`, `getSolutionCode`, `getActualOutput`, `getIsPassed`,
`getResults` and `getSolution` are read as fields of the corresponding Dafny
class or datatype.

A note on the creation counter: its name, `totalTestSuitesCreated`, suggests
that every suite construction counts, copies included. The code increments
the counter only in the default constructor (main.cpp:69-71). Its copy constructor (main.cpp:107-111)
leaves the counter alone. The model follows the code. So the source's own entry
point ends with a count of 1, although the task also copies the suite
(`ExampleRun`). Two default constructions followed by a copy give 2, not 3
(`CounterScenario`).

## Model

| member | source | states |
|---|---|---|
| `TestCases.RunTest` | main.cpp:32-53 | a test passes iff input equals expected and, for the advanced variant, the level exceeds 2; an advanced test with level at most 2 never passes |
| `TestCases.RunTestTrace` | main.cpp:51-53 | one evaluation writes one trace line carrying the level for an advanced test, regardless of outcome, and none for a base test |
| `TestCases.TestCaseObject.Base` | main.cpp:29-30 | a base instance holds exactly the given input and expected output |
| `TestCases.TestCaseObject.Advanced` | main.cpp:48-49 | an advanced instance holds the given input, expected output and level |
| `TestCases.TestCaseObject.Clone` | main.cpp:37-58 | clone is a new instance of the same variant with identical input, expected and level |
| `Suites.SuiteCounter.constructor` | main.cpp:125 | the creation count starts at 0 |
| `Suites.CloneAll` | main.cpp:108-110 | the result is element by element a fresh clone of the source, of the same length, with no instance twice |
| `Suites.TestSuite.constructor` | main.cpp:69-71 | a new suite is empty and the creation count grows by exactly one |
| `Suites.TestSuite.Copy` | main.cpp:107-111 | the copy has the source's length, element i is a fresh clone of source element i, it shares no instance with the source, and the counter is not touched |
| `Suites.TestSuite.AddTest` | main.cpp:74-76 | the given instance is appended at the end; the count grows by one and earlier elements are unchanged |
| `Suites.TestSuite.Assign` | main.cpp:93-104 | self-assignment leaves the suite unchanged; otherwise the suite becomes fresh clones of the other's elements; the other suite is unchanged |
| `Suites.TestSuite.ShallowCopy` | main.cpp:120-122 | the suite holds exactly the other suite's references, none of them new; the other suite is unchanged |
| `Records.DefaultResult` | main.cpp:167 | a default result has not passed and has an empty output |
| `Records.CountPassed` | main.cpp:232-234 | the number of passed results never exceeds the number of results |
| `Records.AllPassedIff` | main.cpp:232-236 | the passed count equals the number of results iff every result passed |
| `Records.Submission.constructor` | main.cpp:194-197 | a submission keeps the solution, has one default result per test and a passed count of 0 |
| `Records.Submission.SetTotalPassed` | main.cpp:199-201 | the passed count becomes the given value |
| `Records.Task.constructor` | main.cpp:134-135 | a task keeps the description and owns a fresh deep copy of the given suite with the same test values |
| `Runner.RunTestCase` | main.cpp:217-222 | the result's flag is the test's pass rule, and its label is "Passed" exactly when it passed and "Failed" otherwise |
| `Runner.RunTestCaseTrace` | main.cpp:219-220 | running one test writes two trace lines for an advanced test, since it is evaluated twice, and none for a base test |
| `Runner.OutcomePassedCount` | main.cpp:227-236 | the number of passed results of a run equals the number of tests whose pass rule holds |
| `Runner.SuiteTraceLength` | main.cpp:228-230 | a whole run writes exactly two trace lines per advanced test |
| `Runner.SolutionIsIgnored` | main.cpp:217-222 | any two solutions give the same results on the same tests |
| `Runner.CheckSolution` | main.cpp:225-238 | one result per test, in order; each flag is that test's pass rule; the results are those of `RunTestCase`; the passed count equals the number of passed results; an empty suite gives no results and 0 passed |
| `Runner.ExampleRun` | main.cpp:241-261 | the entry point's suite of two base tests gives 1 passed, results [Passed, Failed], and a creation count of 1 |
| `Runner.CounterScenario` | main.cpp:66-125 | two default constructions and a copy give a count of 2; the copy owns its own instance until a shallow copy makes it share one |
| `Runner.AdvancedScenario` | main.cpp:51-54 | ("x","x",3) passes and ("x","x",1) fails, and each writes one trace line |

## Left out

- Console output: the trace line of the advanced evaluation is modelled as a `TraceLine` value carrying the level. Its text and formatting are not modelled, and neither is the printing in `main` (main.cpp:255-261).
- Destructors and `delete` (main.cpp:95-98, main.cpp:113-117): manual memory release has no counterpart in Dafny. The double release that follows a `ShallowCopy` is described in a comment only. So is an assignment that releases instances another suite still shares.
- The static counter as global state: it is an explicit `SuiteCounter` object passed to the default constructor, since Dafny has no mutable statics.
- `int` and `size_t`: counts, indices and `testCount` are unbounded naturals. A negative `testCount` passed to `resize` is not modelled.
- Out-of-range indexing of the results or tests: the code never does it inside the core, and index bounds are checked by the verifier wherever the model indexes.
- Null test pointers: `addTest` (main.cpp:74-76) accepts a null pointer, which only fails later in `clone` or `runTest`; the model's references are non-null, so test pointers are assumed non-null.
- `UserSolution`: its code string is plain data and is never interpreted.
