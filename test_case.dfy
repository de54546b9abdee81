/**
 The two test-case variants of the harness: a base case that passes when its
 input equals its expected output, and an advanced case that additionally
 demands a complexity level above 2 and writes one trace line per evaluation.

 A test case is modelled twice over: `TestCase` is its immutable value (the
 fields and the concrete variant), and `TestCaseObject` is a heap instance
 holding such a value, so that a suite can either own fresh clones or share
 the very same instances with another suite.
 */
module TestCases {

  /** The closed set of variants; `Advanced` adds the complexity level. */
  datatype TestCase =
    | Base(input: string, expected: string)
    | Advanced(input: string, expected: string, complexityLevel: int)

  /** One line written to the console by an advanced evaluation: the level it reports. */
  datatype TraceLine = ComplexityTrace(level: int)

  /** The pass rule every variant starts from. */
  predicate BaseRule(input: string, expected: string)
  {
    input == expected
  }

  /**
   Evaluation of a test case, dispatched on its variant: the advanced variant
   delegates to the base rule and then requires a level above 2.
   */
  function RunTest(t: TestCase): (passed: bool)
    ensures passed <==> t.input == t.expected && (t.Advanced? ==> t.complexityLevel > 2)
    ensures t.Advanced? && t.complexityLevel <= 2 ==> !passed
    ensures t.Base? ==> (passed <==> t.input == t.expected)
  {
    match t
    case Base(input, expected) => BaseRule(input, expected)
    case Advanced(input, expected, level) => BaseRule(input, expected) && level > 2
  }

  /**
   The console lines one evaluation writes: none for the base variant, and for
   the advanced variant one line with its level, whatever the outcome.
   */
  function RunTestTrace(t: TestCase): (lines: seq<TraceLine>)
    ensures |lines| == if t.Advanced? then 1 else 0
    ensures forall k :: 0 <= k < |lines| ==> lines[k].level == t.complexityLevel
  {
    match t
    case Base(_, _) => []
    case Advanced(_, _, level) => [ComplexityTrace(level)]
  }

  /**
   A heap instance of a test case. Its value never changes after construction;
   what distinguishes two instances with the same value is their identity.
   */
  class TestCaseObject {
    const value: TestCase

    /** A base test case with the given input and expected output. */
    constructor Base(input: string, expected: string)
      ensures value == TestCase.Base(input, expected)
    {
      value := TestCase.Base(input, expected);
    }

    /** An advanced test case with the given input, expected output and level. */
    constructor Advanced(input: string, expected: string, level: int)
      ensures value == TestCase.Advanced(input, expected, level)
    {
      value := TestCase.Advanced(input, expected, level);
    }

    /**
     A new instance of the same concrete variant with the same fields: each
     variant rebuilds itself through its own constructor.
     */
    method Clone() returns (c: TestCaseObject)
      ensures fresh(c)
      ensures c.value == value
      // corollary: the concrete variant is kept
      ensures c.value.Advanced? == value.Advanced?
    {
      if value.Base? {
        c := new TestCaseObject.Base(value.input, value.expected);
      } else {
        c := new TestCaseObject.Advanced(value.input, value.expected, value.complexityLevel);
      }
    }
  }
}
