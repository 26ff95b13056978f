/**
 * Validation problems of the regex assistant
 * (whylog/assistant/validation_problems.py) and the result record that
 * collects them (whylog/teacher/rule_validation_problems.py).
 */
module Validation {
  import opened Patterns

  datatype Problem =
    | NotMatchingPatternProblem(lineId: int)
    | WrongConverterProblem(groupNo: int, converter: Converter, lineId: int)

  datatype ValidationResult = ValidationResult(errors: seq<Problem>, warnings: seq<Problem>)

  /** No errors and no warnings. */
  const NoProblems := ValidationResult([], [])

  /**
   * `ValidationResult.result_from_results`: the errors of all results, in order, and
   * likewise the warnings.
   */
  function ResultFromResults(results: seq<ValidationResult>): ValidationResult
  {
    if results == [] then NoProblems
    else
      var rest := ResultFromResults(results[1..]);
      ValidationResult(results[0].errors + rest.errors, results[0].warnings + rest.warnings)
  }

  /** A problem is reported exactly when one of the collected results reports it. */
  lemma {:induction false} ResultFromResultsMembers(results: seq<ValidationResult>, p: Problem)
    ensures p in ResultFromResults(results).errors <==> exists i :: 0 <= i < |results| && p in results[i].errors
    ensures p in ResultFromResults(results).warnings <==> exists i :: 0 <= i < |results| && p in results[i].warnings
  {
    if results != [] {
      ResultFromResultsMembers(results[1..], p);
      forall i | 1 <= i < |results| ensures results[i] == results[1..][i - 1] { }
      if p in results[0].errors {
        assert 0 < |results| && p in results[0].errors;
      }
      if p in results[0].warnings {
        assert 0 < |results| && p in results[0].warnings;
      }
      if exists i :: 0 <= i < |results| && p in results[i].errors {
        var i :| 0 <= i < |results| && p in results[i].errors;
        if i > 0 {
          assert p in results[1..][i - 1].errors;
        }
      }
      if exists i :: 0 <= i < |results| && p in results[i].warnings {
        var i :| 0 <= i < |results| && p in results[i].warnings;
        if i > 0 {
          assert p in results[1..][i - 1].warnings;
        }
      }
    }
  }

  /** Collecting is compatible with concatenating the list of results. */
  lemma {:induction false} ResultFromResultsAppend(a: seq<ValidationResult>, b: seq<ValidationResult>)
    ensures ResultFromResults(a + b).errors == ResultFromResults(a).errors + ResultFromResults(b).errors
    ensures ResultFromResults(a + b).warnings == ResultFromResults(a).warnings + ResultFromResults(b).warnings
  {
    if a == [] {
      assert a + b == b;
    } else {
      assert (a + b)[1..] == a[1..] + b;
      ResultFromResultsAppend(a[1..], b);
    }
  }

  /** Collecting two results. */
  lemma ResultFromTwo(a: ValidationResult, b: ValidationResult)
    ensures ResultFromResults([a, b]) == ValidationResult(a.errors + b.errors, a.warnings + b.warnings)
  {
    assert [a, b][1..] == [b];
    assert [b][1..] == [];
    assert ResultFromResults([b]) == ValidationResult(b.errors + [], b.warnings + []);
    assert b.errors + [] == b.errors && b.warnings + [] == b.warnings;
  }
}
