/** The quiz total of the coverage example: the sum of the scores of the
    questions answered correctly. A list entry may be null (or another falsy
    value), which counts for nothing. */
module Coverage {
  import opened Wrappers

  datatype Question = Question(isCorrect: bool, score: int)

  /** An entry of the list: a question, or None for a null or falsy entry. */
  type Entry = Option<Question>

  predicate IsCorrect(entry: Entry)
  {
    entry.Some? && entry.value.isCorrect
  }

  /** The scores of the correctly answered questions, in list order. */
  function CorrectScores(entries: seq<Entry>): seq<int>
  {
    if entries == [] then []
    else
      var last := entries[|entries| - 1];
      CorrectScores(entries[..|entries| - 1]) + (if IsCorrect(last) then [last.value.score] else [])
  }

  /** The scores of all questions, whether answered correctly or not. */
  function AllScores(entries: seq<Entry>): seq<int>
  {
    if entries == [] then []
    else
      var last := entries[|entries| - 1];
      AllScores(entries[..|entries| - 1]) + (if last.Some? then [last.value.score] else [])
  }

  function Sum(xs: seq<int>): int
  {
    if xs == [] then 0 else Sum(xs[..|xs| - 1]) + xs[|xs| - 1]
  }

  /** What the quiz is worth: the sum of the correct answers' scores. */
  function CorrectTotal(entries: seq<Entry>): int
  {
    Sum(CorrectScores(entries))
  }

  /** computeQuestions: one pass over the list, adding the score of every
      entry that is present and correct. */
  method ComputeQuestions(questions: seq<Entry>) returns (result: int)
    ensures result == CorrectTotal(questions)
  {
    result := 0;
    for i := 0 to |questions|
      invariant result == CorrectTotal(questions[..i])
    {
      var question := questions[i];
      result := result + (if question.Some? && question.value.isCorrect then question.value.score else 0);
      assert questions[..i + 1] == questions[..i] + [question];
      EntryContribution(questions[..i], question);
    }
    assert questions[..|questions|] == questions;
  }

  /** highCoverage: None stands for the omitted argument, which defaults to
      the empty list; an empty list returns 0 before computeQuestions runs. */
  method HighCoverage(questions: Option<seq<Entry>>) returns (result: int)
    ensures questions.None? ==> result == 0
    ensures questions.Some? ==> result == CorrectTotal(questions.value)
  {
    var list := if questions.Some? then questions.value else [];
    if |list| == 0 {
      return 0;
    }
    result := ComputeQuestions(list);
  }

  lemma {:induction false} SumAppend(xs: seq<int>, ys: seq<int>)
    ensures Sum(xs + ys) == Sum(xs) + Sum(ys)
    decreases |ys|
  {
    if ys == [] {
      assert xs + ys == xs;
    } else {
      var n := |ys| - 1;
      assert (xs + ys)[..|xs + ys| - 1] == xs + ys[..n];
      SumAppend(xs, ys[..n]);
    }
  }

  lemma {:induction false} CorrectScoresAppend(a: seq<Entry>, b: seq<Entry>)
    ensures CorrectScores(a + b) == CorrectScores(a) + CorrectScores(b)
    decreases |b|
  {
    if b == [] {
      assert a + b == a;
    } else {
      var n := |b| - 1;
      assert (a + b)[..|a + b| - 1] == a + b[..n];
      CorrectScoresAppend(a, b[..n]);
    }
  }

  lemma TotalAppend(a: seq<Entry>, b: seq<Entry>)
    ensures CorrectTotal(a + b) == CorrectTotal(a) + CorrectTotal(b)
  {
    CorrectScoresAppend(a, b);
    SumAppend(CorrectScores(a), CorrectScores(b));
  }

  /** Incorrect and null entries add nothing; a correct one adds its score. */
  lemma EntryContribution(entries: seq<Entry>, entry: Entry)
    ensures CorrectTotal(entries + [entry]) ==
      CorrectTotal(entries) + (if IsCorrect(entry) then entry.value.score else 0)
  {
    var extended := entries + [entry];
    assert extended[..|extended| - 1] == entries;
    var tail := if IsCorrect(entry) then [entry.value.score] else [];
    assert CorrectScores(extended) == CorrectScores(entries) + tail;
    SumAppend(CorrectScores(entries), tail);
  }

  /** The empty check of highCoverage is redundant: computeQuestions already
      returns 0 on the empty list. */
  lemma EmptyListTotal()
    ensures CorrectTotal([]) == 0
  {
  }

  /** The total does not depend on the order of the entries. */
  lemma {:induction false} TotalIsOrderIndependent(a: seq<Entry>, b: seq<Entry>)
    requires multiset(a) == multiset(b)
    ensures CorrectTotal(a) == CorrectTotal(b)
    decreases |a|
  {
    if a == [] {
      assert |b| == |multiset(b)| == 0;
    } else {
      var n := |a| - 1;
      var x := a[n];
      assert a == a[..n] + [x];
      assert x in multiset(b);
      var k :| 0 <= k < |b| && b[k] == x;
      var rest := b[..k] + b[k + 1..];
      assert b == b[..k] + [x] + b[k + 1..];
      assert multiset(a) == multiset(a[..n]) + multiset{x};
      assert multiset(b) == multiset(b[..k]) + multiset{x} + multiset(b[k + 1..]);
      assert multiset(rest) == multiset(b[..k]) + multiset(b[k + 1..]);
      calc {
        multiset(a[..n]);
        multiset(a) - multiset{x};
        multiset(b) - multiset{x};
        multiset(rest);
      }
      TotalIsOrderIndependent(a[..n], rest);
      calc {
        CorrectTotal(b);
        { TotalAppend(b[..k] + [x], b[k + 1..]); TotalAppend(b[..k], [x]); }
        CorrectTotal(b[..k]) + CorrectTotal([x]) + CorrectTotal(b[k + 1..]);
        { TotalAppend(b[..k], b[k + 1..]); }
        CorrectTotal(rest) + CorrectTotal([x]);
        CorrectTotal(a[..n]) + CorrectTotal([x]);
        { TotalAppend(a[..n], [x]); }
        CorrectTotal(a);
      }
    }
  }

  predicate NonNegativeScores(entries: seq<Entry>)
  {
    forall i :: 0 <= i < |entries| && entries[i].Some? ==> entries[i].value.score >= 0
  }

  /** With non-negative scores the total lies between 0 and the sum of all
      scores. */
  lemma {:induction false} TotalBounds(entries: seq<Entry>)
    requires NonNegativeScores(entries)
    ensures 0 <= CorrectTotal(entries) <= Sum(AllScores(entries))
    decreases |entries|
  {
    if entries != [] {
      var n := |entries| - 1;
      var init := entries[..n];
      var last := entries[n];
      assert NonNegativeScores(init) by {
        forall i | 0 <= i < |init| && init[i].Some?
          ensures init[i].value.score >= 0
        {
          assert init[i] == entries[i];
        }
      }
      TotalBounds(init);
      var correctTail := if IsCorrect(last) then [last.value.score] else [];
      var allTail := if last.Some? then [last.value.score] else [];
      assert CorrectScores(entries) == CorrectScores(init) + correctTail;
      assert AllScores(entries) == AllScores(init) + allTail;
      SumAppend(CorrectScores(init), correctTail);
      SumAppend(AllScores(init), allTail);
    }
  }

  /** The values the test suite asserts: four correct answers worth 10, 5,
      3 and 2 make 20. */
  lemma AllCorrectExample()
    ensures CorrectTotal([Some(Question(true, 10)), Some(Question(true, 5)),
                          Some(Question(true, 3)), Some(Question(true, 2))]) == 20
  {
    var q10, q5, q3, q2 := Some(Question(true, 10)), Some(Question(true, 5)), Some(Question(true, 3)), Some(Question(true, 2));
    assert [] + [q10] == [q10];
    EntryContribution([], q10);
    assert [q10] + [q5] == [q10, q5];
    EntryContribution([q10], q5);
    assert [q10, q5] + [q3] == [q10, q5, q3];
    EntryContribution([q10, q5], q3);
    assert [q10, q5, q3] + [q2] == [q10, q5, q3, q2];
    EntryContribution([q10, q5, q3], q2);
  }

  /** An incorrect answer worth 5 between two correct ones worth 3 gives 6. */
  lemma SomeIncorrectExample()
    ensures CorrectTotal([Some(Question(true, 3)), Some(Question(false, 5)),
                          Some(Question(true, 3))]) == 6
  {
    var q3, wrong5 := Some(Question(true, 3)), Some(Question(false, 5));
    assert [] + [q3] == [q3];
    EntryContribution([], q3);
    assert [q3] + [wrong5] == [q3, wrong5];
    EntryContribution([q3], wrong5);
    assert [q3, wrong5] + [q3] == [q3, wrong5, q3];
    EntryContribution([q3, wrong5], q3);
  }
}
