# Clean-code examples, modelled in Dafny

The repository teaches design by pairing a "bad" and a "good" version of small
pieces of code. This project models the pieces that hold real logic and proves
what each pair promises: that the refactored version does the same thing, or
what the checks in it guarantee.

- **Tennis kata** (`tennis.dfy`, `decimal.dfy`). Four refactorings turn two
  point counts into a score text. `Classify` and `Score` state the tennis
  rules once: running score, deuce, advantage, win. `GetScore1` keeps the
  string-building loop of `getScore1`. `GetScore2` keeps the chain of
  overwriting `if`s of `getScore2`, including the variables JavaScript leaves
  `undefined`. `GetScore3` and `GetScore4` are pure functions, and
  `isPlaying` keeps its lookup of the text key `"a-b"` in a list of fifteen
  keys. Each implementation is proved to return `Score` for every pair of
  natural numbers. `ExportedScoresAgree` states that the four exported
  functions agree.
- **Quiz total** (`high_coverage.dfy`). `computeQuestions` is a loop that
  adds up the scores of correct answers. A null entry is `None`. The loop is
  proved to compute the sum of the correct scores. The empty-list guard of
  `highCoverage` is proved redundant. The total is proved independent of the
  order of the entries and bounded by the sum of all scores.
- **Positive and negative conditionals** (`understandability.dfy`). Each
  negatively named predicate is proved to be the negation of its positive
  twin. An email is "valid" when it contains both characters, in any
  position.
- **Polymorphism over conditionals** (`design_rules.dfy`). The Java shapes
  keep their dimensions in `final` fields, so they are modelled as immutable
  datatype values. The throwing constructors become functions that return
  `Failure(IllegalArgument(message))`. Every shape they build is valid and
  has a positive area. `ShapeBad.area` returns 0 for any type string except
  exactly `"circle"` and `"square"`.
- **Error handling** (`error_handling.dfy`). `processFileWithRetry` is a
  loop with early exits. The file operation and the pause are oracles indexed
  by how often each has been used. `IsRunOf` describes every possible run,
  and `RunIsUnique` shows the oracles decide the run. The lemmas beside it
  cover first success, three failures, interrupt and other exceptions.
  `processOrder` is a chain of four guards; the first one that fails decides
  the error.
- **Printed output** (`java_console.dfy`, `boundary_conditions.dfy`,
  `polymorphism.dfy`). `System.out.println` appends its text and `"\n"` to a
  `Console` object's `out` field. Java's `int` addition wraps around, which
  is written out in `Wrap`. A null `String` prints as `null`. Each pair of
  methods is called on fresh consoles in `CompareOutputs` and the `Compare*`
  methods, and the printed texts are proved equal.
  One difference shows up: `doInstead(m, null)` prints a second line `null`,
  while `dontDo(m, null)` prints only `m` (`CompareNullDetails`).

The shape constructors throw `IllegalArgumentException` with one message
per class; the model returns that message in `Failure`.

## Model

| member | source | states |
|---|---|---|
| `Tennis.PhaseCharacterization` | sources/katas/refactoring/tennis.js:21-26 | a win is four or more points with a lead of two; an advantage is a lead of one with the trailing player on three or more; deuce is equal points from three on |
| `Tennis.EqualPointsScore` | sources/katas/refactoring/tennis.js:6-20 | equal points give "Love-All", "Fifteen-All" and "Thirty-All" for 0, 1 and 2, and "Deuce" for 3 or more |
| `Tennis.RunningScore` | sources/katas/refactoring/tennis.js:27-48 | different points of at most three each read "<name of p1>-<name of p2>" from Love/Fifteen/Thirty/Forty |
| `Tennis.AdvantageScore` | sources/katas/refactoring/tennis.js:134-140 | once a player has four points, a difference of one gives "Advantage " and the leader |
| `Tennis.WinScore` | sources/katas/refactoring/tennis.js:142-147 | once a player has four points, a lead of two or more gives "Win for " and the leader |
| `Tennis.ScoreIsScoreText` | sources/katas/refactoring/tennis.js:3-166 | every score is a running score, an "-All" score, "Deuce", or one of the four advantage and win texts |
| `Tennis.GetScore1` | sources/katas/refactoring/tennis.js:3-51 | the switch, the difference test and the string-building loop of getScore1 return the score the rules give, for all natural inputs |
| `Tennis.GetScore2` | sources/katas/refactoring/tennis.js:53-149 | the chain of overwriting ifs of getScore2 ends with the score the rules give; the last two checks overwrite any intermediate "undefined-Love" text |
| `Tennis.SquareIsOne` | sources/katas/refactoring/tennis.js:164 | the squared difference is 1 exactly when the difference is 1 or -1 |
| `Tennis.GetScore3FollowsRules` | sources/katas/refactoring/tennis.js:151-166 | getScore3 returns the score the rules give, for all natural inputs |
| `Tennis.PlayingKeyLookup` | sources/katas/refactoring/tennis.js:169-173 | the key "a-b" is among the fifteen listed keys exactly when a and b are at most 3 and not both 3 |
| `Tennis.IsPlaying` | sources/katas/refactoring/tennis.js:169-173 | isPlaying holds exactly when both counts are at most 3 and not both 3, which is also the guard p1 < 4 && p2 < 4 && p1 + p2 < 6 of getScore3 |
| `Tennis.GetScore4FollowsRules` | sources/katas/refactoring/tennis.js:175-210 | getScore4 returns the score the rules give, under any player names |
| `Tennis.GetScore4Names` | sources/katas/refactoring/tennis.js:193-209 | with the default names getScore4 equals getScore3; other names change only the advantage and win texts |
| `Tennis.ExportedScoresAgree` | sources/katas/refactoring/tennis.js:212-217 | the four exported functions return the same text for every pair of natural point counts |
| `Decimal.NaturalToString` | sources/katas/refactoring/tennis.js:171 | the text of a number is its decimal numeral: non-empty, all digits, denoting the number, with a leading '0' only for 0 itself (one character exactly below 10) |
| `Decimal.IntToString` | sources/cleanCode/BoundaryConditions.java:7 | the printed text of an int is '-' exactly when it is negative, followed by the numeral of its magnitude without leading zeros |
| `Coverage.ComputeQuestions` | sources/coverages/highCoverage.js:2-8 | one pass over the list returns the sum of the scores of the entries that are present and correct |
| `Coverage.HighCoverage` | sources/coverages/highCoverage.js:10-15 | an omitted list gives 0; otherwise the result is the sum of the correct scores, so the empty check changes nothing |
| `Coverage.EntryContribution` | sources/coverages/highCoverage.js:5 | a null or incorrect entry adds nothing to the total; a correct one adds its score |
| `Coverage.EmptyListTotal` | sources/coverages/highCoverage.js:10-13 | the total of the empty list is 0 |
| `Coverage.TotalIsOrderIndependent` | sources/coverages/highCoverage.js:4-5 | two lists with the same entries in any order have the same total |
| `Coverage.TotalBounds` | sources/coverages/highCoverage.js:4-5 | with non-negative scores the total is between 0 and the sum of all scores |
| `Coverage.AllCorrectExample` | sources/coverages/highCoverage.test.js:20-29 | four correct answers worth 10, 5, 3 and 2 total 20 |
| `Coverage.SomeIncorrectExample` | sources/coverages/highCoverage.test.js:31-38 | correct 3, incorrect 5, correct 3 total 6 |
| `Understandability.IsUserAuthorized` | course/resources/clean-code/02-understandability.py:27-28 | an authorized user is always active |
| `Understandability.ValidEmailIgnoresOrder` | course/resources/clean-code/02-understandability.py:51-52 | two strings with the same characters in any order are both valid or both invalid |
| `Understandability.ValidEmailAnyPlacement` | course/resources/clean-code/02-understandability.py:51-52 | any text with an '@' and a '.' in it, in either order and with anything around them, is valid, and adding text to a valid email keeps it valid |
| `Understandability.NotAuthorizedIsNegation` | course/resources/clean-code/02-understandability.py:12-28 | is_user_not_authorized is the negation of is_user_authorized for every user and permission check |
| `Understandability.NotValidEmailIsNegation` | course/resources/clean-code/02-understandability.py:42-52 | is_not_valid_email is the negation of is_valid_email for every string |
| `Understandability.EmailExamples` | course/resources/clean-code/02-understandability.py:52 | "test@example.com" is valid, "testexample.com" and "test@" are not, and the order of '@' and '.' does not matter |
| `DesignRules.Shape.Area` | course/resources/clean-code/01-design-rules.java:44-93 | a valid circle, square or triangle has a strictly positive area |
| `DesignRules.NewCircle` | course/resources/clean-code/01-design-rules.java:47-52 | construction succeeds exactly for a positive radius, giving a valid circle of area PI * r * r; otherwise it fails with "Radius must be positive" |
| `DesignRules.NewSquare` | course/resources/clean-code/01-design-rules.java:63-68 | construction succeeds exactly for a positive side, giving a valid square of area side * side; otherwise it fails with "Side must be positive" |
| `DesignRules.NewTriangle` | course/resources/clean-code/01-design-rules.java:81-87 | construction succeeds exactly when base and height are both positive, giving half their product as area; otherwise it fails with "Base and height must be positive" |
| `DesignRules.ShapeBadAgreesWithVariants` | course/resources/clean-code/01-design-rules.java:17-22 | ShapeBad's "circle" and "square" areas equal those of Circle and Square with the same dimension |
| `DesignRules.ShapeBadUnknownType` | course/resources/clean-code/01-design-rules.java:17-24 | any type string other than exactly "circle" or "square" gives area 0 |
| `DesignRules.ShapeBadTypos` | course/resources/clean-code/01-design-rules.java:31 | "Circle", "cirlce" and "triangle" all give area 0 |
| `DesignRules.UsageExample` | course/resources/clean-code/01-design-rules.java:95-98 | Circle(5), Square(10) and Triangle(4, 6) construct and have areas 25 * PI, 100 and 12 |
| `ErrorHandling.ProcessFileWithRetry` | course/resources/clean-code/09-error-handling.java:64-103 | every run makes 1 to 3 calls; every call but the last threw an IOException followed by an uninterrupted pause; the last call or pause decides between return, FileProcessingException after the third call, interruption and propagation |
| `ErrorHandling.RunIsUnique` | course/resources/clean-code/09-error-handling.java:65-102 | the outcomes of the calls and pauses determine the run completely |
| `ErrorHandling.FirstSuccessReturns` | course/resources/clean-code/09-error-handling.java:72-75 | a first success at call k returns after exactly k calls and k - 1 pauses |
| `ErrorHandling.ThreeFailuresThrow` | course/resources/clean-code/09-error-handling.java:78-87 | three IOExceptions throw after exactly 3 calls and 2 pauses, with the "after 3 attempts" message |
| `ErrorHandling.InterruptStops` | course/resources/clean-code/09-error-handling.java:93-100 | an interrupted pause after call k throws "File processing interrupted" after k calls and sets the interrupt status again |
| `ErrorHandling.OtherFailurePropagates` | course/resources/clean-code/09-error-handling.java:77 | an exception other than IOException escapes from the call that threw it, with no retry |
| `ErrorHandling.ProcessOrder` | course/resources/clean-code/09-error-handling.java:137-158 | null order, then missing or empty items, then missing customer, then total <= 0: the first failing check decides the error, and the order is accepted exactly when all pass |
| `JavaConsole.Console.Println` | sources/cleanCode/BoundaryConditions.java:7 | println appends the text and a newline to what was printed, and changes nothing else |
| `JavaConsole.EmbeddedNewlineSplitsLine` | sources/cleanCode/Polymorphism.java:8 | printing a text with "\n" in it writes the same as printing its two parts on separate lines |
| `BoundaryConditionsExample.Wrap` | sources/cleanCode/BoundaryConditions.java:6 | a 32-bit int result equals the exact one inside the int range and wraps by 2^32 just above it |
| `BoundaryConditionsExample.Successor` | sources/cleanCode/BoundaryConditions.java:12 | value + 1 is the next integer below Integer.MAX_VALUE and Integer.MIN_VALUE at it |
| `BoundaryConditionsExample.BoundaryConditions.DontDo` | sources/cleanCode/BoundaryConditions.java:5-9 | prints value + 1 on one line when it is below length, otherwise nothing; touches nothing but the console |
| `BoundaryConditionsExample.BoundaryConditions.DoInsteald` | sources/cleanCode/BoundaryConditions.java:11-16 | prints nextValue on one line when it is below length, otherwise nothing; touches nothing but the console |
| `BoundaryConditionsExample.CompareOutputs` | sources/cleanCode/BoundaryConditions.java:5-16 | both methods print the same text for every pair of ints, and they print nothing exactly when value + 1 (wrapped) is not below length |
| `BoundaryConditionsExample.WrapAroundAtMaxValue` | sources/cleanCode/BoundaryConditions.java:6-7 | at Integer.MAX_VALUE both print Integer.MIN_VALUE, a negative number, for any length above MIN_VALUE |
| `PolymorphismExample.Polymorphism.DontDo` | sources/cleanCode/Polymorphism.java:5-12 | with details, prints the one line message + "\n" + details; with null details, prints the message alone |
| `PolymorphismExample.Polymorphism.DoInstead` | sources/cleanCode/Polymorphism.java:14-16 | prints the message on one line |
| `PolymorphismExample.Polymorphism.DoInsteadWithDetails` | sources/cleanCode/Polymorphism.java:18-21 | prints the message line and then the details line |
| `PolymorphismExample.CompareWithDetails` | sources/cleanCode/Polymorphism.java:5-21 | with non-null details, dontDo and the two-argument doInstead print the same text |
| `PolymorphismExample.CompareWithoutDetails` | sources/cleanCode/Polymorphism.java:9-16 | dontDo with null details prints the same text as the one-argument doInstead |
| `PolymorphismExample.CompareNullDetails` | sources/cleanCode/Polymorphism.java:18-21 | the two-argument doInstead with null details prints an extra "null" line that dontDo does not |

## Left out

- Point counts in the tennis kata are natural numbers. Outside them the four functions disagree, and this is not modelled. For (-1, 0), getScore1 returns "-Love" (its inner switch has no default), getScore2 returns "undefined-undefined", getScore3 returns "undefined-Love", and getScore4 returns "Advantage player2". The agreement in `Tennis.ExportedScoresAgree` holds for natural counts only.
- JavaScript writes numbers of 10^21 and above in exponent form, and counts above 2^53 are not exact. `Decimal.NaturalToString` gives the plain decimal numeral for every natural number. The isPlaying key lookup is unaffected, because every such key is outside the fifteen listed keys.
- `Tennis.PlayingScore` and the lookups in the table of point names require counts of at most 3. Their only callers check this first.
- JavaScript numbers are doubles. Quiz scores are modelled as unbounded integers, so rounding above 2^53 and non-numeric scores (which JavaScript would concatenate) are not modelled.
- A correct question without a `score` adds `undefined`, which makes the total `NaN`; every modelled question has a score, so this is not modelled.
- `isCorrect` is a boolean rather than any truthy value. A question without `isCorrect` adds 0, which the model covers only as `isCorrect` false.
- `Coverage.HighCoverage`: an explicit `null` argument makes `questions.length` throw; only an omitted argument (the default `[]`) is modelled.
- Java doubles are modelled as reals and `Math.PI` as its decimal text `3.141592653589793`, so IEEE-754 rounding and NaN are not modelled. A NaN passes the `<= 0` guards of the shape constructors and of `processOrder` (NaN compares false), so `new Circle(Double.NaN)` builds a circle of area NaN and a NaN total is accepted; the model's "succeeds exactly for a positive" contracts hold for reals only. `ShapeBad.area(null)` would throw a NullPointerException; the type string is never null in the model.
- The area formulas go through a helper `Times` for multiplication. It is the same product, grouped left to right as Java evaluates it.
- The first three try/catch fragments of the error-handling file (lines 14-50) are statements outside any method. `processFileWithResources` reads a file through streams. Both are I/O and logging and are not modelled.
- Logging, the 1000 ms pause length and the exception chaining (`cause`) of `processFileWithRetry` are not modelled. Only the number of calls and pauses, the exit and the interrupt status are.
- `ErrorHandling.ProcessOrder` records the error kind with the order id and total, not the formatted message text, because Java's formatting of a double is not modelled.
- `println` is assumed to use "\n" as its line separator. Other platforms' separators are not modelled.
- The usage loop over a list of `IShape` (design-rules lines 100-103) is a comment in the source. Only its three constructions and areas are stated (`DesignRules.UsageExample`).
