/** The regular expressions of the guardrail service, one constructor each.
    Every one of them carries the `i` flag and none the `g` flag, so `test`
    keeps no state between calls. Without the `u` flag, `i` folds exactly the
    ASCII letters, and `\s`, `\w`, `\d` and `.` do not change under ASCII
    lower-casing. So testing a pattern against a message is the same as
    matching its lower-case form against the lower-case text: `Test` is
    `Holds` on `Lower(s)`. `Holds` spells out, per pattern, what a match
    somewhere in the text is. */
module Patterns {
  import opened Text

  datatype Pattern =
    // medical-advice patterns
    | DoseQuantityQuestion   // how (?:many|much) (?:mg|ml|milligrams|milliliters|units|iu)
    | WhatDose               // what (?:dose|dosage)
    | ShouldITake            // should i take
    | Prescribe              // prescribe
    | WhatMedication         // what medication
    | RecommendTreatment     // recommend.+(?:drug|medication|medicine|dose)
    | AmountOfDrug           // \d+\s*(?:mg|ml|mcg|iu)\s+(?:of|for)
    | IncreaseDose           // increase.+(?:dose|dosage)
    | DecreaseDose           // decrease.+(?:dose|dosage)
    | StartTakingAmount      // start.+(?:taking|on)\s+\w+\s+(?:mg|ml)
    // PHI-request patterns
    | FullName               // (?:full|complete)\s+name
    | DateOfBirth            // date of birth|dob|birth\s*date
    | SocialSecurity         // social security|ssn
    | HomeAddress            // (?:home|street|mailing)\s+address
    | MedicalRecord          // medical record
    | InsuranceNumber        // insurance.*number
    | DriversLicense         // driver'?s?\s+license

  const DoseWords: seq<string> := ["dose", "dosage"]
  const TreatmentWords: seq<string> := ["drug", "medication", "medicine", "dose"]
  const QuantityUnits: seq<string> := ["mg", "ml", "milligrams", "milliliters", "units", "iu"]
  const AmountUnits: seq<string> := ["mg", "ml", "mcg", "iu"]

  /** Some word of `ws` starts at index `i` of `t`. */
  predicate AtAny(t: string, i: int, ws: seq<string>)
  {
    exists k :: 0 <= k < |ws| && At(t, i, ws[k])
  }

  /** `t[a..b]` is a run of `\s` characters. */
  predicate Spaces(t: string, a: int, b: int)
  {
    0 <= a <= b <= |t| && forall k :: a <= k < b ==> IsSpace(t[k])
  }

  /** `t[a..b]` is a run of `\w` characters. */
  predicate WordChars(t: string, a: int, b: int)
  {
    0 <= a <= b <= |t| && forall k :: a <= k < b ==> IsWordChar(t[k])
  }

  /** `t[a..b]` is a run that `.` matches throughout. */
  predicate NoBreak(t: string, a: int, b: int)
  {
    0 <= a <= b <= |t| && forall k :: a <= k < b ==> !IsLineTerminator(t[k])
  }

  /** From index `a`: at least `min` spaces, then a word of `ws`
      (`\s*` for `min == 0`, `\s+` for `min == 1`). */
  predicate SpacesThen(t: string, a: int, min: nat, ws: seq<string>)
  {
    exists b :: a + min <= b <= |t| && Spaces(t, a, b) && AtAny(t, b, ws)
  }

  /** From index `a`: at least `min` characters other than line terminators,
      then a word of `ws` (`.*` for `min == 0`, `.+` for `min == 1`). */
  predicate GapThen(t: string, a: int, min: nat, ws: seq<string>)
  {
    exists b :: a + min <= b <= |t| && NoBreak(t, a, b) && AtAny(t, b, ws)
  }

  /** At index `i`: a word of `first`, at least `min` spaces, a word of `next`. */
  predicate WordSpacesWord(t: string, i: int, first: seq<string>, min: nat, next: seq<string>)
  {
    exists k :: 0 <= k < |first| && At(t, i, first[k]) && SpacesThen(t, i + |first[k]|, min, next)
  }

  /** From index `a`: `\s+\w+\s+(?:mg|ml)`. */
  predicate WordThenMilli(t: string, a: int)
  {
    exists b :: a + 1 <= b <= |t| && Spaces(t, a, b) && WordThenUnit(t, b)
  }

  /** From index `b`: `\w+\s+(?:mg|ml)`. */
  predicate WordThenUnit(t: string, b: int)
  {
    exists c :: b + 1 <= c <= |t| && WordChars(t, b, c) && SpacesThen(t, c, 1, ["mg", "ml"])
  }

  /** From index `a`: `.+(?:taking|on)\s+\w+\s+(?:mg|ml)`. */
  predicate GapThenTakingAmount(t: string, a: int)
  {
    exists b :: a + 1 <= b <= |t| && NoBreak(t, a, b)
                && ((At(t, b, "taking") && WordThenMilli(t, b + 6)) || (At(t, b, "on") && WordThenMilli(t, b + 2)))
  }

  /** From index `a`: `\s*(?:mg|ml|mcg|iu)\s+(?:of|for)`. */
  predicate UnitOfAt(t: string, a: int)
  {
    exists b :: a <= b <= |t| && Spaces(t, a, b) && WordSpacesWord(t, b, AmountUnits, 1, ["of", "for"])
  }

  /** Some match of `p` occurs in the lower-case text `t`. */
  predicate Holds(p: Pattern, t: string)
  {
    match p
    case DoseQuantityQuestion =>
      exists i :: 0 <= i <= |t| && AtAny(t, i, ["how many ", "how much "]) && AtAny(t, i + 9, QuantityUnits)
    case WhatDose => exists i :: 0 <= i <= |t| && At(t, i, "what ") && AtAny(t, i + 5, DoseWords)
    case ShouldITake => Contains(t, "should i take")
    case Prescribe => Contains(t, "prescribe")
    case WhatMedication => Contains(t, "what medication")
    case RecommendTreatment => exists i :: 0 <= i <= |t| && At(t, i, "recommend") && GapThen(t, i + 9, 1, TreatmentWords)
    case AmountOfDrug => exists i :: 0 <= i < |t| && IsDigit(t[i]) && UnitOfAt(t, i + 1)
    case IncreaseDose => exists i :: 0 <= i <= |t| && At(t, i, "increase") && GapThen(t, i + 8, 1, DoseWords)
    case DecreaseDose => exists i :: 0 <= i <= |t| && At(t, i, "decrease") && GapThen(t, i + 8, 1, DoseWords)
    case StartTakingAmount => exists i :: 0 <= i <= |t| && At(t, i, "start") && GapThenTakingAmount(t, i + 5)
    case FullName => exists i :: 0 <= i <= |t| && WordSpacesWord(t, i, ["full", "complete"], 1, ["name"])
    case DateOfBirth =>
      || Contains(t, "date of birth")
      || Contains(t, "dob")
      || exists i :: 0 <= i <= |t| && WordSpacesWord(t, i, ["birth"], 0, ["date"])
    case SocialSecurity => Contains(t, "social security") || Contains(t, "ssn")
    case HomeAddress => exists i :: 0 <= i <= |t| && WordSpacesWord(t, i, ["home", "street", "mailing"], 1, ["address"])
    case MedicalRecord => Contains(t, "medical record")
    case InsuranceNumber => exists i :: 0 <= i <= |t| && At(t, i, "insurance") && GapThen(t, i + 9, 0, ["number"])
    case DriversLicense =>
      exists i :: 0 <= i <= |t| && WordSpacesWord(t, i, ["driver", "driver'", "drivers", "driver's"], 1, ["license"])
  }

  /** `pattern.test(s)` for a pattern with the `i` flag. */
  predicate Test(p: Pattern, s: string)
  {
    Holds(p, Lower(s))
  }

  /** The `i` flag: changing the case of letters never changes whether a
      pattern matches. */
  lemma {:induction false} TestIgnoresCase(p: Pattern, a: string, b: string)
    requires SameUpToCase(a, b)
    ensures Test(p, a) == Test(p, b)
  {
    SameUpToCaseLower(a, b);
  }

  /** A dosage question such as "How many mg of ibuprofen should I take?"
      matches the first medical-advice pattern. */
  lemma DoseQuestionMatches()
    ensures Test(DoseQuantityQuestion, "How many mg of ibuprofen should I take?")
  {
    var head, unit, tail := "How many ", "mg", " of ibuprofen should I take?";
    assert head + unit + tail == "How many mg of ibuprofen should I take?";
    LowerAppend(head, unit);
    LowerAppend(head + unit, tail);
    var t := Lower(head) + Lower(unit) + Lower(tail);
    assert Lower(head) == "how many " && Lower(unit) == "mg";
    var openers := ["how many ", "how much "];
    assert At(t, 0, openers[0]) && At(t, 9, QuantityUnits[0]);
    assert AtAny(t, 0, openers) && AtAny(t, 9, QuantityUnits);
  }

  /** "What is your date of birth?" asks for protected health information. */
  lemma BirthDateQuestionMatches()
    ensures Test(DateOfBirth, "What is your date of birth?")
  {
    var head, phrase := "What is your ", "date of birth?";
    assert head + phrase == "What is your date of birth?";
    LowerAppend(head, phrase);
    assert Lower(phrase) == "date of birth?";
    assert At(Lower(head) + Lower(phrase), 13, "date of birth");
  }
}
