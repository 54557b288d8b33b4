/** The guardrail evaluator: checks a user's message for emergencies and for
    requests for medical advice, and checks the assistant's reply for requests
    for protected health information (PHI). It keeps no state. */
module Guardrails {
  import opened Wrappers
  import opened Text
  import opened Patterns

  datatype GuardrailType = Emergency | MedicalAdvice | PhiRequest

  /** `kind` is the TypeScript `type` field; `None` stands for `null`, and a
      missing `response` property is `None` as well. */
  datatype GuardrailResult = GuardrailResult(triggered: bool, kind: Option<GuardrailType>, response: Option<string>)

  /** Matched as substrings of the lower-cased message, in this order. */
  const EmergencyKeywords: seq<string> := [
    "chest pain", "heart attack", "can't breathe", "cannot breathe", "difficulty breathing",
    "suicidal", "suicide", "kill myself", "want to die", "end my life", "self harm", "self-harm",
    "overdose", "severe allergic", "anaphylaxis", "stroke", "unconscious", "seizure", "severe bleeding"
  ]

  /** Matched against the message as it was sent, in this order. */
  const MedicalAdvicePatterns: seq<Pattern> := [
    DoseQuantityQuestion, WhatDose, ShouldITake, Prescribe, WhatMedication,
    RecommendTreatment, AmountOfDrug, IncreaseDose, DecreaseDose, StartTakingAmount
  ]

  /** Matched against the assistant's reply, in this order. */
  const PhiPatterns: seq<Pattern> := [
    FullName, DateOfBirth, SocialSecurity, HomeAddress, MedicalRecord, InsuranceNumber, DriversLicense
  ]

  const EmergencyResponse: string :=
    "I need to pause our conversation here. What you're describing sounds like it could be a medical emergency. \n\n"
    + "**Please call 911 or go to your nearest emergency room right away.**\n\n"
    + "Your health and safety are the absolute priority. Once you've received proper medical care, "
    + "we'd be happy to help you with any follow-up health optimization needs."

  const MedicalAdviceResponse: string :=
    "I really appreciate you trusting me with that question! However, specific medication dosages and "
    + "treatment recommendations are something only our clinical team can provide.\n\n"
    + "Here's why: Everyone's body is unique. What works perfectly for one person might not be right for "
    + "another. Our clinicians need to review your labs and health history to give you personalized "
    + "guidance that's safe and effective.\n\n"
    + "Would you like me to help you book a consultation? Or if you haven't done bloodwork yet, that's "
    + "usually the best first step so our team has the full picture."

  const NotTriggered: GuardrailResult := GuardrailResult(false, None, None)
  const EmergencyResult: GuardrailResult := GuardrailResult(true, Some(Emergency), Some(EmergencyResponse))
  const MedicalAdviceResult: GuardrailResult := GuardrailResult(true, Some(MedicalAdvice), Some(MedicalAdviceResponse))

  /** Some emergency keyword occurs in the lower-cased message. */
  predicate EmergencyFires(message: string)
  {
    exists i :: 0 <= i < |EmergencyKeywords| && Contains(Lower(message), EmergencyKeywords[i])
  }

  /** Some medical-advice pattern matches the message. */
  predicate MedicalAdviceFires(message: string)
  {
    exists i :: 0 <= i < |MedicalAdvicePatterns| && Test(MedicalAdvicePatterns[i], message)
  }

  /** Some PHI pattern matches the text. */
  predicate RequestsPhi(text: string)
  {
    exists i :: 0 <= i < |PhiPatterns| && Test(PhiPatterns[i], text)
  }

  /** What `checkMessage` returns for a message: emergency first, then
      medical advice, otherwise nothing. */
  function Classify(message: string): (r: GuardrailResult)
    ensures r.triggered <==> r.kind.Some?
    ensures r.triggered ==> r.response.Some?
    ensures r.kind == Some(Emergency) <==> EmergencyFires(message)
    ensures r.kind == Some(MedicalAdvice) <==> !EmergencyFires(message) && MedicalAdviceFires(message)
    ensures r.kind != Some(PhiRequest)
    ensures r.kind == Some(Emergency) ==> r.response == Some(EmergencyResponse)
    ensures r.kind == Some(MedicalAdvice) ==> r.response == Some(MedicalAdviceResponse)
    ensures !r.triggered ==> r.response.None?
  {
    if EmergencyFires(message) then EmergencyResult
    else if MedicalAdviceFires(message) then MedicalAdviceResult
    else NotTriggered
  }

  /** `checkMessage`: the emergency check, then, only if it did not fire,
      the medical-advice check. */
  method CheckMessage(message: string) returns (r: GuardrailResult)
    ensures r == Classify(message)
  {
    var emergencyCheck := CheckEmergency(message);
    if emergencyCheck.triggered {
      return emergencyCheck;
    }
    var medicalAdviceCheck := CheckMedicalAdvice(message);
    if medicalAdviceCheck.triggered {
      return medicalAdviceCheck;
    }
    return NotTriggered;
  }

  /** `checkEmergency`: returns at the first keyword found in the lower-cased
      message, so the result is the same whichever keyword is found. */
  method CheckEmergency(message: string) returns (r: GuardrailResult)
    ensures r == if EmergencyFires(message) then EmergencyResult else NotTriggered
  {
    var lowerMessage := Lower(message);
    for i := 0 to |EmergencyKeywords|
      invariant forall j :: 0 <= j < i ==> !Contains(lowerMessage, EmergencyKeywords[j])
    {
      if Contains(lowerMessage, EmergencyKeywords[i]) {
        return EmergencyResult;
      }
    }
    return NotTriggered;
  }

  /** `checkMedicalAdvice`: returns at the first pattern that matches. */
  method CheckMedicalAdvice(message: string) returns (r: GuardrailResult)
    ensures r == if MedicalAdviceFires(message) then MedicalAdviceResult else NotTriggered
  {
    for i := 0 to |MedicalAdvicePatterns|
      invariant forall j :: 0 <= j < i ==> !Test(MedicalAdvicePatterns[j], message)
    {
      if Test(MedicalAdvicePatterns[i], message) {
        return MedicalAdviceResult;
      }
    }
    return NotTriggered;
  }

  /** `validateResponse`: false as soon as a PHI pattern matches the reply,
      true when none does. */
  method ValidateResponse(response: string) returns (valid: bool)
    ensures valid <==> !RequestsPhi(response)
  {
    for i := 0 to |PhiPatterns|
      invariant forall j :: 0 <= j < i ==> !Test(PhiPatterns[j], response)
    {
      if Test(PhiPatterns[i], response) {
        return false;
      }
    }
    return true;
  }

  /** An emergency keyword decides the outcome whatever else the message
      says: surrounding text can neither hide it nor turn it into a
      medical-advice refusal. */
  lemma {:induction false} EmergencyWhateverElse(before: string, message: string, after: string)
    requires EmergencyFires(message)
    ensures Classify(before + message + after) == EmergencyResult
  {
    var i :| 0 <= i < |EmergencyKeywords| && Contains(Lower(message), EmergencyKeywords[i]);
    LowerAppend(before, message);
    LowerAppend(before + message, after);
    ContainsInfix(Lower(before), Lower(message), Lower(after), EmergencyKeywords[i]);
    assert Contains(Lower(before + message + after), EmergencyKeywords[i]);
  }

  /** Changing the case of letters in a message never changes the guardrail
      outcome: keywords are matched on the lower-cased message and every
      pattern ignores case. */
  lemma {:induction false} ClassifyIgnoresCase(a: string, b: string)
    requires SameUpToCase(a, b)
    ensures Classify(a) == Classify(b)
  {
    SameUpToCaseLower(a, b);
  }

  /** "I want to kill myself" is an emergency. */
  lemma KillMyselfIsEmergency()
    ensures Classify("I want to kill myself") == EmergencyResult
  {
    var head, keyword := "I want to ", "kill myself";
    assert head + keyword == "I want to kill myself";
    LowerAppend(head, keyword);
    assert Lower(keyword) == EmergencyKeywords[7];
    assert At(Lower(head) + Lower(keyword), |head|, EmergencyKeywords[7]);
  }

  /** A message with both an emergency keyword and a dosage question: it
      matches a medical-advice pattern, and still it is an emergency, never a
      medical-advice refusal. */
  lemma ChestPainWithDoseQuestionIsEmergency()
    ensures var message := "I'm having " + "chest pain" + ", " + "what dose" + " of aspirin should I take";
      && MedicalAdviceFires(message)
      && Classify(message) == EmergencyResult
  {
    var opening, keyword, comma, question, rest :=
      "I'm having ", "chest pain", ", ", "what dose", " of aspirin should I take";
    var message := opening + keyword + comma + question + rest;
    // the emergency keyword
    assert Lower(keyword) == EmergencyKeywords[0];
    assert At(Lower(keyword), 0, EmergencyKeywords[0]);
    EmergencyWhateverElse(opening, keyword, comma + question + rest);
    assert opening + keyword + (comma + question + rest) == message;
    // the dosage question
    var head := opening + keyword + comma;
    LowerAppend(head, question);
    LowerAppend(head + question, rest);
    assert Lower(question) == "what dose";
    var t := Lower(head) + Lower(question) + Lower(rest);
    assert t[|head|..|head| + 9] == "what dose";
    assert t[|head|..|head| + 5] == "what ";
    assert t[|head| + 5..|head| + 9] == DoseWords[0];
    assert At(t, |head|, "what ") && At(t, |head| + 5, DoseWords[0]);
    assert AtAny(t, |head| + 5, DoseWords);
    assert Test(MedicalAdvicePatterns[1], message);
  }
}
