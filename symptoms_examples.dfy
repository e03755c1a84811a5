/** The two conversations of backend/tests/test_symptoms.py, worked out
    against the model of the parser: a message with no symptom, and one
    naming two symptoms of two different categories. No label is checked by
    running the matcher: each label that does not occur is refuted by a
    letter, or a pair of adjacent letters, that the message lacks. */
module SymptomsExamples {
  import opened Symptoms

  const NoSymptomMessage: string := "I am your father !"
  /** Written in pieces, so that each symptom it names is a piece of its
      own. */
  const DepressionEyePainMessage: string := "I am your father. No I am ! " + "I also have " + "depression" + " and " + "eye pain"

  /** From position `i` on, `s` has no two adjacent characters that lower
      to `a` followed by `b`. */
  predicate NoPairFrom(s: string, a: char, b: char, i: nat)
    decreases |s| - i
  {
    i + 1 >= |s| || (!(LowerChar(s[i]) == a && LowerChar(s[i + 1]) == b) && NoPairFrom(s, a, b, i + 1))
  }

  lemma {:induction false} NoPairAt(s: string, a: char, b: char, i: nat, j: nat)
    requires NoPairFrom(s, a, b, i) && i <= j && j + 1 < |s|
    ensures !(LowerChar(s[j]) == a && LowerChar(s[j + 1]) == b)
    decreases j - i
  {
    if i < j {
      NoPairAt(s, a, b, i + 1, j);
    }
  }

  /** Two characters lower to the same letter only when they are that
      letter in one of its two cases. */
  lemma SameLower(c: char, l: char)
    requires 'A' <= l <= 'Z'
    requires LowerChar(c) == LowerChar(l)
    ensures c == l || c == LowerChar(l)
  {
  }

  /** A label with a letter that the message has in neither case is not
      mentioned. */
  lemma AbsentLetter(message: string, symptom: Label, k: nat)
    requires k < |symptom| && 'A' <= symptom[k] <= 'Z'
    requires symptom[k] !in message && LowerChar(symptom[k]) !in message
    ensures !Mentions(message, symptom)
  {
    var m, p := Lower(message), Lower(symptom);
    forall i | 0 <= i <= |m| - |p| ensures !OccursAt(p, m, i) {
      var c := message[i + k];
      if LowerChar(c) == LowerChar(symptom[k]) {
        SameLower(c, symptom[k]);
      }
      assert m[i..i + |p|][k] != p[k];
    }
  }

  /** A label with two adjacent letters that never follow each other in
      the message is not mentioned. */
  lemma AbsentPair(message: string, symptom: Label, k: nat)
    requires k + 1 < |symptom|
    requires NoPairFrom(message, LowerChar(symptom[k]), LowerChar(symptom[k + 1]), 0)
    ensures !Mentions(message, symptom)
  {
    var m, p := Lower(message), Lower(symptom);
    forall i | 0 <= i <= |m| - |p| ensures !OccursAt(p, m, i) {
      NoPairAt(message, p[k], p[k + 1], 0, i + k);
      assert m[i..i + |p|][k] != p[k] || m[i..i + |p|][k + 1] != p[k + 1];
    }
  }

  /** A list none of whose labels is mentioned yields no match. */
  lemma {:induction false} MatchedNone(message: string, symptoms: seq<Label>)
    requires forall x :: x in symptoms ==> !Mentions(message, x)
    ensures MatchedSymptoms(message, symptoms) == []
  {
    if symptoms != [] {
      MatchedNone(message, symptoms[..|symptoms| - 1]);
    }
  }

  /** A list without repeats, of whose labels only `x` is mentioned, yields
      `x` alone. */
  lemma {:induction false} MatchedOnly(message: string, symptoms: seq<Label>, x: Label)
    requires Distinct(symptoms) && x in symptoms && Mentions(message, x)
    requires forall y :: y in symptoms && y != x ==> !Mentions(message, y)
    ensures MatchedSymptoms(message, symptoms) == [x]
  {
    var init, last := symptoms[..|symptoms| - 1], symptoms[|symptoms| - 1];
    assert symptoms == init + [last];
    if last == x {
      assert x !in init;
      MatchedNone(message, init);
    } else {
      MatchedOnly(message, init, x);
    }
  }

  lemma LowerAppend(a: string, b: string)
    ensures Lower(a + b) == Lower(a) + Lower(b)
  {
  }

  /** A message that has the label's text, in any letter case, between two
      other pieces mentions the label. */
  lemma MentionedInside(a: string, x: string, b: string, symptom: Label)
    requires Lower(x) == Lower(symptom)
    ensures Mentions(a + x + b, symptom)
  {
    LowerAppend(a + x, b);
    LowerAppend(a, x);
    assert OccursAt(Lower(symptom), Lower(a + x + b), |a|);
  }

  lemma DepressionEyePainMessageMentionsDepression()
    ensures Mentions(DepressionEyePainMessage, "DEPRESSION")
  {
    var before, after := "I am your father. No I am ! " + "I also have ", " and " + "eye pain";
    assert DepressionEyePainMessage == before + "depression" + after;
    assert Lower("depression") == Lower("DEPRESSION");
    MentionedInside(before, "depression", after, "DEPRESSION");
  }

  lemma DepressionEyePainMessageMentionsEyePain()
    ensures Mentions(DepressionEyePainMessage, "EYE PAIN")
  {
    var before := "I am your father. No I am ! " + "I also have " + "depression" + " and ";
    assert DepressionEyePainMessage == before + "eye pain" + [];
    assert Lower("eye pain") == Lower("EYE PAIN");
    MentionedInside(before, "eye pain", [], "EYE PAIN");
  }

  // ---------------------------------------------------------------------
  // NoSymptomMessage
  // ---------------------------------------------------------------------

  /** The characters the message is made of. */
  lemma NoSymptomMessageCharacters()
    ensures forall c :: c in NoSymptomMessage ==> c in {' ', '!', 'I', 'a', 'e', 'f', 'h', 'm', 'o', 'r', 't', 'u', 'y'}
  {
  }

  lemma NoSymptomMessageLacksLetterB()
    ensures 'B' !in NoSymptomMessage && 'b' !in NoSymptomMessage
  {
    NoSymptomMessageCharacters();
  }

  lemma NoSymptomMessageLacksLetterC()
    ensures 'C' !in NoSymptomMessage && 'c' !in NoSymptomMessage
  {
    NoSymptomMessageCharacters();
  }

  lemma NoSymptomMessageLacksLetterD()
    ensures 'D' !in NoSymptomMessage && 'd' !in NoSymptomMessage
  {
    NoSymptomMessageCharacters();
  }

  lemma NoSymptomMessageLacksLetterG()
    ensures 'G' !in NoSymptomMessage && 'g' !in NoSymptomMessage
  {
    NoSymptomMessageCharacters();
  }

  lemma NoSymptomMessageLacksLetterJ()
    ensures 'J' !in NoSymptomMessage && 'j' !in NoSymptomMessage
  {
    NoSymptomMessageCharacters();
  }

  lemma NoSymptomMessageLacksLetterL()
    ensures 'L' !in NoSymptomMessage && 'l' !in NoSymptomMessage
  {
    NoSymptomMessageCharacters();
  }

  lemma NoSymptomMessageLacksLetterN()
    ensures 'N' !in NoSymptomMessage && 'n' !in NoSymptomMessage
  {
    NoSymptomMessageCharacters();
  }

  lemma NoSymptomMessageLacksLetterP()
    ensures 'P' !in NoSymptomMessage && 'p' !in NoSymptomMessage
  {
    NoSymptomMessageCharacters();
  }

  lemma NoSymptomMessageLacksLetterS()
    ensures 'S' !in NoSymptomMessage && 's' !in NoSymptomMessage
  {
    NoSymptomMessageCharacters();
  }

  lemma NoSymptomMessageLacksLetterV()
    ensures 'V' !in NoSymptomMessage && 'v' !in NoSymptomMessage
  {
    NoSymptomMessageCharacters();
  }

  lemma NoSymptomMessageLacksLetterW()
    ensures 'W' !in NoSymptomMessage && 'w' !in NoSymptomMessage
  {
    NoSymptomMessageCharacters();
  }

  lemma NoSymptomMessageLacksLetterX()
    ensures 'X' !in NoSymptomMessage && 'x' !in NoSymptomMessage
  {
    NoSymptomMessageCharacters();
  }

  lemma NoSymptomMessageLacksPairEM()
    ensures NoPairFrom(NoSymptomMessage, 'e', 'm', 0)
  {
    assert NoPairFrom(NoSymptomMessage, 'e', 'm', 16);
    assert NoPairFrom(NoSymptomMessage, 'e', 'm', 15);
    assert NoPairFrom(NoSymptomMessage, 'e', 'm', 14);
    assert NoPairFrom(NoSymptomMessage, 'e', 'm', 13);
    assert NoPairFrom(NoSymptomMessage, 'e', 'm', 12);
    assert NoPairFrom(NoSymptomMessage, 'e', 'm', 11);
    assert NoPairFrom(NoSymptomMessage, 'e', 'm', 10);
    assert NoPairFrom(NoSymptomMessage, 'e', 'm', 9);
    assert NoPairFrom(NoSymptomMessage, 'e', 'm', 8);
    assert NoPairFrom(NoSymptomMessage, 'e', 'm', 7);
    assert NoPairFrom(NoSymptomMessage, 'e', 'm', 6);
    assert NoPairFrom(NoSymptomMessage, 'e', 'm', 5);
    assert NoPairFrom(NoSymptomMessage, 'e', 'm', 4);
    assert NoPairFrom(NoSymptomMessage, 'e', 'm', 3);
    assert NoPairFrom(NoSymptomMessage, 'e', 'm', 2);
    assert NoPairFrom(NoSymptomMessage, 'e', 'm', 1);
  }

  lemma NoSymptomMessageGeneralMisses1()
    ensures !Mentions(NoSymptomMessage, "FATIGUE")
    ensures !Mentions(NoSymptomMessage, "FEVER")
  {
    NoSymptomMessageLacksLetterG();
    NoSymptomMessageLacksLetterV();
    AbsentLetter(NoSymptomMessage, "FATIGUE", 4);
    AbsentLetter(NoSymptomMessage, "FEVER", 2);
  }

  lemma NoSymptomMessageGeneralMisses2()
    ensures !Mentions(NoSymptomMessage, "CHILLS")
    ensures !Mentions(NoSymptomMessage, "NIGHT SWEATS")
  {
    NoSymptomMessageLacksLetterC();
    NoSymptomMessageLacksLetterN();
    AbsentLetter(NoSymptomMessage, "CHILLS", 0);
    AbsentLetter(NoSymptomMessage, "NIGHT SWEATS", 0);
  }

  lemma NoSymptomMessageGeneralMisses3()
    ensures !Mentions(NoSymptomMessage, "WEIGHT LOSS")
    ensures !Mentions(NoSymptomMessage, "WEIGHT GAIN")
  {
    NoSymptomMessageLacksLetterW();
    AbsentLetter(NoSymptomMessage, "WEIGHT LOSS", 0);
    AbsentLetter(NoSymptomMessage, "WEIGHT GAIN", 0);
  }

  lemma NoSymptomMessageGeneralMisses4()
    ensures !Mentions(NoSymptomMessage, "MALAISE")
    ensures !Mentions(NoSymptomMessage, "WEAKNESS")
  {
    NoSymptomMessageLacksLetterL();
    NoSymptomMessageLacksLetterW();
    AbsentLetter(NoSymptomMessage, "MALAISE", 2);
    AbsentLetter(NoSymptomMessage, "WEAKNESS", 0);
  }

  /** The message mentions no label of GeneralSymptoms. */
  lemma NoSymptomMessageGeneral()
    ensures MatchedSymptoms(NoSymptomMessage, GeneralSymptoms.symptoms) == []
  {
    NoSymptomMessageGeneralMisses1();
    NoSymptomMessageGeneralMisses2();
    NoSymptomMessageGeneralMisses3();
    NoSymptomMessageGeneralMisses4();
    MatchedNone(NoSymptomMessage, GeneralSymptoms.symptoms);
  }

  lemma NoSymptomMessageNeurologicalMisses1()
    ensures !Mentions(NoSymptomMessage, "HEADACHE")
    ensures !Mentions(NoSymptomMessage, "DIZZINESS")
  {
    NoSymptomMessageLacksLetterD();
    AbsentLetter(NoSymptomMessage, "HEADACHE", 3);
    AbsentLetter(NoSymptomMessage, "DIZZINESS", 0);
  }

  lemma NoSymptomMessageNeurologicalMisses2()
    ensures !Mentions(NoSymptomMessage, "SYNCOPE")
    ensures !Mentions(NoSymptomMessage, "SEIZURES")
  {
    NoSymptomMessageLacksLetterS();
    AbsentLetter(NoSymptomMessage, "SYNCOPE", 0);
    AbsentLetter(NoSymptomMessage, "SEIZURES", 0);
  }

  lemma NoSymptomMessageNeurologicalMisses3()
    ensures !Mentions(NoSymptomMessage, "TREMOR")
    ensures !Mentions(NoSymptomMessage, "NUMBNESS")
  {
    NoSymptomMessageLacksPairEM();
    NoSymptomMessageLacksLetterN();
    AbsentPair(NoSymptomMessage, "TREMOR", 2);
    AbsentLetter(NoSymptomMessage, "NUMBNESS", 0);
  }

  lemma NoSymptomMessageNeurologicalMisses4()
    ensures !Mentions(NoSymptomMessage, "TINGLING")
    ensures !Mentions(NoSymptomMessage, "MEMORY LOSS")
  {
    NoSymptomMessageLacksLetterN();
    NoSymptomMessageLacksLetterL();
    AbsentLetter(NoSymptomMessage, "TINGLING", 2);
    AbsentLetter(NoSymptomMessage, "MEMORY LOSS", 7);
  }

  lemma NoSymptomMessageNeurologicalMisses5()
    ensures !Mentions(NoSymptomMessage, "CONFUSION")
    ensures !Mentions(NoSymptomMessage, "SLURRED SPEECH")
  {
    NoSymptomMessageLacksLetterC();
    NoSymptomMessageLacksLetterS();
    AbsentLetter(NoSymptomMessage, "CONFUSION", 0);
    AbsentLetter(NoSymptomMessage, "SLURRED SPEECH", 0);
  }

  lemma NoSymptomMessageNeurologicalMisses6()
    ensures !Mentions(NoSymptomMessage, "MUSCLE WEAKNESS")
    ensures !Mentions(NoSymptomMessage, "LOSS OF COORDINATION")
  {
    NoSymptomMessageLacksLetterS();
    NoSymptomMessageLacksLetterL();
    AbsentLetter(NoSymptomMessage, "MUSCLE WEAKNESS", 2);
    AbsentLetter(NoSymptomMessage, "LOSS OF COORDINATION", 0);
  }

  /** The message mentions no label of NeurologicalSymptoms. */
  lemma NoSymptomMessageNeurological()
    ensures MatchedSymptoms(NoSymptomMessage, NeurologicalSymptoms.symptoms) == []
  {
    NoSymptomMessageNeurologicalMisses1();
    NoSymptomMessageNeurologicalMisses2();
    NoSymptomMessageNeurologicalMisses3();
    NoSymptomMessageNeurologicalMisses4();
    NoSymptomMessageNeurologicalMisses5();
    NoSymptomMessageNeurologicalMisses6();
    MatchedNone(NoSymptomMessage, NeurologicalSymptoms.symptoms);
  }

  lemma NoSymptomMessageCardiovascularMisses1()
    ensures !Mentions(NoSymptomMessage, "CHEST PAIN")
    ensures !Mentions(NoSymptomMessage, "PALPITATIONS")
  {
    NoSymptomMessageLacksLetterC();
    NoSymptomMessageLacksLetterP();
    AbsentLetter(NoSymptomMessage, "CHEST PAIN", 0);
    AbsentLetter(NoSymptomMessage, "PALPITATIONS", 0);
  }

  lemma NoSymptomMessageCardiovascularMisses2()
    ensures !Mentions(NoSymptomMessage, "SHORTNESS OF BREATH")
    ensures !Mentions(NoSymptomMessage, "EDEMA")
  {
    NoSymptomMessageLacksLetterS();
    NoSymptomMessageLacksLetterD();
    AbsentLetter(NoSymptomMessage, "SHORTNESS OF BREATH", 0);
    AbsentLetter(NoSymptomMessage, "EDEMA", 1);
  }

  lemma NoSymptomMessageCardiovascularMisses3()
    ensures !Mentions(NoSymptomMessage, "CYANOSIS")
    ensures !Mentions(NoSymptomMessage, "CLAUDICATION")
  {
    NoSymptomMessageLacksLetterC();
    AbsentLetter(NoSymptomMessage, "CYANOSIS", 0);
    AbsentLetter(NoSymptomMessage, "CLAUDICATION", 0);
  }

  /** The message mentions no label of CardiovascularSymptoms. */
  lemma NoSymptomMessageCardiovascular()
    ensures MatchedSymptoms(NoSymptomMessage, CardiovascularSymptoms.symptoms) == []
  {
    NoSymptomMessageCardiovascularMisses1();
    NoSymptomMessageCardiovascularMisses2();
    NoSymptomMessageCardiovascularMisses3();
    MatchedNone(NoSymptomMessage, CardiovascularSymptoms.symptoms);
  }

  lemma NoSymptomMessageRespiratoryMisses1()
    ensures !Mentions(NoSymptomMessage, "COUGH")
    ensures !Mentions(NoSymptomMessage, "WHEEZING")
  {
    NoSymptomMessageLacksLetterC();
    NoSymptomMessageLacksLetterW();
    AbsentLetter(NoSymptomMessage, "COUGH", 0);
    AbsentLetter(NoSymptomMessage, "WHEEZING", 0);
  }

  lemma NoSymptomMessageRespiratoryMisses2()
    ensures !Mentions(NoSymptomMessage, "SHORTNESS OF BREATH")
    ensures !Mentions(NoSymptomMessage, "HEMOPTYSIS")
  {
    NoSymptomMessageLacksLetterS();
    NoSymptomMessageLacksLetterP();
    AbsentLetter(NoSymptomMessage, "SHORTNESS OF BREATH", 0);
    AbsentLetter(NoSymptomMessage, "HEMOPTYSIS", 4);
  }

  lemma NoSymptomMessageRespiratoryMisses3()
    ensures !Mentions(NoSymptomMessage, "SPUTUM PRODUCTION")
    ensures !Mentions(NoSymptomMessage, "CHEST TIGHTNESS")
  {
    NoSymptomMessageLacksLetterS();
    NoSymptomMessageLacksLetterC();
    AbsentLetter(NoSymptomMessage, "SPUTUM PRODUCTION", 0);
    AbsentLetter(NoSymptomMessage, "CHEST TIGHTNESS", 0);
  }

  /** The message mentions no label of RespiratorySymptoms. */
  lemma NoSymptomMessageRespiratory()
    ensures MatchedSymptoms(NoSymptomMessage, RespiratorySymptoms.symptoms) == []
  {
    NoSymptomMessageRespiratoryMisses1();
    NoSymptomMessageRespiratoryMisses2();
    NoSymptomMessageRespiratoryMisses3();
    MatchedNone(NoSymptomMessage, RespiratorySymptoms.symptoms);
  }

  lemma NoSymptomMessageGastrointestinalMisses1()
    ensures !Mentions(NoSymptomMessage, "NAUSEA")
    ensures !Mentions(NoSymptomMessage, "VOMITING")
  {
    NoSymptomMessageLacksLetterN();
    NoSymptomMessageLacksLetterV();
    AbsentLetter(NoSymptomMessage, "NAUSEA", 0);
    AbsentLetter(NoSymptomMessage, "VOMITING", 0);
  }

  lemma NoSymptomMessageGastrointestinalMisses2()
    ensures !Mentions(NoSymptomMessage, "ABDOMINAL PAIN")
    ensures !Mentions(NoSymptomMessage, "DIARRHEA")
  {
    NoSymptomMessageLacksLetterB();
    NoSymptomMessageLacksLetterD();
    AbsentLetter(NoSymptomMessage, "ABDOMINAL PAIN", 1);
    AbsentLetter(NoSymptomMessage, "DIARRHEA", 0);
  }

  lemma NoSymptomMessageGastrointestinalMisses3()
    ensures !Mentions(NoSymptomMessage, "CONSTIPATION")
    ensures !Mentions(NoSymptomMessage, "BLOATING")
  {
    NoSymptomMessageLacksLetterC();
    NoSymptomMessageLacksLetterB();
    AbsentLetter(NoSymptomMessage, "CONSTIPATION", 0);
    AbsentLetter(NoSymptomMessage, "BLOATING", 0);
  }

  lemma NoSymptomMessageGastrointestinalMisses4()
    ensures !Mentions(NoSymptomMessage, "HEARTBURN")
    ensures !Mentions(NoSymptomMessage, "DIFFICULTY SWALLOWING")
  {
    NoSymptomMessageLacksLetterB();
    NoSymptomMessageLacksLetterD();
    AbsentLetter(NoSymptomMessage, "HEARTBURN", 5);
    AbsentLetter(NoSymptomMessage, "DIFFICULTY SWALLOWING", 0);
  }

  lemma NoSymptomMessageGastrointestinalMisses5()
    ensures !Mentions(NoSymptomMessage, "RECTAL BLEEDING")
    ensures !Mentions(NoSymptomMessage, "JAUNDICE")
  {
    NoSymptomMessageLacksLetterC();
    NoSymptomMessageLacksLetterJ();
    AbsentLetter(NoSymptomMessage, "RECTAL BLEEDING", 2);
    AbsentLetter(NoSymptomMessage, "JAUNDICE", 0);
  }

  /** The message mentions no label of GastrointestinalSymptoms. */
  lemma NoSymptomMessageGastrointestinal()
    ensures MatchedSymptoms(NoSymptomMessage, GastrointestinalSymptoms.symptoms) == []
  {
    NoSymptomMessageGastrointestinalMisses1();
    NoSymptomMessageGastrointestinalMisses2();
    NoSymptomMessageGastrointestinalMisses3();
    NoSymptomMessageGastrointestinalMisses4();
    NoSymptomMessageGastrointestinalMisses5();
    MatchedNone(NoSymptomMessage, GastrointestinalSymptoms.symptoms);
  }

  lemma NoSymptomMessageGenitourinaryMisses1()
    ensures !Mentions(NoSymptomMessage, "DYSURIA")
    ensures !Mentions(NoSymptomMessage, "URINARY FREQUENCY")
  {
    NoSymptomMessageLacksLetterD();
    NoSymptomMessageLacksLetterN();
    AbsentLetter(NoSymptomMessage, "DYSURIA", 0);
    AbsentLetter(NoSymptomMessage, "URINARY FREQUENCY", 3);
  }

  lemma NoSymptomMessageGenitourinaryMisses2()
    ensures !Mentions(NoSymptomMessage, "URINARY URGENCY")
    ensures !Mentions(NoSymptomMessage, "INCONTINENCE")
  {
    NoSymptomMessageLacksLetterN();
    AbsentLetter(NoSymptomMessage, "URINARY URGENCY", 3);
    AbsentLetter(NoSymptomMessage, "INCONTINENCE", 1);
  }

  lemma NoSymptomMessageGenitourinaryMisses3()
    ensures !Mentions(NoSymptomMessage, "HEMATURIA")
    ensures !Mentions(NoSymptomMessage, "ERECTILE DYSFUNCTION")
  {
    NoSymptomMessageLacksPairEM();
    NoSymptomMessageLacksLetterC();
    AbsentPair(NoSymptomMessage, "HEMATURIA", 1);
    AbsentLetter(NoSymptomMessage, "ERECTILE DYSFUNCTION", 3);
  }

  lemma NoSymptomMessageGenitourinaryMisses4()
    ensures !Mentions(NoSymptomMessage, "PELVIC PAIN")
    ensures !Mentions(NoSymptomMessage, "MENSTRUAL IRREGULARITIES")
  {
    NoSymptomMessageLacksLetterP();
    NoSymptomMessageLacksLetterN();
    AbsentLetter(NoSymptomMessage, "PELVIC PAIN", 0);
    AbsentLetter(NoSymptomMessage, "MENSTRUAL IRREGULARITIES", 2);
  }

  lemma NoSymptomMessageGenitourinaryMisses5()
    ensures !Mentions(NoSymptomMessage, "VAGINAL DISCHARGE")
    ensures !Mentions(NoSymptomMessage, "GENITAL ITCHING")
  {
    NoSymptomMessageLacksLetterV();
    NoSymptomMessageLacksLetterG();
    AbsentLetter(NoSymptomMessage, "VAGINAL DISCHARGE", 0);
    AbsentLetter(NoSymptomMessage, "GENITAL ITCHING", 0);
  }

  /** The message mentions no label of GenitourinarySymptoms. */
  lemma NoSymptomMessageGenitourinary()
    ensures MatchedSymptoms(NoSymptomMessage, GenitourinarySymptoms.symptoms) == []
  {
    NoSymptomMessageGenitourinaryMisses1();
    NoSymptomMessageGenitourinaryMisses2();
    NoSymptomMessageGenitourinaryMisses3();
    NoSymptomMessageGenitourinaryMisses4();
    NoSymptomMessageGenitourinaryMisses5();
    MatchedNone(NoSymptomMessage, GenitourinarySymptoms.symptoms);
  }

  lemma NoSymptomMessageMusculoskeletalMisses1()
    ensures !Mentions(NoSymptomMessage, "JOINT PAIN")
    ensures !Mentions(NoSymptomMessage, "MUSCLE PAIN")
  {
    NoSymptomMessageLacksLetterJ();
    NoSymptomMessageLacksLetterS();
    AbsentLetter(NoSymptomMessage, "JOINT PAIN", 0);
    AbsentLetter(NoSymptomMessage, "MUSCLE PAIN", 2);
  }

  lemma NoSymptomMessageMusculoskeletalMisses2()
    ensures !Mentions(NoSymptomMessage, "BACK PAIN")
    ensures !Mentions(NoSymptomMessage, "STIFFNESS")
  {
    NoSymptomMessageLacksLetterB();
    NoSymptomMessageLacksLetterS();
    AbsentLetter(NoSymptomMessage, "BACK PAIN", 0);
    AbsentLetter(NoSymptomMessage, "STIFFNESS", 0);
  }

  lemma NoSymptomMessageMusculoskeletalMisses3()
    ensures !Mentions(NoSymptomMessage, "SWELLING OF JOINTS")
    ensures !Mentions(NoSymptomMessage, "MUSCLE CRAMPS")
  {
    NoSymptomMessageLacksLetterS();
    AbsentLetter(NoSymptomMessage, "SWELLING OF JOINTS", 0);
    AbsentLetter(NoSymptomMessage, "MUSCLE CRAMPS", 2);
  }

  lemma NoSymptomMessageMusculoskeletalMisses4()
    ensures !Mentions(NoSymptomMessage, "DECREASED RANGE OF MOTION")
  {
    NoSymptomMessageLacksLetterD();
    AbsentLetter(NoSymptomMessage, "DECREASED RANGE OF MOTION", 0);
  }

  /** The message mentions no label of MusculoskeletalSymptoms. */
  lemma NoSymptomMessageMusculoskeletal()
    ensures MatchedSymptoms(NoSymptomMessage, MusculoskeletalSymptoms.symptoms) == []
  {
    NoSymptomMessageMusculoskeletalMisses1();
    NoSymptomMessageMusculoskeletalMisses2();
    NoSymptomMessageMusculoskeletalMisses3();
    NoSymptomMessageMusculoskeletalMisses4();
    MatchedNone(NoSymptomMessage, MusculoskeletalSymptoms.symptoms);
  }

  lemma NoSymptomMessageDermatologicalMisses1()
    ensures !Mentions(NoSymptomMessage, "RASH")
    ensures !Mentions(NoSymptomMessage, "ITCHING")
  {
    NoSymptomMessageLacksLetterS();
    NoSymptomMessageLacksLetterC();
    AbsentLetter(NoSymptomMessage, "RASH", 2);
    AbsentLetter(NoSymptomMessage, "ITCHING", 2);
  }

  lemma NoSymptomMessageDermatologicalMisses2()
    ensures !Mentions(NoSymptomMessage, "DRY SKIN")
    ensures !Mentions(NoSymptomMessage, "REDNESS")
  {
    NoSymptomMessageLacksLetterD();
    AbsentLetter(NoSymptomMessage, "DRY SKIN", 0);
    AbsentLetter(NoSymptomMessage, "REDNESS", 2);
  }

  lemma NoSymptomMessageDermatologicalMisses3()
    ensures !Mentions(NoSymptomMessage, "BLISTERING")
    ensures !Mentions(NoSymptomMessage, "ULCERS")
  {
    NoSymptomMessageLacksLetterB();
    NoSymptomMessageLacksLetterL();
    AbsentLetter(NoSymptomMessage, "BLISTERING", 0);
    AbsentLetter(NoSymptomMessage, "ULCERS", 1);
  }

  lemma NoSymptomMessageDermatologicalMisses4()
    ensures !Mentions(NoSymptomMessage, "HAIR LOSS")
    ensures !Mentions(NoSymptomMessage, "NAIL CHANGES")
  {
    NoSymptomMessageLacksLetterL();
    NoSymptomMessageLacksLetterN();
    AbsentLetter(NoSymptomMessage, "HAIR LOSS", 5);
    AbsentLetter(NoSymptomMessage, "NAIL CHANGES", 0);
  }

  /** The message mentions no label of DermatologicalSymptoms. */
  lemma NoSymptomMessageDermatological()
    ensures MatchedSymptoms(NoSymptomMessage, DermatologicalSymptoms.symptoms) == []
  {
    NoSymptomMessageDermatologicalMisses1();
    NoSymptomMessageDermatologicalMisses2();
    NoSymptomMessageDermatologicalMisses3();
    NoSymptomMessageDermatologicalMisses4();
    MatchedNone(NoSymptomMessage, DermatologicalSymptoms.symptoms);
  }

  lemma NoSymptomMessagePsychiatricMisses1()
    ensures !Mentions(NoSymptomMessage, "ANXIETY")
    ensures !Mentions(NoSymptomMessage, "DEPRESSION")
  {
    NoSymptomMessageLacksLetterN();
    NoSymptomMessageLacksLetterD();
    AbsentLetter(NoSymptomMessage, "ANXIETY", 1);
    AbsentLetter(NoSymptomMessage, "DEPRESSION", 0);
  }

  lemma NoSymptomMessagePsychiatricMisses2()
    ensures !Mentions(NoSymptomMessage, "INSOMNIA")
    ensures !Mentions(NoSymptomMessage, "HALLUCINATIONS")
  {
    NoSymptomMessageLacksLetterN();
    NoSymptomMessageLacksLetterL();
    AbsentLetter(NoSymptomMessage, "INSOMNIA", 1);
    AbsentLetter(NoSymptomMessage, "HALLUCINATIONS", 2);
  }

  lemma NoSymptomMessagePsychiatricMisses3()
    ensures !Mentions(NoSymptomMessage, "DELUSIONS")
    ensures !Mentions(NoSymptomMessage, "MOOD SWINGS")
  {
    NoSymptomMessageLacksLetterD();
    AbsentLetter(NoSymptomMessage, "DELUSIONS", 0);
    AbsentLetter(NoSymptomMessage, "MOOD SWINGS", 3);
  }

  lemma NoSymptomMessagePsychiatricMisses4()
    ensures !Mentions(NoSymptomMessage, "IRRITABILITY")
    ensures !Mentions(NoSymptomMessage, "SUICIDAL THOUGHTS")
  {
    NoSymptomMessageLacksLetterB();
    NoSymptomMessageLacksLetterS();
    AbsentLetter(NoSymptomMessage, "IRRITABILITY", 6);
    AbsentLetter(NoSymptomMessage, "SUICIDAL THOUGHTS", 0);
  }

  /** The message mentions no label of PsychiatricSymptoms. */
  lemma NoSymptomMessagePsychiatric()
    ensures MatchedSymptoms(NoSymptomMessage, PsychiatricSymptoms.symptoms) == []
  {
    NoSymptomMessagePsychiatricMisses1();
    NoSymptomMessagePsychiatricMisses2();
    NoSymptomMessagePsychiatricMisses3();
    NoSymptomMessagePsychiatricMisses4();
    MatchedNone(NoSymptomMessage, PsychiatricSymptoms.symptoms);
  }

  lemma NoSymptomMessageEarNoseThroatMisses1()
    ensures !Mentions(NoSymptomMessage, "SORE THROAT")
    ensures !Mentions(NoSymptomMessage, "HOARSENESS")
  {
    NoSymptomMessageLacksLetterS();
    AbsentLetter(NoSymptomMessage, "SORE THROAT", 0);
    AbsentLetter(NoSymptomMessage, "HOARSENESS", 4);
  }

  lemma NoSymptomMessageEarNoseThroatMisses2()
    ensures !Mentions(NoSymptomMessage, "NASAL CONGESTION")
    ensures !Mentions(NoSymptomMessage, "RUNNY NOSE")
  {
    NoSymptomMessageLacksLetterN();
    AbsentLetter(NoSymptomMessage, "NASAL CONGESTION", 0);
    AbsentLetter(NoSymptomMessage, "RUNNY NOSE", 2);
  }

  lemma NoSymptomMessageEarNoseThroatMisses3()
    ensures !Mentions(NoSymptomMessage, "EAR PAIN")
    ensures !Mentions(NoSymptomMessage, "HEARING LOSS")
  {
    NoSymptomMessageLacksLetterP();
    NoSymptomMessageLacksLetterN();
    AbsentLetter(NoSymptomMessage, "EAR PAIN", 4);
    AbsentLetter(NoSymptomMessage, "HEARING LOSS", 5);
  }

  lemma NoSymptomMessageEarNoseThroatMisses4()
    ensures !Mentions(NoSymptomMessage, "TINNITUS")
    ensures !Mentions(NoSymptomMessage, "LOSS OF SMELL")
  {
    NoSymptomMessageLacksLetterN();
    NoSymptomMessageLacksLetterL();
    AbsentLetter(NoSymptomMessage, "TINNITUS", 2);
    AbsentLetter(NoSymptomMessage, "LOSS OF SMELL", 0);
  }

  /** The message mentions no label of EarNoseThroatSymptoms. */
  lemma NoSymptomMessageEarNoseThroat()
    ensures MatchedSymptoms(NoSymptomMessage, EarNoseThroatSymptoms.symptoms) == []
  {
    NoSymptomMessageEarNoseThroatMisses1();
    NoSymptomMessageEarNoseThroatMisses2();
    NoSymptomMessageEarNoseThroatMisses3();
    NoSymptomMessageEarNoseThroatMisses4();
    MatchedNone(NoSymptomMessage, EarNoseThroatSymptoms.symptoms);
  }

  lemma NoSymptomMessageOcularMisses1()
    ensures !Mentions(NoSymptomMessage, "BLURRED VISION")
    ensures !Mentions(NoSymptomMessage, "DOUBLE VISION")
  {
    NoSymptomMessageLacksLetterB();
    NoSymptomMessageLacksLetterD();
    AbsentLetter(NoSymptomMessage, "BLURRED VISION", 0);
    AbsentLetter(NoSymptomMessage, "DOUBLE VISION", 0);
  }

  lemma NoSymptomMessageOcularMisses2()
    ensures !Mentions(NoSymptomMessage, "EYE PAIN")
    ensures !Mentions(NoSymptomMessage, "RED EYE")
  {
    NoSymptomMessageLacksLetterP();
    NoSymptomMessageLacksLetterD();
    AbsentLetter(NoSymptomMessage, "EYE PAIN", 4);
    AbsentLetter(NoSymptomMessage, "RED EYE", 2);
  }

  lemma NoSymptomMessageOcularMisses3()
    ensures !Mentions(NoSymptomMessage, "PHOTOPHOBIA")
    ensures !Mentions(NoSymptomMessage, "VISUAL FIELD LOSS")
  {
    NoSymptomMessageLacksLetterP();
    NoSymptomMessageLacksLetterV();
    AbsentLetter(NoSymptomMessage, "PHOTOPHOBIA", 0);
    AbsentLetter(NoSymptomMessage, "VISUAL FIELD LOSS", 0);
  }

  /** The message mentions no label of OcularSymptoms. */
  lemma NoSymptomMessageOcular()
    ensures MatchedSymptoms(NoSymptomMessage, OcularSymptoms.symptoms) == []
  {
    NoSymptomMessageOcularMisses1();
    NoSymptomMessageOcularMisses2();
    NoSymptomMessageOcularMisses3();
    MatchedNone(NoSymptomMessage, OcularSymptoms.symptoms);
  }

  lemma NoSymptomMessageEndocrineMisses1()
    ensures !Mentions(NoSymptomMessage, "HEAT INTOLERANCE")
    ensures !Mentions(NoSymptomMessage, "COLD INTOLERANCE")
  {
    NoSymptomMessageLacksLetterN();
    NoSymptomMessageLacksLetterC();
    AbsentLetter(NoSymptomMessage, "HEAT INTOLERANCE", 6);
    AbsentLetter(NoSymptomMessage, "COLD INTOLERANCE", 0);
  }

  lemma NoSymptomMessageEndocrineMisses2()
    ensures !Mentions(NoSymptomMessage, "EXCESSIVE THIRST")
    ensures !Mentions(NoSymptomMessage, "EXCESSIVE HUNGER")
  {
    NoSymptomMessageLacksLetterX();
    AbsentLetter(NoSymptomMessage, "EXCESSIVE THIRST", 1);
    AbsentLetter(NoSymptomMessage, "EXCESSIVE HUNGER", 1);
  }

  lemma NoSymptomMessageEndocrineMisses3()
    ensures !Mentions(NoSymptomMessage, "INCREASED URINATION")
  {
    NoSymptomMessageLacksLetterN();
    AbsentLetter(NoSymptomMessage, "INCREASED URINATION", 1);
  }

  /** The message mentions no label of EndocrineSymptoms. */
  lemma NoSymptomMessageEndocrine()
    ensures MatchedSymptoms(NoSymptomMessage, EndocrineSymptoms.symptoms) == []
  {
    NoSymptomMessageEndocrineMisses1();
    NoSymptomMessageEndocrineMisses2();
    NoSymptomMessageEndocrineMisses3();
    MatchedNone(NoSymptomMessage, EndocrineSymptoms.symptoms);
  }

  // ---------------------------------------------------------------------
  // DepressionEyePainMessage
  // ---------------------------------------------------------------------

  /** The characters the message is made of. */
  lemma DepressionEyePainMessageCharacters()
    ensures forall c :: c in DepressionEyePainMessage ==> c in {' ', '!', '.', 'I', 'N', 'a', 'd', 'e', 'f', 'h', 'i', 'l', 'm', 'n', 'o', 'p', 'r', 's', 't', 'u', 'v', 'y'}
  {
  }

  lemma DepressionEyePainMessageLacksLetterB()
    ensures 'B' !in DepressionEyePainMessage && 'b' !in DepressionEyePainMessage
  {
    DepressionEyePainMessageCharacters();
  }

  lemma DepressionEyePainMessageLacksLetterC()
    ensures 'C' !in DepressionEyePainMessage && 'c' !in DepressionEyePainMessage
  {
    DepressionEyePainMessageCharacters();
  }

  lemma DepressionEyePainMessageLacksLetterG()
    ensures 'G' !in DepressionEyePainMessage && 'g' !in DepressionEyePainMessage
  {
    DepressionEyePainMessageCharacters();
  }

  lemma DepressionEyePainMessageLacksLetterJ()
    ensures 'J' !in DepressionEyePainMessage && 'j' !in DepressionEyePainMessage
  {
    DepressionEyePainMessageCharacters();
  }

  lemma DepressionEyePainMessageLacksLetterK()
    ensures 'K' !in DepressionEyePainMessage && 'k' !in DepressionEyePainMessage
  {
    DepressionEyePainMessageCharacters();
  }

  lemma DepressionEyePainMessageLacksLetterQ()
    ensures 'Q' !in DepressionEyePainMessage && 'q' !in DepressionEyePainMessage
  {
    DepressionEyePainMessageCharacters();
  }

  lemma DepressionEyePainMessageLacksLetterW()
    ensures 'W' !in DepressionEyePainMessage && 'w' !in DepressionEyePainMessage
  {
    DepressionEyePainMessageCharacters();
  }

  lemma DepressionEyePainMessageLacksLetterX()
    ensures 'X' !in DepressionEyePainMessage && 'x' !in DepressionEyePainMessage
  {
    DepressionEyePainMessageCharacters();
  }

  lemma DepressionEyePainMessageLacksLetterZ()
    ensures 'Z' !in DepressionEyePainMessage && 'z' !in DepressionEyePainMessage
  {
    DepressionEyePainMessageCharacters();
  }

  lemma DepressionEyePainMessageLacksPairARTail()
    ensures NoPairFrom(DepressionEyePainMessage, 'a', 'r', 31)
  {
    assert NoPairFrom(DepressionEyePainMessage, 'a', 'r', 61);
    assert NoPairFrom(DepressionEyePainMessage, 'a', 'r', 60);
    assert NoPairFrom(DepressionEyePainMessage, 'a', 'r', 59);
    assert NoPairFrom(DepressionEyePainMessage, 'a', 'r', 58);
    assert NoPairFrom(DepressionEyePainMessage, 'a', 'r', 57);
    assert NoPairFrom(DepressionEyePainMessage, 'a', 'r', 56);
    assert NoPairFrom(DepressionEyePainMessage, 'a', 'r', 55);
    assert NoPairFrom(DepressionEyePainMessage, 'a', 'r', 54);
    assert NoPairFrom(DepressionEyePainMessage, 'a', 'r', 53);
    assert NoPairFrom(DepressionEyePainMessage, 'a', 'r', 52);
    assert NoPairFrom(DepressionEyePainMessage, 'a', 'r', 51);
    assert NoPairFrom(DepressionEyePainMessage, 'a', 'r', 50);
    assert NoPairFrom(DepressionEyePainMessage, 'a', 'r', 49);
    assert NoPairFrom(DepressionEyePainMessage, 'a', 'r', 48);
    assert NoPairFrom(DepressionEyePainMessage, 'a', 'r', 47);
    assert NoPairFrom(DepressionEyePainMessage, 'a', 'r', 46);
    assert NoPairFrom(DepressionEyePainMessage, 'a', 'r', 45);
    assert NoPairFrom(DepressionEyePainMessage, 'a', 'r', 44);
    assert NoPairFrom(DepressionEyePainMessage, 'a', 'r', 43);
    assert NoPairFrom(DepressionEyePainMessage, 'a', 'r', 42);
    assert NoPairFrom(DepressionEyePainMessage, 'a', 'r', 41);
    assert NoPairFrom(DepressionEyePainMessage, 'a', 'r', 40);
    assert NoPairFrom(DepressionEyePainMessage, 'a', 'r', 39);
    assert NoPairFrom(DepressionEyePainMessage, 'a', 'r', 38);
    assert NoPairFrom(DepressionEyePainMessage, 'a', 'r', 37);
    assert NoPairFrom(DepressionEyePainMessage, 'a', 'r', 36);
    assert NoPairFrom(DepressionEyePainMessage, 'a', 'r', 35);
    assert NoPairFrom(DepressionEyePainMessage, 'a', 'r', 34);
    assert NoPairFrom(DepressionEyePainMessage, 'a', 'r', 33);
    assert NoPairFrom(DepressionEyePainMessage, 'a', 'r', 32);
  }

  lemma DepressionEyePainMessageLacksPairAR()
    ensures NoPairFrom(DepressionEyePainMessage, 'a', 'r', 0)
  {
    DepressionEyePainMessageLacksPairARTail();
    assert NoPairFrom(DepressionEyePainMessage, 'a', 'r', 30);
    assert NoPairFrom(DepressionEyePainMessage, 'a', 'r', 29);
    assert NoPairFrom(DepressionEyePainMessage, 'a', 'r', 28);
    assert NoPairFrom(DepressionEyePainMessage, 'a', 'r', 27);
    assert NoPairFrom(DepressionEyePainMessage, 'a', 'r', 26);
    assert NoPairFrom(DepressionEyePainMessage, 'a', 'r', 25);
    assert NoPairFrom(DepressionEyePainMessage, 'a', 'r', 24);
    assert NoPairFrom(DepressionEyePainMessage, 'a', 'r', 23);
    assert NoPairFrom(DepressionEyePainMessage, 'a', 'r', 22);
    assert NoPairFrom(DepressionEyePainMessage, 'a', 'r', 21);
    assert NoPairFrom(DepressionEyePainMessage, 'a', 'r', 20);
    assert NoPairFrom(DepressionEyePainMessage, 'a', 'r', 19);
    assert NoPairFrom(DepressionEyePainMessage, 'a', 'r', 18);
    assert NoPairFrom(DepressionEyePainMessage, 'a', 'r', 17);
    assert NoPairFrom(DepressionEyePainMessage, 'a', 'r', 16);
    assert NoPairFrom(DepressionEyePainMessage, 'a', 'r', 15);
    assert NoPairFrom(DepressionEyePainMessage, 'a', 'r', 14);
    assert NoPairFrom(DepressionEyePainMessage, 'a', 'r', 13);
    assert NoPairFrom(DepressionEyePainMessage, 'a', 'r', 12);
    assert NoPairFrom(DepressionEyePainMessage, 'a', 'r', 11);
    assert NoPairFrom(DepressionEyePainMessage, 'a', 'r', 10);
    assert NoPairFrom(DepressionEyePainMessage, 'a', 'r', 9);
    assert NoPairFrom(DepressionEyePainMessage, 'a', 'r', 8);
    assert NoPairFrom(DepressionEyePainMessage, 'a', 'r', 7);
    assert NoPairFrom(DepressionEyePainMessage, 'a', 'r', 6);
    assert NoPairFrom(DepressionEyePainMessage, 'a', 'r', 5);
    assert NoPairFrom(DepressionEyePainMessage, 'a', 'r', 4);
    assert NoPairFrom(DepressionEyePainMessage, 'a', 'r', 3);
    assert NoPairFrom(DepressionEyePainMessage, 'a', 'r', 2);
    assert NoPairFrom(DepressionEyePainMessage, 'a', 'r', 1);
  }

  lemma DepressionEyePainMessageLacksPairASTail()
    ensures NoPairFrom(DepressionEyePainMessage, 'a', 's', 31)
  {
    assert NoPairFrom(DepressionEyePainMessage, 'a', 's', 61);
    assert NoPairFrom(DepressionEyePainMessage, 'a', 's', 60);
    assert NoPairFrom(DepressionEyePainMessage, 'a', 's', 59);
    assert NoPairFrom(DepressionEyePainMessage, 'a', 's', 58);
    assert NoPairFrom(DepressionEyePainMessage, 'a', 's', 57);
    assert NoPairFrom(DepressionEyePainMessage, 'a', 's', 56);
    assert NoPairFrom(DepressionEyePainMessage, 'a', 's', 55);
    assert NoPairFrom(DepressionEyePainMessage, 'a', 's', 54);
    assert NoPairFrom(DepressionEyePainMessage, 'a', 's', 53);
    assert NoPairFrom(DepressionEyePainMessage, 'a', 's', 52);
    assert NoPairFrom(DepressionEyePainMessage, 'a', 's', 51);
    assert NoPairFrom(DepressionEyePainMessage, 'a', 's', 50);
    assert NoPairFrom(DepressionEyePainMessage, 'a', 's', 49);
    assert NoPairFrom(DepressionEyePainMessage, 'a', 's', 48);
    assert NoPairFrom(DepressionEyePainMessage, 'a', 's', 47);
    assert NoPairFrom(DepressionEyePainMessage, 'a', 's', 46);
    assert NoPairFrom(DepressionEyePainMessage, 'a', 's', 45);
    assert NoPairFrom(DepressionEyePainMessage, 'a', 's', 44);
    assert NoPairFrom(DepressionEyePainMessage, 'a', 's', 43);
    assert NoPairFrom(DepressionEyePainMessage, 'a', 's', 42);
    assert NoPairFrom(DepressionEyePainMessage, 'a', 's', 41);
    assert NoPairFrom(DepressionEyePainMessage, 'a', 's', 40);
    assert NoPairFrom(DepressionEyePainMessage, 'a', 's', 39);
    assert NoPairFrom(DepressionEyePainMessage, 'a', 's', 38);
    assert NoPairFrom(DepressionEyePainMessage, 'a', 's', 37);
    assert NoPairFrom(DepressionEyePainMessage, 'a', 's', 36);
    assert NoPairFrom(DepressionEyePainMessage, 'a', 's', 35);
    assert NoPairFrom(DepressionEyePainMessage, 'a', 's', 34);
    assert NoPairFrom(DepressionEyePainMessage, 'a', 's', 33);
    assert NoPairFrom(DepressionEyePainMessage, 'a', 's', 32);
  }

  lemma DepressionEyePainMessageLacksPairAS()
    ensures NoPairFrom(DepressionEyePainMessage, 'a', 's', 0)
  {
    DepressionEyePainMessageLacksPairASTail();
    assert NoPairFrom(DepressionEyePainMessage, 'a', 's', 30);
    assert NoPairFrom(DepressionEyePainMessage, 'a', 's', 29);
    assert NoPairFrom(DepressionEyePainMessage, 'a', 's', 28);
    assert NoPairFrom(DepressionEyePainMessage, 'a', 's', 27);
    assert NoPairFrom(DepressionEyePainMessage, 'a', 's', 26);
    assert NoPairFrom(DepressionEyePainMessage, 'a', 's', 25);
    assert NoPairFrom(DepressionEyePainMessage, 'a', 's', 24);
    assert NoPairFrom(DepressionEyePainMessage, 'a', 's', 23);
    assert NoPairFrom(DepressionEyePainMessage, 'a', 's', 22);
    assert NoPairFrom(DepressionEyePainMessage, 'a', 's', 21);
    assert NoPairFrom(DepressionEyePainMessage, 'a', 's', 20);
    assert NoPairFrom(DepressionEyePainMessage, 'a', 's', 19);
    assert NoPairFrom(DepressionEyePainMessage, 'a', 's', 18);
    assert NoPairFrom(DepressionEyePainMessage, 'a', 's', 17);
    assert NoPairFrom(DepressionEyePainMessage, 'a', 's', 16);
    assert NoPairFrom(DepressionEyePainMessage, 'a', 's', 15);
    assert NoPairFrom(DepressionEyePainMessage, 'a', 's', 14);
    assert NoPairFrom(DepressionEyePainMessage, 'a', 's', 13);
    assert NoPairFrom(DepressionEyePainMessage, 'a', 's', 12);
    assert NoPairFrom(DepressionEyePainMessage, 'a', 's', 11);
    assert NoPairFrom(DepressionEyePainMessage, 'a', 's', 10);
    assert NoPairFrom(DepressionEyePainMessage, 'a', 's', 9);
    assert NoPairFrom(DepressionEyePainMessage, 'a', 's', 8);
    assert NoPairFrom(DepressionEyePainMessage, 'a', 's', 7);
    assert NoPairFrom(DepressionEyePainMessage, 'a', 's', 6);
    assert NoPairFrom(DepressionEyePainMessage, 'a', 's', 5);
    assert NoPairFrom(DepressionEyePainMessage, 'a', 's', 4);
    assert NoPairFrom(DepressionEyePainMessage, 'a', 's', 3);
    assert NoPairFrom(DepressionEyePainMessage, 'a', 's', 2);
    assert NoPairFrom(DepressionEyePainMessage, 'a', 's', 1);
  }

  lemma DepressionEyePainMessageLacksPairDYTail()
    ensures NoPairFrom(DepressionEyePainMessage, 'd', 'y', 31)
  {
    assert NoPairFrom(DepressionEyePainMessage, 'd', 'y', 61);
    assert NoPairFrom(DepressionEyePainMessage, 'd', 'y', 60);
    assert NoPairFrom(DepressionEyePainMessage, 'd', 'y', 59);
    assert NoPairFrom(DepressionEyePainMessage, 'd', 'y', 58);
    assert NoPairFrom(DepressionEyePainMessage, 'd', 'y', 57);
    assert NoPairFrom(DepressionEyePainMessage, 'd', 'y', 56);
    assert NoPairFrom(DepressionEyePainMessage, 'd', 'y', 55);
    assert NoPairFrom(DepressionEyePainMessage, 'd', 'y', 54);
    assert NoPairFrom(DepressionEyePainMessage, 'd', 'y', 53);
    assert NoPairFrom(DepressionEyePainMessage, 'd', 'y', 52);
    assert NoPairFrom(DepressionEyePainMessage, 'd', 'y', 51);
    assert NoPairFrom(DepressionEyePainMessage, 'd', 'y', 50);
    assert NoPairFrom(DepressionEyePainMessage, 'd', 'y', 49);
    assert NoPairFrom(DepressionEyePainMessage, 'd', 'y', 48);
    assert NoPairFrom(DepressionEyePainMessage, 'd', 'y', 47);
    assert NoPairFrom(DepressionEyePainMessage, 'd', 'y', 46);
    assert NoPairFrom(DepressionEyePainMessage, 'd', 'y', 45);
    assert NoPairFrom(DepressionEyePainMessage, 'd', 'y', 44);
    assert NoPairFrom(DepressionEyePainMessage, 'd', 'y', 43);
    assert NoPairFrom(DepressionEyePainMessage, 'd', 'y', 42);
    assert NoPairFrom(DepressionEyePainMessage, 'd', 'y', 41);
    assert NoPairFrom(DepressionEyePainMessage, 'd', 'y', 40);
    assert NoPairFrom(DepressionEyePainMessage, 'd', 'y', 39);
    assert NoPairFrom(DepressionEyePainMessage, 'd', 'y', 38);
    assert NoPairFrom(DepressionEyePainMessage, 'd', 'y', 37);
    assert NoPairFrom(DepressionEyePainMessage, 'd', 'y', 36);
    assert NoPairFrom(DepressionEyePainMessage, 'd', 'y', 35);
    assert NoPairFrom(DepressionEyePainMessage, 'd', 'y', 34);
    assert NoPairFrom(DepressionEyePainMessage, 'd', 'y', 33);
    assert NoPairFrom(DepressionEyePainMessage, 'd', 'y', 32);
  }

  lemma DepressionEyePainMessageLacksPairDY()
    ensures NoPairFrom(DepressionEyePainMessage, 'd', 'y', 0)
  {
    DepressionEyePainMessageLacksPairDYTail();
    assert NoPairFrom(DepressionEyePainMessage, 'd', 'y', 30);
    assert NoPairFrom(DepressionEyePainMessage, 'd', 'y', 29);
    assert NoPairFrom(DepressionEyePainMessage, 'd', 'y', 28);
    assert NoPairFrom(DepressionEyePainMessage, 'd', 'y', 27);
    assert NoPairFrom(DepressionEyePainMessage, 'd', 'y', 26);
    assert NoPairFrom(DepressionEyePainMessage, 'd', 'y', 25);
    assert NoPairFrom(DepressionEyePainMessage, 'd', 'y', 24);
    assert NoPairFrom(DepressionEyePainMessage, 'd', 'y', 23);
    assert NoPairFrom(DepressionEyePainMessage, 'd', 'y', 22);
    assert NoPairFrom(DepressionEyePainMessage, 'd', 'y', 21);
    assert NoPairFrom(DepressionEyePainMessage, 'd', 'y', 20);
    assert NoPairFrom(DepressionEyePainMessage, 'd', 'y', 19);
    assert NoPairFrom(DepressionEyePainMessage, 'd', 'y', 18);
    assert NoPairFrom(DepressionEyePainMessage, 'd', 'y', 17);
    assert NoPairFrom(DepressionEyePainMessage, 'd', 'y', 16);
    assert NoPairFrom(DepressionEyePainMessage, 'd', 'y', 15);
    assert NoPairFrom(DepressionEyePainMessage, 'd', 'y', 14);
    assert NoPairFrom(DepressionEyePainMessage, 'd', 'y', 13);
    assert NoPairFrom(DepressionEyePainMessage, 'd', 'y', 12);
    assert NoPairFrom(DepressionEyePainMessage, 'd', 'y', 11);
    assert NoPairFrom(DepressionEyePainMessage, 'd', 'y', 10);
    assert NoPairFrom(DepressionEyePainMessage, 'd', 'y', 9);
    assert NoPairFrom(DepressionEyePainMessage, 'd', 'y', 8);
    assert NoPairFrom(DepressionEyePainMessage, 'd', 'y', 7);
    assert NoPairFrom(DepressionEyePainMessage, 'd', 'y', 6);
    assert NoPairFrom(DepressionEyePainMessage, 'd', 'y', 5);
    assert NoPairFrom(DepressionEyePainMessage, 'd', 'y', 4);
    assert NoPairFrom(DepressionEyePainMessage, 'd', 'y', 3);
    assert NoPairFrom(DepressionEyePainMessage, 'd', 'y', 2);
    assert NoPairFrom(DepressionEyePainMessage, 'd', 'y', 1);
  }

  lemma DepressionEyePainMessageLacksPairEDTail()
    ensures NoPairFrom(DepressionEyePainMessage, 'e', 'd', 31)
  {
    assert NoPairFrom(DepressionEyePainMessage, 'e', 'd', 61);
    assert NoPairFrom(DepressionEyePainMessage, 'e', 'd', 60);
    assert NoPairFrom(DepressionEyePainMessage, 'e', 'd', 59);
    assert NoPairFrom(DepressionEyePainMessage, 'e', 'd', 58);
    assert NoPairFrom(DepressionEyePainMessage, 'e', 'd', 57);
    assert NoPairFrom(DepressionEyePainMessage, 'e', 'd', 56);
    assert NoPairFrom(DepressionEyePainMessage, 'e', 'd', 55);
    assert NoPairFrom(DepressionEyePainMessage, 'e', 'd', 54);
    assert NoPairFrom(DepressionEyePainMessage, 'e', 'd', 53);
    assert NoPairFrom(DepressionEyePainMessage, 'e', 'd', 52);
    assert NoPairFrom(DepressionEyePainMessage, 'e', 'd', 51);
    assert NoPairFrom(DepressionEyePainMessage, 'e', 'd', 50);
    assert NoPairFrom(DepressionEyePainMessage, 'e', 'd', 49);
    assert NoPairFrom(DepressionEyePainMessage, 'e', 'd', 48);
    assert NoPairFrom(DepressionEyePainMessage, 'e', 'd', 47);
    assert NoPairFrom(DepressionEyePainMessage, 'e', 'd', 46);
    assert NoPairFrom(DepressionEyePainMessage, 'e', 'd', 45);
    assert NoPairFrom(DepressionEyePainMessage, 'e', 'd', 44);
    assert NoPairFrom(DepressionEyePainMessage, 'e', 'd', 43);
    assert NoPairFrom(DepressionEyePainMessage, 'e', 'd', 42);
    assert NoPairFrom(DepressionEyePainMessage, 'e', 'd', 41);
    assert NoPairFrom(DepressionEyePainMessage, 'e', 'd', 40);
    assert NoPairFrom(DepressionEyePainMessage, 'e', 'd', 39);
    assert NoPairFrom(DepressionEyePainMessage, 'e', 'd', 38);
    assert NoPairFrom(DepressionEyePainMessage, 'e', 'd', 37);
    assert NoPairFrom(DepressionEyePainMessage, 'e', 'd', 36);
    assert NoPairFrom(DepressionEyePainMessage, 'e', 'd', 35);
    assert NoPairFrom(DepressionEyePainMessage, 'e', 'd', 34);
    assert NoPairFrom(DepressionEyePainMessage, 'e', 'd', 33);
    assert NoPairFrom(DepressionEyePainMessage, 'e', 'd', 32);
  }

  lemma DepressionEyePainMessageLacksPairED()
    ensures NoPairFrom(DepressionEyePainMessage, 'e', 'd', 0)
  {
    DepressionEyePainMessageLacksPairEDTail();
    assert NoPairFrom(DepressionEyePainMessage, 'e', 'd', 30);
    assert NoPairFrom(DepressionEyePainMessage, 'e', 'd', 29);
    assert NoPairFrom(DepressionEyePainMessage, 'e', 'd', 28);
    assert NoPairFrom(DepressionEyePainMessage, 'e', 'd', 27);
    assert NoPairFrom(DepressionEyePainMessage, 'e', 'd', 26);
    assert NoPairFrom(DepressionEyePainMessage, 'e', 'd', 25);
    assert NoPairFrom(DepressionEyePainMessage, 'e', 'd', 24);
    assert NoPairFrom(DepressionEyePainMessage, 'e', 'd', 23);
    assert NoPairFrom(DepressionEyePainMessage, 'e', 'd', 22);
    assert NoPairFrom(DepressionEyePainMessage, 'e', 'd', 21);
    assert NoPairFrom(DepressionEyePainMessage, 'e', 'd', 20);
    assert NoPairFrom(DepressionEyePainMessage, 'e', 'd', 19);
    assert NoPairFrom(DepressionEyePainMessage, 'e', 'd', 18);
    assert NoPairFrom(DepressionEyePainMessage, 'e', 'd', 17);
    assert NoPairFrom(DepressionEyePainMessage, 'e', 'd', 16);
    assert NoPairFrom(DepressionEyePainMessage, 'e', 'd', 15);
    assert NoPairFrom(DepressionEyePainMessage, 'e', 'd', 14);
    assert NoPairFrom(DepressionEyePainMessage, 'e', 'd', 13);
    assert NoPairFrom(DepressionEyePainMessage, 'e', 'd', 12);
    assert NoPairFrom(DepressionEyePainMessage, 'e', 'd', 11);
    assert NoPairFrom(DepressionEyePainMessage, 'e', 'd', 10);
    assert NoPairFrom(DepressionEyePainMessage, 'e', 'd', 9);
    assert NoPairFrom(DepressionEyePainMessage, 'e', 'd', 8);
    assert NoPairFrom(DepressionEyePainMessage, 'e', 'd', 7);
    assert NoPairFrom(DepressionEyePainMessage, 'e', 'd', 6);
    assert NoPairFrom(DepressionEyePainMessage, 'e', 'd', 5);
    assert NoPairFrom(DepressionEyePainMessage, 'e', 'd', 4);
    assert NoPairFrom(DepressionEyePainMessage, 'e', 'd', 3);
    assert NoPairFrom(DepressionEyePainMessage, 'e', 'd', 2);
    assert NoPairFrom(DepressionEyePainMessage, 'e', 'd', 1);
  }

  lemma DepressionEyePainMessageLacksPairEMTail()
    ensures NoPairFrom(DepressionEyePainMessage, 'e', 'm', 31)
  {
    assert NoPairFrom(DepressionEyePainMessage, 'e', 'm', 61);
    assert NoPairFrom(DepressionEyePainMessage, 'e', 'm', 60);
    assert NoPairFrom(DepressionEyePainMessage, 'e', 'm', 59);
    assert NoPairFrom(DepressionEyePainMessage, 'e', 'm', 58);
    assert NoPairFrom(DepressionEyePainMessage, 'e', 'm', 57);
    assert NoPairFrom(DepressionEyePainMessage, 'e', 'm', 56);
    assert NoPairFrom(DepressionEyePainMessage, 'e', 'm', 55);
    assert NoPairFrom(DepressionEyePainMessage, 'e', 'm', 54);
    assert NoPairFrom(DepressionEyePainMessage, 'e', 'm', 53);
    assert NoPairFrom(DepressionEyePainMessage, 'e', 'm', 52);
    assert NoPairFrom(DepressionEyePainMessage, 'e', 'm', 51);
    assert NoPairFrom(DepressionEyePainMessage, 'e', 'm', 50);
    assert NoPairFrom(DepressionEyePainMessage, 'e', 'm', 49);
    assert NoPairFrom(DepressionEyePainMessage, 'e', 'm', 48);
    assert NoPairFrom(DepressionEyePainMessage, 'e', 'm', 47);
    assert NoPairFrom(DepressionEyePainMessage, 'e', 'm', 46);
    assert NoPairFrom(DepressionEyePainMessage, 'e', 'm', 45);
    assert NoPairFrom(DepressionEyePainMessage, 'e', 'm', 44);
    assert NoPairFrom(DepressionEyePainMessage, 'e', 'm', 43);
    assert NoPairFrom(DepressionEyePainMessage, 'e', 'm', 42);
    assert NoPairFrom(DepressionEyePainMessage, 'e', 'm', 41);
    assert NoPairFrom(DepressionEyePainMessage, 'e', 'm', 40);
    assert NoPairFrom(DepressionEyePainMessage, 'e', 'm', 39);
    assert NoPairFrom(DepressionEyePainMessage, 'e', 'm', 38);
    assert NoPairFrom(DepressionEyePainMessage, 'e', 'm', 37);
    assert NoPairFrom(DepressionEyePainMessage, 'e', 'm', 36);
    assert NoPairFrom(DepressionEyePainMessage, 'e', 'm', 35);
    assert NoPairFrom(DepressionEyePainMessage, 'e', 'm', 34);
    assert NoPairFrom(DepressionEyePainMessage, 'e', 'm', 33);
    assert NoPairFrom(DepressionEyePainMessage, 'e', 'm', 32);
  }

  lemma DepressionEyePainMessageLacksPairEM()
    ensures NoPairFrom(DepressionEyePainMessage, 'e', 'm', 0)
  {
    DepressionEyePainMessageLacksPairEMTail();
    assert NoPairFrom(DepressionEyePainMessage, 'e', 'm', 30);
    assert NoPairFrom(DepressionEyePainMessage, 'e', 'm', 29);
    assert NoPairFrom(DepressionEyePainMessage, 'e', 'm', 28);
    assert NoPairFrom(DepressionEyePainMessage, 'e', 'm', 27);
    assert NoPairFrom(DepressionEyePainMessage, 'e', 'm', 26);
    assert NoPairFrom(DepressionEyePainMessage, 'e', 'm', 25);
    assert NoPairFrom(DepressionEyePainMessage, 'e', 'm', 24);
    assert NoPairFrom(DepressionEyePainMessage, 'e', 'm', 23);
    assert NoPairFrom(DepressionEyePainMessage, 'e', 'm', 22);
    assert NoPairFrom(DepressionEyePainMessage, 'e', 'm', 21);
    assert NoPairFrom(DepressionEyePainMessage, 'e', 'm', 20);
    assert NoPairFrom(DepressionEyePainMessage, 'e', 'm', 19);
    assert NoPairFrom(DepressionEyePainMessage, 'e', 'm', 18);
    assert NoPairFrom(DepressionEyePainMessage, 'e', 'm', 17);
    assert NoPairFrom(DepressionEyePainMessage, 'e', 'm', 16);
    assert NoPairFrom(DepressionEyePainMessage, 'e', 'm', 15);
    assert NoPairFrom(DepressionEyePainMessage, 'e', 'm', 14);
    assert NoPairFrom(DepressionEyePainMessage, 'e', 'm', 13);
    assert NoPairFrom(DepressionEyePainMessage, 'e', 'm', 12);
    assert NoPairFrom(DepressionEyePainMessage, 'e', 'm', 11);
    assert NoPairFrom(DepressionEyePainMessage, 'e', 'm', 10);
    assert NoPairFrom(DepressionEyePainMessage, 'e', 'm', 9);
    assert NoPairFrom(DepressionEyePainMessage, 'e', 'm', 8);
    assert NoPairFrom(DepressionEyePainMessage, 'e', 'm', 7);
    assert NoPairFrom(DepressionEyePainMessage, 'e', 'm', 6);
    assert NoPairFrom(DepressionEyePainMessage, 'e', 'm', 5);
    assert NoPairFrom(DepressionEyePainMessage, 'e', 'm', 4);
    assert NoPairFrom(DepressionEyePainMessage, 'e', 'm', 3);
    assert NoPairFrom(DepressionEyePainMessage, 'e', 'm', 2);
    assert NoPairFrom(DepressionEyePainMessage, 'e', 'm', 1);
  }

  lemma DepressionEyePainMessageLacksPairEVTail()
    ensures NoPairFrom(DepressionEyePainMessage, 'e', 'v', 31)
  {
    assert NoPairFrom(DepressionEyePainMessage, 'e', 'v', 61);
    assert NoPairFrom(DepressionEyePainMessage, 'e', 'v', 60);
    assert NoPairFrom(DepressionEyePainMessage, 'e', 'v', 59);
    assert NoPairFrom(DepressionEyePainMessage, 'e', 'v', 58);
    assert NoPairFrom(DepressionEyePainMessage, 'e', 'v', 57);
    assert NoPairFrom(DepressionEyePainMessage, 'e', 'v', 56);
    assert NoPairFrom(DepressionEyePainMessage, 'e', 'v', 55);
    assert NoPairFrom(DepressionEyePainMessage, 'e', 'v', 54);
    assert NoPairFrom(DepressionEyePainMessage, 'e', 'v', 53);
    assert NoPairFrom(DepressionEyePainMessage, 'e', 'v', 52);
    assert NoPairFrom(DepressionEyePainMessage, 'e', 'v', 51);
    assert NoPairFrom(DepressionEyePainMessage, 'e', 'v', 50);
    assert NoPairFrom(DepressionEyePainMessage, 'e', 'v', 49);
    assert NoPairFrom(DepressionEyePainMessage, 'e', 'v', 48);
    assert NoPairFrom(DepressionEyePainMessage, 'e', 'v', 47);
    assert NoPairFrom(DepressionEyePainMessage, 'e', 'v', 46);
    assert NoPairFrom(DepressionEyePainMessage, 'e', 'v', 45);
    assert NoPairFrom(DepressionEyePainMessage, 'e', 'v', 44);
    assert NoPairFrom(DepressionEyePainMessage, 'e', 'v', 43);
    assert NoPairFrom(DepressionEyePainMessage, 'e', 'v', 42);
    assert NoPairFrom(DepressionEyePainMessage, 'e', 'v', 41);
    assert NoPairFrom(DepressionEyePainMessage, 'e', 'v', 40);
    assert NoPairFrom(DepressionEyePainMessage, 'e', 'v', 39);
    assert NoPairFrom(DepressionEyePainMessage, 'e', 'v', 38);
    assert NoPairFrom(DepressionEyePainMessage, 'e', 'v', 37);
    assert NoPairFrom(DepressionEyePainMessage, 'e', 'v', 36);
    assert NoPairFrom(DepressionEyePainMessage, 'e', 'v', 35);
    assert NoPairFrom(DepressionEyePainMessage, 'e', 'v', 34);
    assert NoPairFrom(DepressionEyePainMessage, 'e', 'v', 33);
    assert NoPairFrom(DepressionEyePainMessage, 'e', 'v', 32);
  }

  lemma DepressionEyePainMessageLacksPairEV()
    ensures NoPairFrom(DepressionEyePainMessage, 'e', 'v', 0)
  {
    DepressionEyePainMessageLacksPairEVTail();
    assert NoPairFrom(DepressionEyePainMessage, 'e', 'v', 30);
    assert NoPairFrom(DepressionEyePainMessage, 'e', 'v', 29);
    assert NoPairFrom(DepressionEyePainMessage, 'e', 'v', 28);
    assert NoPairFrom(DepressionEyePainMessage, 'e', 'v', 27);
    assert NoPairFrom(DepressionEyePainMessage, 'e', 'v', 26);
    assert NoPairFrom(DepressionEyePainMessage, 'e', 'v', 25);
    assert NoPairFrom(DepressionEyePainMessage, 'e', 'v', 24);
    assert NoPairFrom(DepressionEyePainMessage, 'e', 'v', 23);
    assert NoPairFrom(DepressionEyePainMessage, 'e', 'v', 22);
    assert NoPairFrom(DepressionEyePainMessage, 'e', 'v', 21);
    assert NoPairFrom(DepressionEyePainMessage, 'e', 'v', 20);
    assert NoPairFrom(DepressionEyePainMessage, 'e', 'v', 19);
    assert NoPairFrom(DepressionEyePainMessage, 'e', 'v', 18);
    assert NoPairFrom(DepressionEyePainMessage, 'e', 'v', 17);
    assert NoPairFrom(DepressionEyePainMessage, 'e', 'v', 16);
    assert NoPairFrom(DepressionEyePainMessage, 'e', 'v', 15);
    assert NoPairFrom(DepressionEyePainMessage, 'e', 'v', 14);
    assert NoPairFrom(DepressionEyePainMessage, 'e', 'v', 13);
    assert NoPairFrom(DepressionEyePainMessage, 'e', 'v', 12);
    assert NoPairFrom(DepressionEyePainMessage, 'e', 'v', 11);
    assert NoPairFrom(DepressionEyePainMessage, 'e', 'v', 10);
    assert NoPairFrom(DepressionEyePainMessage, 'e', 'v', 9);
    assert NoPairFrom(DepressionEyePainMessage, 'e', 'v', 8);
    assert NoPairFrom(DepressionEyePainMessage, 'e', 'v', 7);
    assert NoPairFrom(DepressionEyePainMessage, 'e', 'v', 6);
    assert NoPairFrom(DepressionEyePainMessage, 'e', 'v', 5);
    assert NoPairFrom(DepressionEyePainMessage, 'e', 'v', 4);
    assert NoPairFrom(DepressionEyePainMessage, 'e', 'v', 3);
    assert NoPairFrom(DepressionEyePainMessage, 'e', 'v', 2);
    assert NoPairFrom(DepressionEyePainMessage, 'e', 'v', 1);
  }

  lemma DepressionEyePainMessageLacksPairHRTail()
    ensures NoPairFrom(DepressionEyePainMessage, 'h', 'r', 31)
  {
    assert NoPairFrom(DepressionEyePainMessage, 'h', 'r', 61);
    assert NoPairFrom(DepressionEyePainMessage, 'h', 'r', 60);
    assert NoPairFrom(DepressionEyePainMessage, 'h', 'r', 59);
    assert NoPairFrom(DepressionEyePainMessage, 'h', 'r', 58);
    assert NoPairFrom(DepressionEyePainMessage, 'h', 'r', 57);
    assert NoPairFrom(DepressionEyePainMessage, 'h', 'r', 56);
    assert NoPairFrom(DepressionEyePainMessage, 'h', 'r', 55);
    assert NoPairFrom(DepressionEyePainMessage, 'h', 'r', 54);
    assert NoPairFrom(DepressionEyePainMessage, 'h', 'r', 53);
    assert NoPairFrom(DepressionEyePainMessage, 'h', 'r', 52);
    assert NoPairFrom(DepressionEyePainMessage, 'h', 'r', 51);
    assert NoPairFrom(DepressionEyePainMessage, 'h', 'r', 50);
    assert NoPairFrom(DepressionEyePainMessage, 'h', 'r', 49);
    assert NoPairFrom(DepressionEyePainMessage, 'h', 'r', 48);
    assert NoPairFrom(DepressionEyePainMessage, 'h', 'r', 47);
    assert NoPairFrom(DepressionEyePainMessage, 'h', 'r', 46);
    assert NoPairFrom(DepressionEyePainMessage, 'h', 'r', 45);
    assert NoPairFrom(DepressionEyePainMessage, 'h', 'r', 44);
    assert NoPairFrom(DepressionEyePainMessage, 'h', 'r', 43);
    assert NoPairFrom(DepressionEyePainMessage, 'h', 'r', 42);
    assert NoPairFrom(DepressionEyePainMessage, 'h', 'r', 41);
    assert NoPairFrom(DepressionEyePainMessage, 'h', 'r', 40);
    assert NoPairFrom(DepressionEyePainMessage, 'h', 'r', 39);
    assert NoPairFrom(DepressionEyePainMessage, 'h', 'r', 38);
    assert NoPairFrom(DepressionEyePainMessage, 'h', 'r', 37);
    assert NoPairFrom(DepressionEyePainMessage, 'h', 'r', 36);
    assert NoPairFrom(DepressionEyePainMessage, 'h', 'r', 35);
    assert NoPairFrom(DepressionEyePainMessage, 'h', 'r', 34);
    assert NoPairFrom(DepressionEyePainMessage, 'h', 'r', 33);
    assert NoPairFrom(DepressionEyePainMessage, 'h', 'r', 32);
  }

  lemma DepressionEyePainMessageLacksPairHR()
    ensures NoPairFrom(DepressionEyePainMessage, 'h', 'r', 0)
  {
    DepressionEyePainMessageLacksPairHRTail();
    assert NoPairFrom(DepressionEyePainMessage, 'h', 'r', 30);
    assert NoPairFrom(DepressionEyePainMessage, 'h', 'r', 29);
    assert NoPairFrom(DepressionEyePainMessage, 'h', 'r', 28);
    assert NoPairFrom(DepressionEyePainMessage, 'h', 'r', 27);
    assert NoPairFrom(DepressionEyePainMessage, 'h', 'r', 26);
    assert NoPairFrom(DepressionEyePainMessage, 'h', 'r', 25);
    assert NoPairFrom(DepressionEyePainMessage, 'h', 'r', 24);
    assert NoPairFrom(DepressionEyePainMessage, 'h', 'r', 23);
    assert NoPairFrom(DepressionEyePainMessage, 'h', 'r', 22);
    assert NoPairFrom(DepressionEyePainMessage, 'h', 'r', 21);
    assert NoPairFrom(DepressionEyePainMessage, 'h', 'r', 20);
    assert NoPairFrom(DepressionEyePainMessage, 'h', 'r', 19);
    assert NoPairFrom(DepressionEyePainMessage, 'h', 'r', 18);
    assert NoPairFrom(DepressionEyePainMessage, 'h', 'r', 17);
    assert NoPairFrom(DepressionEyePainMessage, 'h', 'r', 16);
    assert NoPairFrom(DepressionEyePainMessage, 'h', 'r', 15);
    assert NoPairFrom(DepressionEyePainMessage, 'h', 'r', 14);
    assert NoPairFrom(DepressionEyePainMessage, 'h', 'r', 13);
    assert NoPairFrom(DepressionEyePainMessage, 'h', 'r', 12);
    assert NoPairFrom(DepressionEyePainMessage, 'h', 'r', 11);
    assert NoPairFrom(DepressionEyePainMessage, 'h', 'r', 10);
    assert NoPairFrom(DepressionEyePainMessage, 'h', 'r', 9);
    assert NoPairFrom(DepressionEyePainMessage, 'h', 'r', 8);
    assert NoPairFrom(DepressionEyePainMessage, 'h', 'r', 7);
    assert NoPairFrom(DepressionEyePainMessage, 'h', 'r', 6);
    assert NoPairFrom(DepressionEyePainMessage, 'h', 'r', 5);
    assert NoPairFrom(DepressionEyePainMessage, 'h', 'r', 4);
    assert NoPairFrom(DepressionEyePainMessage, 'h', 'r', 3);
    assert NoPairFrom(DepressionEyePainMessage, 'h', 'r', 2);
    assert NoPairFrom(DepressionEyePainMessage, 'h', 'r', 1);
  }

  lemma DepressionEyePainMessageLacksPairNSTail()
    ensures NoPairFrom(DepressionEyePainMessage, 'n', 's', 31)
  {
    assert NoPairFrom(DepressionEyePainMessage, 'n', 's', 61);
    assert NoPairFrom(DepressionEyePainMessage, 'n', 's', 60);
    assert NoPairFrom(DepressionEyePainMessage, 'n', 's', 59);
    assert NoPairFrom(DepressionEyePainMessage, 'n', 's', 58);
    assert NoPairFrom(DepressionEyePainMessage, 'n', 's', 57);
    assert NoPairFrom(DepressionEyePainMessage, 'n', 's', 56);
    assert NoPairFrom(DepressionEyePainMessage, 'n', 's', 55);
    assert NoPairFrom(DepressionEyePainMessage, 'n', 's', 54);
    assert NoPairFrom(DepressionEyePainMessage, 'n', 's', 53);
    assert NoPairFrom(DepressionEyePainMessage, 'n', 's', 52);
    assert NoPairFrom(DepressionEyePainMessage, 'n', 's', 51);
    assert NoPairFrom(DepressionEyePainMessage, 'n', 's', 50);
    assert NoPairFrom(DepressionEyePainMessage, 'n', 's', 49);
    assert NoPairFrom(DepressionEyePainMessage, 'n', 's', 48);
    assert NoPairFrom(DepressionEyePainMessage, 'n', 's', 47);
    assert NoPairFrom(DepressionEyePainMessage, 'n', 's', 46);
    assert NoPairFrom(DepressionEyePainMessage, 'n', 's', 45);
    assert NoPairFrom(DepressionEyePainMessage, 'n', 's', 44);
    assert NoPairFrom(DepressionEyePainMessage, 'n', 's', 43);
    assert NoPairFrom(DepressionEyePainMessage, 'n', 's', 42);
    assert NoPairFrom(DepressionEyePainMessage, 'n', 's', 41);
    assert NoPairFrom(DepressionEyePainMessage, 'n', 's', 40);
    assert NoPairFrom(DepressionEyePainMessage, 'n', 's', 39);
    assert NoPairFrom(DepressionEyePainMessage, 'n', 's', 38);
    assert NoPairFrom(DepressionEyePainMessage, 'n', 's', 37);
    assert NoPairFrom(DepressionEyePainMessage, 'n', 's', 36);
    assert NoPairFrom(DepressionEyePainMessage, 'n', 's', 35);
    assert NoPairFrom(DepressionEyePainMessage, 'n', 's', 34);
    assert NoPairFrom(DepressionEyePainMessage, 'n', 's', 33);
    assert NoPairFrom(DepressionEyePainMessage, 'n', 's', 32);
  }

  lemma DepressionEyePainMessageLacksPairNS()
    ensures NoPairFrom(DepressionEyePainMessage, 'n', 's', 0)
  {
    DepressionEyePainMessageLacksPairNSTail();
    assert NoPairFrom(DepressionEyePainMessage, 'n', 's', 30);
    assert NoPairFrom(DepressionEyePainMessage, 'n', 's', 29);
    assert NoPairFrom(DepressionEyePainMessage, 'n', 's', 28);
    assert NoPairFrom(DepressionEyePainMessage, 'n', 's', 27);
    assert NoPairFrom(DepressionEyePainMessage, 'n', 's', 26);
    assert NoPairFrom(DepressionEyePainMessage, 'n', 's', 25);
    assert NoPairFrom(DepressionEyePainMessage, 'n', 's', 24);
    assert NoPairFrom(DepressionEyePainMessage, 'n', 's', 23);
    assert NoPairFrom(DepressionEyePainMessage, 'n', 's', 22);
    assert NoPairFrom(DepressionEyePainMessage, 'n', 's', 21);
    assert NoPairFrom(DepressionEyePainMessage, 'n', 's', 20);
    assert NoPairFrom(DepressionEyePainMessage, 'n', 's', 19);
    assert NoPairFrom(DepressionEyePainMessage, 'n', 's', 18);
    assert NoPairFrom(DepressionEyePainMessage, 'n', 's', 17);
    assert NoPairFrom(DepressionEyePainMessage, 'n', 's', 16);
    assert NoPairFrom(DepressionEyePainMessage, 'n', 's', 15);
    assert NoPairFrom(DepressionEyePainMessage, 'n', 's', 14);
    assert NoPairFrom(DepressionEyePainMessage, 'n', 's', 13);
    assert NoPairFrom(DepressionEyePainMessage, 'n', 's', 12);
    assert NoPairFrom(DepressionEyePainMessage, 'n', 's', 11);
    assert NoPairFrom(DepressionEyePainMessage, 'n', 's', 10);
    assert NoPairFrom(DepressionEyePainMessage, 'n', 's', 9);
    assert NoPairFrom(DepressionEyePainMessage, 'n', 's', 8);
    assert NoPairFrom(DepressionEyePainMessage, 'n', 's', 7);
    assert NoPairFrom(DepressionEyePainMessage, 'n', 's', 6);
    assert NoPairFrom(DepressionEyePainMessage, 'n', 's', 5);
    assert NoPairFrom(DepressionEyePainMessage, 'n', 's', 4);
    assert NoPairFrom(DepressionEyePainMessage, 'n', 's', 3);
    assert NoPairFrom(DepressionEyePainMessage, 'n', 's', 2);
    assert NoPairFrom(DepressionEyePainMessage, 'n', 's', 1);
  }

  lemma DepressionEyePainMessageLacksPairOSTail()
    ensures NoPairFrom(DepressionEyePainMessage, 'o', 's', 31)
  {
    assert NoPairFrom(DepressionEyePainMessage, 'o', 's', 61);
    assert NoPairFrom(DepressionEyePainMessage, 'o', 's', 60);
    assert NoPairFrom(DepressionEyePainMessage, 'o', 's', 59);
    assert NoPairFrom(DepressionEyePainMessage, 'o', 's', 58);
    assert NoPairFrom(DepressionEyePainMessage, 'o', 's', 57);
    assert NoPairFrom(DepressionEyePainMessage, 'o', 's', 56);
    assert NoPairFrom(DepressionEyePainMessage, 'o', 's', 55);
    assert NoPairFrom(DepressionEyePainMessage, 'o', 's', 54);
    assert NoPairFrom(DepressionEyePainMessage, 'o', 's', 53);
    assert NoPairFrom(DepressionEyePainMessage, 'o', 's', 52);
    assert NoPairFrom(DepressionEyePainMessage, 'o', 's', 51);
    assert NoPairFrom(DepressionEyePainMessage, 'o', 's', 50);
    assert NoPairFrom(DepressionEyePainMessage, 'o', 's', 49);
    assert NoPairFrom(DepressionEyePainMessage, 'o', 's', 48);
    assert NoPairFrom(DepressionEyePainMessage, 'o', 's', 47);
    assert NoPairFrom(DepressionEyePainMessage, 'o', 's', 46);
    assert NoPairFrom(DepressionEyePainMessage, 'o', 's', 45);
    assert NoPairFrom(DepressionEyePainMessage, 'o', 's', 44);
    assert NoPairFrom(DepressionEyePainMessage, 'o', 's', 43);
    assert NoPairFrom(DepressionEyePainMessage, 'o', 's', 42);
    assert NoPairFrom(DepressionEyePainMessage, 'o', 's', 41);
    assert NoPairFrom(DepressionEyePainMessage, 'o', 's', 40);
    assert NoPairFrom(DepressionEyePainMessage, 'o', 's', 39);
    assert NoPairFrom(DepressionEyePainMessage, 'o', 's', 38);
    assert NoPairFrom(DepressionEyePainMessage, 'o', 's', 37);
    assert NoPairFrom(DepressionEyePainMessage, 'o', 's', 36);
    assert NoPairFrom(DepressionEyePainMessage, 'o', 's', 35);
    assert NoPairFrom(DepressionEyePainMessage, 'o', 's', 34);
    assert NoPairFrom(DepressionEyePainMessage, 'o', 's', 33);
    assert NoPairFrom(DepressionEyePainMessage, 'o', 's', 32);
  }

  lemma DepressionEyePainMessageLacksPairOS()
    ensures NoPairFrom(DepressionEyePainMessage, 'o', 's', 0)
  {
    DepressionEyePainMessageLacksPairOSTail();
    assert NoPairFrom(DepressionEyePainMessage, 'o', 's', 30);
    assert NoPairFrom(DepressionEyePainMessage, 'o', 's', 29);
    assert NoPairFrom(DepressionEyePainMessage, 'o', 's', 28);
    assert NoPairFrom(DepressionEyePainMessage, 'o', 's', 27);
    assert NoPairFrom(DepressionEyePainMessage, 'o', 's', 26);
    assert NoPairFrom(DepressionEyePainMessage, 'o', 's', 25);
    assert NoPairFrom(DepressionEyePainMessage, 'o', 's', 24);
    assert NoPairFrom(DepressionEyePainMessage, 'o', 's', 23);
    assert NoPairFrom(DepressionEyePainMessage, 'o', 's', 22);
    assert NoPairFrom(DepressionEyePainMessage, 'o', 's', 21);
    assert NoPairFrom(DepressionEyePainMessage, 'o', 's', 20);
    assert NoPairFrom(DepressionEyePainMessage, 'o', 's', 19);
    assert NoPairFrom(DepressionEyePainMessage, 'o', 's', 18);
    assert NoPairFrom(DepressionEyePainMessage, 'o', 's', 17);
    assert NoPairFrom(DepressionEyePainMessage, 'o', 's', 16);
    assert NoPairFrom(DepressionEyePainMessage, 'o', 's', 15);
    assert NoPairFrom(DepressionEyePainMessage, 'o', 's', 14);
    assert NoPairFrom(DepressionEyePainMessage, 'o', 's', 13);
    assert NoPairFrom(DepressionEyePainMessage, 'o', 's', 12);
    assert NoPairFrom(DepressionEyePainMessage, 'o', 's', 11);
    assert NoPairFrom(DepressionEyePainMessage, 'o', 's', 10);
    assert NoPairFrom(DepressionEyePainMessage, 'o', 's', 9);
    assert NoPairFrom(DepressionEyePainMessage, 'o', 's', 8);
    assert NoPairFrom(DepressionEyePainMessage, 'o', 's', 7);
    assert NoPairFrom(DepressionEyePainMessage, 'o', 's', 6);
    assert NoPairFrom(DepressionEyePainMessage, 'o', 's', 5);
    assert NoPairFrom(DepressionEyePainMessage, 'o', 's', 4);
    assert NoPairFrom(DepressionEyePainMessage, 'o', 's', 3);
    assert NoPairFrom(DepressionEyePainMessage, 'o', 's', 2);
    assert NoPairFrom(DepressionEyePainMessage, 'o', 's', 1);
  }

  lemma DepressionEyePainMessageLacksPairSETail()
    ensures NoPairFrom(DepressionEyePainMessage, 's', 'e', 31)
  {
    assert NoPairFrom(DepressionEyePainMessage, 's', 'e', 61);
    assert NoPairFrom(DepressionEyePainMessage, 's', 'e', 60);
    assert NoPairFrom(DepressionEyePainMessage, 's', 'e', 59);
    assert NoPairFrom(DepressionEyePainMessage, 's', 'e', 58);
    assert NoPairFrom(DepressionEyePainMessage, 's', 'e', 57);
    assert NoPairFrom(DepressionEyePainMessage, 's', 'e', 56);
    assert NoPairFrom(DepressionEyePainMessage, 's', 'e', 55);
    assert NoPairFrom(DepressionEyePainMessage, 's', 'e', 54);
    assert NoPairFrom(DepressionEyePainMessage, 's', 'e', 53);
    assert NoPairFrom(DepressionEyePainMessage, 's', 'e', 52);
    assert NoPairFrom(DepressionEyePainMessage, 's', 'e', 51);
    assert NoPairFrom(DepressionEyePainMessage, 's', 'e', 50);
    assert NoPairFrom(DepressionEyePainMessage, 's', 'e', 49);
    assert NoPairFrom(DepressionEyePainMessage, 's', 'e', 48);
    assert NoPairFrom(DepressionEyePainMessage, 's', 'e', 47);
    assert NoPairFrom(DepressionEyePainMessage, 's', 'e', 46);
    assert NoPairFrom(DepressionEyePainMessage, 's', 'e', 45);
    assert NoPairFrom(DepressionEyePainMessage, 's', 'e', 44);
    assert NoPairFrom(DepressionEyePainMessage, 's', 'e', 43);
    assert NoPairFrom(DepressionEyePainMessage, 's', 'e', 42);
    assert NoPairFrom(DepressionEyePainMessage, 's', 'e', 41);
    assert NoPairFrom(DepressionEyePainMessage, 's', 'e', 40);
    assert NoPairFrom(DepressionEyePainMessage, 's', 'e', 39);
    assert NoPairFrom(DepressionEyePainMessage, 's', 'e', 38);
    assert NoPairFrom(DepressionEyePainMessage, 's', 'e', 37);
    assert NoPairFrom(DepressionEyePainMessage, 's', 'e', 36);
    assert NoPairFrom(DepressionEyePainMessage, 's', 'e', 35);
    assert NoPairFrom(DepressionEyePainMessage, 's', 'e', 34);
    assert NoPairFrom(DepressionEyePainMessage, 's', 'e', 33);
    assert NoPairFrom(DepressionEyePainMessage, 's', 'e', 32);
  }

  lemma DepressionEyePainMessageLacksPairSE()
    ensures NoPairFrom(DepressionEyePainMessage, 's', 'e', 0)
  {
    DepressionEyePainMessageLacksPairSETail();
    assert NoPairFrom(DepressionEyePainMessage, 's', 'e', 30);
    assert NoPairFrom(DepressionEyePainMessage, 's', 'e', 29);
    assert NoPairFrom(DepressionEyePainMessage, 's', 'e', 28);
    assert NoPairFrom(DepressionEyePainMessage, 's', 'e', 27);
    assert NoPairFrom(DepressionEyePainMessage, 's', 'e', 26);
    assert NoPairFrom(DepressionEyePainMessage, 's', 'e', 25);
    assert NoPairFrom(DepressionEyePainMessage, 's', 'e', 24);
    assert NoPairFrom(DepressionEyePainMessage, 's', 'e', 23);
    assert NoPairFrom(DepressionEyePainMessage, 's', 'e', 22);
    assert NoPairFrom(DepressionEyePainMessage, 's', 'e', 21);
    assert NoPairFrom(DepressionEyePainMessage, 's', 'e', 20);
    assert NoPairFrom(DepressionEyePainMessage, 's', 'e', 19);
    assert NoPairFrom(DepressionEyePainMessage, 's', 'e', 18);
    assert NoPairFrom(DepressionEyePainMessage, 's', 'e', 17);
    assert NoPairFrom(DepressionEyePainMessage, 's', 'e', 16);
    assert NoPairFrom(DepressionEyePainMessage, 's', 'e', 15);
    assert NoPairFrom(DepressionEyePainMessage, 's', 'e', 14);
    assert NoPairFrom(DepressionEyePainMessage, 's', 'e', 13);
    assert NoPairFrom(DepressionEyePainMessage, 's', 'e', 12);
    assert NoPairFrom(DepressionEyePainMessage, 's', 'e', 11);
    assert NoPairFrom(DepressionEyePainMessage, 's', 'e', 10);
    assert NoPairFrom(DepressionEyePainMessage, 's', 'e', 9);
    assert NoPairFrom(DepressionEyePainMessage, 's', 'e', 8);
    assert NoPairFrom(DepressionEyePainMessage, 's', 'e', 7);
    assert NoPairFrom(DepressionEyePainMessage, 's', 'e', 6);
    assert NoPairFrom(DepressionEyePainMessage, 's', 'e', 5);
    assert NoPairFrom(DepressionEyePainMessage, 's', 'e', 4);
    assert NoPairFrom(DepressionEyePainMessage, 's', 'e', 3);
    assert NoPairFrom(DepressionEyePainMessage, 's', 'e', 2);
    assert NoPairFrom(DepressionEyePainMessage, 's', 'e', 1);
  }

  lemma DepressionEyePainMessageLacksPairTITail()
    ensures NoPairFrom(DepressionEyePainMessage, 't', 'i', 31)
  {
    assert NoPairFrom(DepressionEyePainMessage, 't', 'i', 61);
    assert NoPairFrom(DepressionEyePainMessage, 't', 'i', 60);
    assert NoPairFrom(DepressionEyePainMessage, 't', 'i', 59);
    assert NoPairFrom(DepressionEyePainMessage, 't', 'i', 58);
    assert NoPairFrom(DepressionEyePainMessage, 't', 'i', 57);
    assert NoPairFrom(DepressionEyePainMessage, 't', 'i', 56);
    assert NoPairFrom(DepressionEyePainMessage, 't', 'i', 55);
    assert NoPairFrom(DepressionEyePainMessage, 't', 'i', 54);
    assert NoPairFrom(DepressionEyePainMessage, 't', 'i', 53);
    assert NoPairFrom(DepressionEyePainMessage, 't', 'i', 52);
    assert NoPairFrom(DepressionEyePainMessage, 't', 'i', 51);
    assert NoPairFrom(DepressionEyePainMessage, 't', 'i', 50);
    assert NoPairFrom(DepressionEyePainMessage, 't', 'i', 49);
    assert NoPairFrom(DepressionEyePainMessage, 't', 'i', 48);
    assert NoPairFrom(DepressionEyePainMessage, 't', 'i', 47);
    assert NoPairFrom(DepressionEyePainMessage, 't', 'i', 46);
    assert NoPairFrom(DepressionEyePainMessage, 't', 'i', 45);
    assert NoPairFrom(DepressionEyePainMessage, 't', 'i', 44);
    assert NoPairFrom(DepressionEyePainMessage, 't', 'i', 43);
    assert NoPairFrom(DepressionEyePainMessage, 't', 'i', 42);
    assert NoPairFrom(DepressionEyePainMessage, 't', 'i', 41);
    assert NoPairFrom(DepressionEyePainMessage, 't', 'i', 40);
    assert NoPairFrom(DepressionEyePainMessage, 't', 'i', 39);
    assert NoPairFrom(DepressionEyePainMessage, 't', 'i', 38);
    assert NoPairFrom(DepressionEyePainMessage, 't', 'i', 37);
    assert NoPairFrom(DepressionEyePainMessage, 't', 'i', 36);
    assert NoPairFrom(DepressionEyePainMessage, 't', 'i', 35);
    assert NoPairFrom(DepressionEyePainMessage, 't', 'i', 34);
    assert NoPairFrom(DepressionEyePainMessage, 't', 'i', 33);
    assert NoPairFrom(DepressionEyePainMessage, 't', 'i', 32);
  }

  lemma DepressionEyePainMessageLacksPairTI()
    ensures NoPairFrom(DepressionEyePainMessage, 't', 'i', 0)
  {
    DepressionEyePainMessageLacksPairTITail();
    assert NoPairFrom(DepressionEyePainMessage, 't', 'i', 30);
    assert NoPairFrom(DepressionEyePainMessage, 't', 'i', 29);
    assert NoPairFrom(DepressionEyePainMessage, 't', 'i', 28);
    assert NoPairFrom(DepressionEyePainMessage, 't', 'i', 27);
    assert NoPairFrom(DepressionEyePainMessage, 't', 'i', 26);
    assert NoPairFrom(DepressionEyePainMessage, 't', 'i', 25);
    assert NoPairFrom(DepressionEyePainMessage, 't', 'i', 24);
    assert NoPairFrom(DepressionEyePainMessage, 't', 'i', 23);
    assert NoPairFrom(DepressionEyePainMessage, 't', 'i', 22);
    assert NoPairFrom(DepressionEyePainMessage, 't', 'i', 21);
    assert NoPairFrom(DepressionEyePainMessage, 't', 'i', 20);
    assert NoPairFrom(DepressionEyePainMessage, 't', 'i', 19);
    assert NoPairFrom(DepressionEyePainMessage, 't', 'i', 18);
    assert NoPairFrom(DepressionEyePainMessage, 't', 'i', 17);
    assert NoPairFrom(DepressionEyePainMessage, 't', 'i', 16);
    assert NoPairFrom(DepressionEyePainMessage, 't', 'i', 15);
    assert NoPairFrom(DepressionEyePainMessage, 't', 'i', 14);
    assert NoPairFrom(DepressionEyePainMessage, 't', 'i', 13);
    assert NoPairFrom(DepressionEyePainMessage, 't', 'i', 12);
    assert NoPairFrom(DepressionEyePainMessage, 't', 'i', 11);
    assert NoPairFrom(DepressionEyePainMessage, 't', 'i', 10);
    assert NoPairFrom(DepressionEyePainMessage, 't', 'i', 9);
    assert NoPairFrom(DepressionEyePainMessage, 't', 'i', 8);
    assert NoPairFrom(DepressionEyePainMessage, 't', 'i', 7);
    assert NoPairFrom(DepressionEyePainMessage, 't', 'i', 6);
    assert NoPairFrom(DepressionEyePainMessage, 't', 'i', 5);
    assert NoPairFrom(DepressionEyePainMessage, 't', 'i', 4);
    assert NoPairFrom(DepressionEyePainMessage, 't', 'i', 3);
    assert NoPairFrom(DepressionEyePainMessage, 't', 'i', 2);
    assert NoPairFrom(DepressionEyePainMessage, 't', 'i', 1);
  }

  lemma DepressionEyePainMessageGeneralMisses1()
    ensures !Mentions(DepressionEyePainMessage, "FATIGUE")
    ensures !Mentions(DepressionEyePainMessage, "FEVER")
  {
    DepressionEyePainMessageLacksLetterG();
    DepressionEyePainMessageLacksPairEV();
    AbsentLetter(DepressionEyePainMessage, "FATIGUE", 4);
    AbsentPair(DepressionEyePainMessage, "FEVER", 1);
  }

  lemma DepressionEyePainMessageGeneralMisses2()
    ensures !Mentions(DepressionEyePainMessage, "CHILLS")
    ensures !Mentions(DepressionEyePainMessage, "NIGHT SWEATS")
  {
    DepressionEyePainMessageLacksLetterC();
    DepressionEyePainMessageLacksLetterG();
    AbsentLetter(DepressionEyePainMessage, "CHILLS", 0);
    AbsentLetter(DepressionEyePainMessage, "NIGHT SWEATS", 2);
  }

  lemma DepressionEyePainMessageGeneralMisses3()
    ensures !Mentions(DepressionEyePainMessage, "WEIGHT LOSS")
    ensures !Mentions(DepressionEyePainMessage, "WEIGHT GAIN")
  {
    DepressionEyePainMessageLacksLetterW();
    AbsentLetter(DepressionEyePainMessage, "WEIGHT LOSS", 0);
    AbsentLetter(DepressionEyePainMessage, "WEIGHT GAIN", 0);
  }

  lemma DepressionEyePainMessageGeneralMisses4()
    ensures !Mentions(DepressionEyePainMessage, "MALAISE")
    ensures !Mentions(DepressionEyePainMessage, "WEAKNESS")
  {
    DepressionEyePainMessageLacksPairSE();
    DepressionEyePainMessageLacksLetterW();
    AbsentPair(DepressionEyePainMessage, "MALAISE", 5);
    AbsentLetter(DepressionEyePainMessage, "WEAKNESS", 0);
  }

  /** The message mentions no label of GeneralSymptoms. */
  lemma DepressionEyePainMessageGeneral()
    ensures MatchedSymptoms(DepressionEyePainMessage, GeneralSymptoms.symptoms) == []
  {
    DepressionEyePainMessageGeneralMisses1();
    DepressionEyePainMessageGeneralMisses2();
    DepressionEyePainMessageGeneralMisses3();
    DepressionEyePainMessageGeneralMisses4();
    MatchedNone(DepressionEyePainMessage, GeneralSymptoms.symptoms);
  }

  lemma DepressionEyePainMessageNeurologicalMisses1()
    ensures !Mentions(DepressionEyePainMessage, "HEADACHE")
    ensures !Mentions(DepressionEyePainMessage, "DIZZINESS")
  {
    DepressionEyePainMessageLacksLetterC();
    DepressionEyePainMessageLacksLetterZ();
    AbsentLetter(DepressionEyePainMessage, "HEADACHE", 5);
    AbsentLetter(DepressionEyePainMessage, "DIZZINESS", 2);
  }

  lemma DepressionEyePainMessageNeurologicalMisses2()
    ensures !Mentions(DepressionEyePainMessage, "SYNCOPE")
    ensures !Mentions(DepressionEyePainMessage, "SEIZURES")
  {
    DepressionEyePainMessageLacksLetterC();
    DepressionEyePainMessageLacksLetterZ();
    AbsentLetter(DepressionEyePainMessage, "SYNCOPE", 3);
    AbsentLetter(DepressionEyePainMessage, "SEIZURES", 3);
  }

  lemma DepressionEyePainMessageNeurologicalMisses3()
    ensures !Mentions(DepressionEyePainMessage, "TREMOR")
    ensures !Mentions(DepressionEyePainMessage, "NUMBNESS")
  {
    DepressionEyePainMessageLacksPairEM();
    DepressionEyePainMessageLacksLetterB();
    AbsentPair(DepressionEyePainMessage, "TREMOR", 2);
    AbsentLetter(DepressionEyePainMessage, "NUMBNESS", 3);
  }

  lemma DepressionEyePainMessageNeurologicalMisses4()
    ensures !Mentions(DepressionEyePainMessage, "TINGLING")
    ensures !Mentions(DepressionEyePainMessage, "MEMORY LOSS")
  {
    DepressionEyePainMessageLacksLetterG();
    DepressionEyePainMessageLacksPairEM();
    AbsentLetter(DepressionEyePainMessage, "TINGLING", 3);
    AbsentPair(DepressionEyePainMessage, "MEMORY LOSS", 1);
  }

  lemma DepressionEyePainMessageNeurologicalMisses5()
    ensures !Mentions(DepressionEyePainMessage, "CONFUSION")
    ensures !Mentions(DepressionEyePainMessage, "SLURRED SPEECH")
  {
    DepressionEyePainMessageLacksLetterC();
    AbsentLetter(DepressionEyePainMessage, "CONFUSION", 0);
    AbsentLetter(DepressionEyePainMessage, "SLURRED SPEECH", 12);
  }

  lemma DepressionEyePainMessageNeurologicalMisses6()
    ensures !Mentions(DepressionEyePainMessage, "MUSCLE WEAKNESS")
    ensures !Mentions(DepressionEyePainMessage, "LOSS OF COORDINATION")
  {
    DepressionEyePainMessageLacksLetterC();
    AbsentLetter(DepressionEyePainMessage, "MUSCLE WEAKNESS", 3);
    AbsentLetter(DepressionEyePainMessage, "LOSS OF COORDINATION", 8);
  }

  /** The message mentions no label of NeurologicalSymptoms. */
  lemma DepressionEyePainMessageNeurological()
    ensures MatchedSymptoms(DepressionEyePainMessage, NeurologicalSymptoms.symptoms) == []
  {
    DepressionEyePainMessageNeurologicalMisses1();
    DepressionEyePainMessageNeurologicalMisses2();
    DepressionEyePainMessageNeurologicalMisses3();
    DepressionEyePainMessageNeurologicalMisses4();
    DepressionEyePainMessageNeurologicalMisses5();
    DepressionEyePainMessageNeurologicalMisses6();
    MatchedNone(DepressionEyePainMessage, NeurologicalSymptoms.symptoms);
  }

  lemma DepressionEyePainMessageCardiovascularMisses1()
    ensures !Mentions(DepressionEyePainMessage, "CHEST PAIN")
    ensures !Mentions(DepressionEyePainMessage, "PALPITATIONS")
  {
    DepressionEyePainMessageLacksLetterC();
    DepressionEyePainMessageLacksPairTI();
    AbsentLetter(DepressionEyePainMessage, "CHEST PAIN", 0);
    AbsentPair(DepressionEyePainMessage, "PALPITATIONS", 7);
  }

  lemma DepressionEyePainMessageCardiovascularMisses2()
    ensures !Mentions(DepressionEyePainMessage, "SHORTNESS OF BREATH")
    ensures !Mentions(DepressionEyePainMessage, "EDEMA")
  {
    DepressionEyePainMessageLacksLetterB();
    DepressionEyePainMessageLacksPairED();
    AbsentLetter(DepressionEyePainMessage, "SHORTNESS OF BREATH", 13);
    AbsentPair(DepressionEyePainMessage, "EDEMA", 0);
  }

  lemma DepressionEyePainMessageCardiovascularMisses3()
    ensures !Mentions(DepressionEyePainMessage, "CYANOSIS")
    ensures !Mentions(DepressionEyePainMessage, "CLAUDICATION")
  {
    DepressionEyePainMessageLacksLetterC();
    AbsentLetter(DepressionEyePainMessage, "CYANOSIS", 0);
    AbsentLetter(DepressionEyePainMessage, "CLAUDICATION", 0);
  }

  /** The message mentions no label of CardiovascularSymptoms. */
  lemma DepressionEyePainMessageCardiovascular()
    ensures MatchedSymptoms(DepressionEyePainMessage, CardiovascularSymptoms.symptoms) == []
  {
    DepressionEyePainMessageCardiovascularMisses1();
    DepressionEyePainMessageCardiovascularMisses2();
    DepressionEyePainMessageCardiovascularMisses3();
    MatchedNone(DepressionEyePainMessage, CardiovascularSymptoms.symptoms);
  }

  lemma DepressionEyePainMessageRespiratoryMisses1()
    ensures !Mentions(DepressionEyePainMessage, "COUGH")
    ensures !Mentions(DepressionEyePainMessage, "WHEEZING")
  {
    DepressionEyePainMessageLacksLetterC();
    DepressionEyePainMessageLacksLetterW();
    AbsentLetter(DepressionEyePainMessage, "COUGH", 0);
    AbsentLetter(DepressionEyePainMessage, "WHEEZING", 0);
  }

  lemma DepressionEyePainMessageRespiratoryMisses2()
    ensures !Mentions(DepressionEyePainMessage, "SHORTNESS OF BREATH")
    ensures !Mentions(DepressionEyePainMessage, "HEMOPTYSIS")
  {
    DepressionEyePainMessageLacksLetterB();
    DepressionEyePainMessageLacksPairEM();
    AbsentLetter(DepressionEyePainMessage, "SHORTNESS OF BREATH", 13);
    AbsentPair(DepressionEyePainMessage, "HEMOPTYSIS", 1);
  }

  lemma DepressionEyePainMessageRespiratoryMisses3()
    ensures !Mentions(DepressionEyePainMessage, "SPUTUM PRODUCTION")
    ensures !Mentions(DepressionEyePainMessage, "CHEST TIGHTNESS")
  {
    DepressionEyePainMessageLacksLetterC();
    AbsentLetter(DepressionEyePainMessage, "SPUTUM PRODUCTION", 12);
    AbsentLetter(DepressionEyePainMessage, "CHEST TIGHTNESS", 0);
  }

  /** The message mentions no label of RespiratorySymptoms. */
  lemma DepressionEyePainMessageRespiratory()
    ensures MatchedSymptoms(DepressionEyePainMessage, RespiratorySymptoms.symptoms) == []
  {
    DepressionEyePainMessageRespiratoryMisses1();
    DepressionEyePainMessageRespiratoryMisses2();
    DepressionEyePainMessageRespiratoryMisses3();
    MatchedNone(DepressionEyePainMessage, RespiratorySymptoms.symptoms);
  }

  lemma DepressionEyePainMessageGastrointestinalMisses1()
    ensures !Mentions(DepressionEyePainMessage, "NAUSEA")
    ensures !Mentions(DepressionEyePainMessage, "VOMITING")
  {
    DepressionEyePainMessageLacksPairSE();
    DepressionEyePainMessageLacksLetterG();
    AbsentPair(DepressionEyePainMessage, "NAUSEA", 3);
    AbsentLetter(DepressionEyePainMessage, "VOMITING", 7);
  }

  lemma DepressionEyePainMessageGastrointestinalMisses2()
    ensures !Mentions(DepressionEyePainMessage, "ABDOMINAL PAIN")
    ensures !Mentions(DepressionEyePainMessage, "DIARRHEA")
  {
    DepressionEyePainMessageLacksLetterB();
    DepressionEyePainMessageLacksPairAR();
    AbsentLetter(DepressionEyePainMessage, "ABDOMINAL PAIN", 1);
    AbsentPair(DepressionEyePainMessage, "DIARRHEA", 2);
  }

  lemma DepressionEyePainMessageGastrointestinalMisses3()
    ensures !Mentions(DepressionEyePainMessage, "CONSTIPATION")
    ensures !Mentions(DepressionEyePainMessage, "BLOATING")
  {
    DepressionEyePainMessageLacksLetterC();
    DepressionEyePainMessageLacksLetterB();
    AbsentLetter(DepressionEyePainMessage, "CONSTIPATION", 0);
    AbsentLetter(DepressionEyePainMessage, "BLOATING", 0);
  }

  lemma DepressionEyePainMessageGastrointestinalMisses4()
    ensures !Mentions(DepressionEyePainMessage, "HEARTBURN")
    ensures !Mentions(DepressionEyePainMessage, "DIFFICULTY SWALLOWING")
  {
    DepressionEyePainMessageLacksLetterB();
    DepressionEyePainMessageLacksLetterC();
    AbsentLetter(DepressionEyePainMessage, "HEARTBURN", 5);
    AbsentLetter(DepressionEyePainMessage, "DIFFICULTY SWALLOWING", 5);
  }

  lemma DepressionEyePainMessageGastrointestinalMisses5()
    ensures !Mentions(DepressionEyePainMessage, "RECTAL BLEEDING")
    ensures !Mentions(DepressionEyePainMessage, "JAUNDICE")
  {
    DepressionEyePainMessageLacksLetterC();
    DepressionEyePainMessageLacksLetterJ();
    AbsentLetter(DepressionEyePainMessage, "RECTAL BLEEDING", 2);
    AbsentLetter(DepressionEyePainMessage, "JAUNDICE", 0);
  }

  /** The message mentions no label of GastrointestinalSymptoms. */
  lemma DepressionEyePainMessageGastrointestinal()
    ensures MatchedSymptoms(DepressionEyePainMessage, GastrointestinalSymptoms.symptoms) == []
  {
    DepressionEyePainMessageGastrointestinalMisses1();
    DepressionEyePainMessageGastrointestinalMisses2();
    DepressionEyePainMessageGastrointestinalMisses3();
    DepressionEyePainMessageGastrointestinalMisses4();
    DepressionEyePainMessageGastrointestinalMisses5();
    MatchedNone(DepressionEyePainMessage, GastrointestinalSymptoms.symptoms);
  }

  lemma DepressionEyePainMessageGenitourinaryMisses1()
    ensures !Mentions(DepressionEyePainMessage, "DYSURIA")
    ensures !Mentions(DepressionEyePainMessage, "URINARY FREQUENCY")
  {
    DepressionEyePainMessageLacksPairDY();
    DepressionEyePainMessageLacksLetterQ();
    AbsentPair(DepressionEyePainMessage, "DYSURIA", 0);
    AbsentLetter(DepressionEyePainMessage, "URINARY FREQUENCY", 11);
  }

  lemma DepressionEyePainMessageGenitourinaryMisses2()
    ensures !Mentions(DepressionEyePainMessage, "URINARY URGENCY")
    ensures !Mentions(DepressionEyePainMessage, "INCONTINENCE")
  {
    DepressionEyePainMessageLacksLetterG();
    DepressionEyePainMessageLacksLetterC();
    AbsentLetter(DepressionEyePainMessage, "URINARY URGENCY", 10);
    AbsentLetter(DepressionEyePainMessage, "INCONTINENCE", 2);
  }

  lemma DepressionEyePainMessageGenitourinaryMisses3()
    ensures !Mentions(DepressionEyePainMessage, "HEMATURIA")
    ensures !Mentions(DepressionEyePainMessage, "ERECTILE DYSFUNCTION")
  {
    DepressionEyePainMessageLacksPairEM();
    DepressionEyePainMessageLacksLetterC();
    AbsentPair(DepressionEyePainMessage, "HEMATURIA", 1);
    AbsentLetter(DepressionEyePainMessage, "ERECTILE DYSFUNCTION", 3);
  }

  lemma DepressionEyePainMessageGenitourinaryMisses4()
    ensures !Mentions(DepressionEyePainMessage, "PELVIC PAIN")
    ensures !Mentions(DepressionEyePainMessage, "MENSTRUAL IRREGULARITIES")
  {
    DepressionEyePainMessageLacksLetterC();
    DepressionEyePainMessageLacksLetterG();
    AbsentLetter(DepressionEyePainMessage, "PELVIC PAIN", 5);
    AbsentLetter(DepressionEyePainMessage, "MENSTRUAL IRREGULARITIES", 14);
  }

  lemma DepressionEyePainMessageGenitourinaryMisses5()
    ensures !Mentions(DepressionEyePainMessage, "VAGINAL DISCHARGE")
    ensures !Mentions(DepressionEyePainMessage, "GENITAL ITCHING")
  {
    DepressionEyePainMessageLacksLetterG();
    AbsentLetter(DepressionEyePainMessage, "VAGINAL DISCHARGE", 2);
    AbsentLetter(DepressionEyePainMessage, "GENITAL ITCHING", 0);
  }

  /** The message mentions no label of GenitourinarySymptoms. */
  lemma DepressionEyePainMessageGenitourinary()
    ensures MatchedSymptoms(DepressionEyePainMessage, GenitourinarySymptoms.symptoms) == []
  {
    DepressionEyePainMessageGenitourinaryMisses1();
    DepressionEyePainMessageGenitourinaryMisses2();
    DepressionEyePainMessageGenitourinaryMisses3();
    DepressionEyePainMessageGenitourinaryMisses4();
    DepressionEyePainMessageGenitourinaryMisses5();
    MatchedNone(DepressionEyePainMessage, GenitourinarySymptoms.symptoms);
  }

  lemma DepressionEyePainMessageMusculoskeletalMisses1()
    ensures !Mentions(DepressionEyePainMessage, "JOINT PAIN")
    ensures !Mentions(DepressionEyePainMessage, "MUSCLE PAIN")
  {
    DepressionEyePainMessageLacksLetterJ();
    DepressionEyePainMessageLacksLetterC();
    AbsentLetter(DepressionEyePainMessage, "JOINT PAIN", 0);
    AbsentLetter(DepressionEyePainMessage, "MUSCLE PAIN", 3);
  }

  lemma DepressionEyePainMessageMusculoskeletalMisses2()
    ensures !Mentions(DepressionEyePainMessage, "BACK PAIN")
    ensures !Mentions(DepressionEyePainMessage, "STIFFNESS")
  {
    DepressionEyePainMessageLacksLetterB();
    DepressionEyePainMessageLacksPairTI();
    AbsentLetter(DepressionEyePainMessage, "BACK PAIN", 0);
    AbsentPair(DepressionEyePainMessage, "STIFFNESS", 1);
  }

  lemma DepressionEyePainMessageMusculoskeletalMisses3()
    ensures !Mentions(DepressionEyePainMessage, "SWELLING OF JOINTS")
    ensures !Mentions(DepressionEyePainMessage, "MUSCLE CRAMPS")
  {
    DepressionEyePainMessageLacksLetterW();
    DepressionEyePainMessageLacksLetterC();
    AbsentLetter(DepressionEyePainMessage, "SWELLING OF JOINTS", 1);
    AbsentLetter(DepressionEyePainMessage, "MUSCLE CRAMPS", 3);
  }

  lemma DepressionEyePainMessageMusculoskeletalMisses4()
    ensures !Mentions(DepressionEyePainMessage, "DECREASED RANGE OF MOTION")
  {
    DepressionEyePainMessageLacksLetterC();
    AbsentLetter(DepressionEyePainMessage, "DECREASED RANGE OF MOTION", 2);
  }

  /** The message mentions no label of MusculoskeletalSymptoms. */
  lemma DepressionEyePainMessageMusculoskeletal()
    ensures MatchedSymptoms(DepressionEyePainMessage, MusculoskeletalSymptoms.symptoms) == []
  {
    DepressionEyePainMessageMusculoskeletalMisses1();
    DepressionEyePainMessageMusculoskeletalMisses2();
    DepressionEyePainMessageMusculoskeletalMisses3();
    DepressionEyePainMessageMusculoskeletalMisses4();
    MatchedNone(DepressionEyePainMessage, MusculoskeletalSymptoms.symptoms);
  }

  lemma DepressionEyePainMessageDermatologicalMisses1()
    ensures !Mentions(DepressionEyePainMessage, "RASH")
    ensures !Mentions(DepressionEyePainMessage, "ITCHING")
  {
    DepressionEyePainMessageLacksPairAS();
    DepressionEyePainMessageLacksLetterC();
    AbsentPair(DepressionEyePainMessage, "RASH", 1);
    AbsentLetter(DepressionEyePainMessage, "ITCHING", 2);
  }

  lemma DepressionEyePainMessageDermatologicalMisses2()
    ensures !Mentions(DepressionEyePainMessage, "DRY SKIN")
    ensures !Mentions(DepressionEyePainMessage, "REDNESS")
  {
    DepressionEyePainMessageLacksLetterK();
    DepressionEyePainMessageLacksPairED();
    AbsentLetter(DepressionEyePainMessage, "DRY SKIN", 5);
    AbsentPair(DepressionEyePainMessage, "REDNESS", 1);
  }

  lemma DepressionEyePainMessageDermatologicalMisses3()
    ensures !Mentions(DepressionEyePainMessage, "BLISTERING")
    ensures !Mentions(DepressionEyePainMessage, "ULCERS")
  {
    DepressionEyePainMessageLacksLetterB();
    DepressionEyePainMessageLacksLetterC();
    AbsentLetter(DepressionEyePainMessage, "BLISTERING", 0);
    AbsentLetter(DepressionEyePainMessage, "ULCERS", 2);
  }

  lemma DepressionEyePainMessageDermatologicalMisses4()
    ensures !Mentions(DepressionEyePainMessage, "HAIR LOSS")
    ensures !Mentions(DepressionEyePainMessage, "NAIL CHANGES")
  {
    DepressionEyePainMessageLacksPairOS();
    DepressionEyePainMessageLacksLetterC();
    AbsentPair(DepressionEyePainMessage, "HAIR LOSS", 6);
    AbsentLetter(DepressionEyePainMessage, "NAIL CHANGES", 5);
  }

  /** The message mentions no label of DermatologicalSymptoms. */
  lemma DepressionEyePainMessageDermatological()
    ensures MatchedSymptoms(DepressionEyePainMessage, DermatologicalSymptoms.symptoms) == []
  {
    DepressionEyePainMessageDermatologicalMisses1();
    DepressionEyePainMessageDermatologicalMisses2();
    DepressionEyePainMessageDermatologicalMisses3();
    DepressionEyePainMessageDermatologicalMisses4();
    MatchedNone(DepressionEyePainMessage, DermatologicalSymptoms.symptoms);
  }

  lemma DepressionEyePainMessagePsychiatricMisses1()
    ensures !Mentions(DepressionEyePainMessage, "ANXIETY")
    ensures !Mentions(DepressionEyePainMessage, "INSOMNIA")
  {
    DepressionEyePainMessageLacksLetterX();
    DepressionEyePainMessageLacksPairNS();
    AbsentLetter(DepressionEyePainMessage, "ANXIETY", 2);
    AbsentPair(DepressionEyePainMessage, "INSOMNIA", 1);
  }

  lemma DepressionEyePainMessagePsychiatricMisses2()
    ensures !Mentions(DepressionEyePainMessage, "HALLUCINATIONS")
    ensures !Mentions(DepressionEyePainMessage, "DELUSIONS")
  {
    DepressionEyePainMessageLacksLetterC();
    DepressionEyePainMessageLacksPairNS();
    AbsentLetter(DepressionEyePainMessage, "HALLUCINATIONS", 5);
    AbsentPair(DepressionEyePainMessage, "DELUSIONS", 7);
  }

  lemma DepressionEyePainMessagePsychiatricMisses3()
    ensures !Mentions(DepressionEyePainMessage, "MOOD SWINGS")
    ensures !Mentions(DepressionEyePainMessage, "IRRITABILITY")
  {
    DepressionEyePainMessageLacksLetterW();
    DepressionEyePainMessageLacksLetterB();
    AbsentLetter(DepressionEyePainMessage, "MOOD SWINGS", 6);
    AbsentLetter(DepressionEyePainMessage, "IRRITABILITY", 6);
  }

  lemma DepressionEyePainMessagePsychiatricMisses4()
    ensures !Mentions(DepressionEyePainMessage, "SUICIDAL THOUGHTS")
  {
    DepressionEyePainMessageLacksLetterC();
    AbsentLetter(DepressionEyePainMessage, "SUICIDAL THOUGHTS", 3);
  }

  /** The message mentions of PsychiatricSymptoms only DEPRESSION. */
  lemma DepressionEyePainMessagePsychiatric()
    ensures MatchedSymptoms(DepressionEyePainMessage, PsychiatricSymptoms.symptoms) == ["DEPRESSION"]
  {
    DepressionEyePainMessagePsychiatricMisses1();
    DepressionEyePainMessagePsychiatricMisses2();
    DepressionEyePainMessagePsychiatricMisses3();
    DepressionEyePainMessagePsychiatricMisses4();
    DepressionEyePainMessageMentionsDepression();
    PsychiatricSymptomsWellFormed();
    MatchedOnly(DepressionEyePainMessage, PsychiatricSymptoms.symptoms, "DEPRESSION");
  }

  lemma DepressionEyePainMessageEarNoseThroatMisses1()
    ensures !Mentions(DepressionEyePainMessage, "SORE THROAT")
    ensures !Mentions(DepressionEyePainMessage, "HOARSENESS")
  {
    DepressionEyePainMessageLacksPairHR();
    DepressionEyePainMessageLacksPairAR();
    AbsentPair(DepressionEyePainMessage, "SORE THROAT", 6);
    AbsentPair(DepressionEyePainMessage, "HOARSENESS", 2);
  }

  lemma DepressionEyePainMessageEarNoseThroatMisses2()
    ensures !Mentions(DepressionEyePainMessage, "NASAL CONGESTION")
    ensures !Mentions(DepressionEyePainMessage, "RUNNY NOSE")
  {
    DepressionEyePainMessageLacksLetterC();
    DepressionEyePainMessageLacksPairOS();
    AbsentLetter(DepressionEyePainMessage, "NASAL CONGESTION", 6);
    AbsentPair(DepressionEyePainMessage, "RUNNY NOSE", 7);
  }

  lemma DepressionEyePainMessageEarNoseThroatMisses3()
    ensures !Mentions(DepressionEyePainMessage, "EAR PAIN")
    ensures !Mentions(DepressionEyePainMessage, "HEARING LOSS")
  {
    DepressionEyePainMessageLacksPairAR();
    DepressionEyePainMessageLacksLetterG();
    AbsentPair(DepressionEyePainMessage, "EAR PAIN", 1);
    AbsentLetter(DepressionEyePainMessage, "HEARING LOSS", 6);
  }

  lemma DepressionEyePainMessageEarNoseThroatMisses4()
    ensures !Mentions(DepressionEyePainMessage, "TINNITUS")
    ensures !Mentions(DepressionEyePainMessage, "LOSS OF SMELL")
  {
    DepressionEyePainMessageLacksPairTI();
    DepressionEyePainMessageLacksPairOS();
    AbsentPair(DepressionEyePainMessage, "TINNITUS", 0);
    AbsentPair(DepressionEyePainMessage, "LOSS OF SMELL", 1);
  }

  /** The message mentions no label of EarNoseThroatSymptoms. */
  lemma DepressionEyePainMessageEarNoseThroat()
    ensures MatchedSymptoms(DepressionEyePainMessage, EarNoseThroatSymptoms.symptoms) == []
  {
    DepressionEyePainMessageEarNoseThroatMisses1();
    DepressionEyePainMessageEarNoseThroatMisses2();
    DepressionEyePainMessageEarNoseThroatMisses3();
    DepressionEyePainMessageEarNoseThroatMisses4();
    MatchedNone(DepressionEyePainMessage, EarNoseThroatSymptoms.symptoms);
  }

  lemma DepressionEyePainMessageOcularMisses1()
    ensures !Mentions(DepressionEyePainMessage, "BLURRED VISION")
    ensures !Mentions(DepressionEyePainMessage, "DOUBLE VISION")
  {
    DepressionEyePainMessageLacksLetterB();
    AbsentLetter(DepressionEyePainMessage, "BLURRED VISION", 0);
    AbsentLetter(DepressionEyePainMessage, "DOUBLE VISION", 3);
  }

  lemma DepressionEyePainMessageOcularMisses2()
    ensures !Mentions(DepressionEyePainMessage, "RED EYE")
    ensures !Mentions(DepressionEyePainMessage, "PHOTOPHOBIA")
  {
    DepressionEyePainMessageLacksPairED();
    DepressionEyePainMessageLacksLetterB();
    AbsentPair(DepressionEyePainMessage, "RED EYE", 1);
    AbsentLetter(DepressionEyePainMessage, "PHOTOPHOBIA", 8);
  }

  lemma DepressionEyePainMessageOcularMisses3()
    ensures !Mentions(DepressionEyePainMessage, "VISUAL FIELD LOSS")
  {
    DepressionEyePainMessageLacksPairOS();
    AbsentPair(DepressionEyePainMessage, "VISUAL FIELD LOSS", 14);
  }

  /** The message mentions of OcularSymptoms only EYE PAIN. */
  lemma DepressionEyePainMessageOcular()
    ensures MatchedSymptoms(DepressionEyePainMessage, OcularSymptoms.symptoms) == ["EYE PAIN"]
  {
    DepressionEyePainMessageOcularMisses1();
    DepressionEyePainMessageOcularMisses2();
    DepressionEyePainMessageOcularMisses3();
    DepressionEyePainMessageMentionsEyePain();
    OcularSymptomsWellFormed();
    MatchedOnly(DepressionEyePainMessage, OcularSymptoms.symptoms, "EYE PAIN");
  }

  lemma DepressionEyePainMessageEndocrineMisses1()
    ensures !Mentions(DepressionEyePainMessage, "HEAT INTOLERANCE")
    ensures !Mentions(DepressionEyePainMessage, "COLD INTOLERANCE")
  {
    DepressionEyePainMessageLacksLetterC();
    AbsentLetter(DepressionEyePainMessage, "HEAT INTOLERANCE", 14);
    AbsentLetter(DepressionEyePainMessage, "COLD INTOLERANCE", 0);
  }

  lemma DepressionEyePainMessageEndocrineMisses2()
    ensures !Mentions(DepressionEyePainMessage, "EXCESSIVE THIRST")
    ensures !Mentions(DepressionEyePainMessage, "EXCESSIVE HUNGER")
  {
    DepressionEyePainMessageLacksLetterX();
    AbsentLetter(DepressionEyePainMessage, "EXCESSIVE THIRST", 1);
    AbsentLetter(DepressionEyePainMessage, "EXCESSIVE HUNGER", 1);
  }

  lemma DepressionEyePainMessageEndocrineMisses3()
    ensures !Mentions(DepressionEyePainMessage, "INCREASED URINATION")
  {
    DepressionEyePainMessageLacksLetterC();
    AbsentLetter(DepressionEyePainMessage, "INCREASED URINATION", 2);
  }

  /** The message mentions no label of EndocrineSymptoms. */
  lemma DepressionEyePainMessageEndocrine()
    ensures MatchedSymptoms(DepressionEyePainMessage, EndocrineSymptoms.symptoms) == []
  {
    DepressionEyePainMessageEndocrineMisses1();
    DepressionEyePainMessageEndocrineMisses2();
    DepressionEyePainMessageEndocrineMisses3();
    MatchedNone(DepressionEyePainMessage, EndocrineSymptoms.symptoms);
  }
  // ---------------------------------------------------------------------
  // The two conversations, parsed
  // ---------------------------------------------------------------------

  /** One more category scanned: what `ParseFrom` adds for it. */
  lemma ParseFromStep(message: string, cats: seq<SymptomCategory>, k: nat)
    requires k < |cats|
    ensures var prev, hits := ParseFrom(message, cats[..k]), MatchedSymptoms(message, GetSymptoms(cats[k]));
      ParseFrom(message, cats[..k + 1]) == if hits != [] then (prev.0 + hits, prev.1 + [cats[k].name]) else prev
  {
    assert cats[..k + 1][..k] == cats[..k];
  }

  /** Scanning categories none of which has a match reports nothing. */
  lemma {:induction false} ParseFromNoHits(message: string, cats: seq<SymptomCategory>)
    requires forall k :: 0 <= k < |cats| ==> MatchedSymptoms(message, GetSymptoms(cats[k])) == []
    ensures ParseFrom(message, cats) == ([], [])
  {
    if cats != [] {
      ParseFromNoHits(message, cats[..|cats| - 1]);
    }
  }

  /** The categories as `all_symptom_enums` lists them. */
  lemma AllSymptomEnumsAt()
    ensures |AllSymptomEnums| == 12
    ensures AllSymptomEnums[0] == GeneralSymptoms && AllSymptomEnums[1] == NeurologicalSymptoms
    ensures AllSymptomEnums[2] == CardiovascularSymptoms && AllSymptomEnums[3] == RespiratorySymptoms
    ensures AllSymptomEnums[4] == GastrointestinalSymptoms && AllSymptomEnums[5] == GenitourinarySymptoms
    ensures AllSymptomEnums[6] == MusculoskeletalSymptoms && AllSymptomEnums[7] == DermatologicalSymptoms
    ensures AllSymptomEnums[8] == PsychiatricSymptoms && AllSymptomEnums[9] == EarNoseThroatSymptoms
    ensures AllSymptomEnums[10] == OcularSymptoms && AllSymptomEnums[11] == EndocrineSymptoms
  {
  }

  /** The first case of the tests: no symptom, no category. */
  lemma NoSymptomMessageParse()
    ensures Parse(NoSymptomMessage) == ([], [])
  {
    AllSymptomEnumsAt();
    forall k | 0 <= k < 12 ensures MatchedSymptoms(NoSymptomMessage, GetSymptoms(AllSymptomEnums[k])) == [] {
      if k == 0 {
        NoSymptomMessageGeneral();
      } else if k == 1 {
        NoSymptomMessageNeurological();
      } else if k == 2 {
        NoSymptomMessageCardiovascular();
      } else if k == 3 {
        NoSymptomMessageRespiratory();
      } else if k == 4 {
        NoSymptomMessageGastrointestinal();
      } else if k == 5 {
        NoSymptomMessageGenitourinary();
      } else if k == 6 {
        NoSymptomMessageMusculoskeletal();
      } else if k == 7 {
        NoSymptomMessageDermatological();
      } else if k == 8 {
        NoSymptomMessagePsychiatric();
      } else if k == 9 {
        NoSymptomMessageEarNoseThroat();
      } else if k == 10 {
        NoSymptomMessageOcular();
      } else {
        assert k == 11;
        NoSymptomMessageEndocrine();
      }
    }
    ParseFromNoHits(NoSymptomMessage, AllSymptomEnums);
  }

  /** In the second case nothing is found before the psychiatric
      category. */
  lemma DepressionEyePainMessageFirstEight()
    ensures ParseFrom(DepressionEyePainMessage, AllSymptomEnums[..8]) == ([], [])
  {
    AllSymptomEnumsAt();
    var cats := AllSymptomEnums[..8];
    forall k | 0 <= k < 8 ensures MatchedSymptoms(DepressionEyePainMessage, GetSymptoms(cats[k])) == [] {
      if k == 0 {
        DepressionEyePainMessageGeneral();
      } else if k == 1 {
        DepressionEyePainMessageNeurological();
      } else if k == 2 {
        DepressionEyePainMessageCardiovascular();
      } else if k == 3 {
        DepressionEyePainMessageRespiratory();
      } else if k == 4 {
        DepressionEyePainMessageGastrointestinal();
      } else if k == 5 {
        DepressionEyePainMessageGenitourinary();
      } else if k == 6 {
        DepressionEyePainMessageMusculoskeletal();
      } else {
        assert k == 7;
        DepressionEyePainMessageDermatological();
      }
    }
    ParseFromNoHits(DepressionEyePainMessage, cats);
  }

  /** The psychiatric category then reports DEPRESSION. */
  lemma DepressionEyePainMessageFirstNine()
    ensures ParseFrom(DepressionEyePainMessage, AllSymptomEnums[..9]) == (["DEPRESSION"], ["PsychiatricSymptoms"])
  {
    var m, cats := DepressionEyePainMessage, AllSymptomEnums;
    DepressionEyePainMessageFirstEight();
    DepressionEyePainMessagePsychiatric();
    assert cats[8] == PsychiatricSymptoms;
    ParseFromStep(m, cats, 8);
    var prev := ParseFrom(m, cats[..8]);
    assert prev.0 + ["DEPRESSION"] == ["DEPRESSION"];
    assert prev.1 + [cats[8].name] == ["PsychiatricSymptoms"];
  }

  /** The ear, nose and throat category reports nothing. */
  lemma DepressionEyePainMessageFirstTen()
    ensures ParseFrom(DepressionEyePainMessage, AllSymptomEnums[..10]) == (["DEPRESSION"], ["PsychiatricSymptoms"])
  {
    DepressionEyePainMessageFirstNine();
    DepressionEyePainMessageEarNoseThroat();
    assert AllSymptomEnums[9] == EarNoseThroatSymptoms;
    ParseFromStep(DepressionEyePainMessage, AllSymptomEnums, 9);
  }

  /** The ocular category then reports EYE PAIN. */
  lemma DepressionEyePainMessageFirstEleven()
    ensures ParseFrom(DepressionEyePainMessage, AllSymptomEnums[..11]) == (["DEPRESSION", "EYE PAIN"], ["PsychiatricSymptoms", "OcularSymptoms"])
  {
    var m, cats := DepressionEyePainMessage, AllSymptomEnums;
    DepressionEyePainMessageFirstTen();
    DepressionEyePainMessageOcular();
    assert cats[10] == OcularSymptoms;
    ParseFromStep(m, cats, 10);
    var prev := ParseFrom(m, cats[..10]);
    assert prev.0 + ["EYE PAIN"] == ["DEPRESSION", "EYE PAIN"];
    assert prev.1 + [cats[10].name] == ["PsychiatricSymptoms", "OcularSymptoms"];
  }

  /** The second case of the tests: DEPRESSION and EYE PAIN, with their
      categories in scanning order. */
  lemma DepressionEyePainMessageParse()
    ensures Parse(DepressionEyePainMessage) == (["DEPRESSION", "EYE PAIN"], ["PsychiatricSymptoms", "OcularSymptoms"])
  {
    var m, cats := DepressionEyePainMessage, AllSymptomEnums;
    DepressionEyePainMessageFirstEleven();
    DepressionEyePainMessageEndocrine();
    assert cats[11] == EndocrineSymptoms;
    ParseFromStep(m, cats, 11);
    assert cats[..12] == cats;
  }
}
