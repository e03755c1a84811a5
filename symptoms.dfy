/** The static symptom taxonomy and the keyword matcher of
    backend/core/utils/symptoms.py: a message is scanned, category by
    category and label by label, for case-insensitive substrings. */
module Symptoms {

  type Label = string

  /** One `Symptoms` enum class: its `__name__` and its member values in
      declaration order. */
  datatype SymptomCategory = SymptomCategory(name: string, symptoms: seq<Label>)

  const GeneralSymptoms := SymptomCategory("GeneralSymptoms", [
    "FATIGUE", "FEVER", "CHILLS", "NIGHT SWEATS", "WEIGHT LOSS",
    "WEIGHT GAIN", "MALAISE", "WEAKNESS"
  ])

  const NeurologicalSymptoms := SymptomCategory("NeurologicalSymptoms", [
    "HEADACHE", "DIZZINESS", "SYNCOPE", "SEIZURES", "TREMOR", "NUMBNESS",
    "TINGLING", "MEMORY LOSS", "CONFUSION", "SLURRED SPEECH",
    "MUSCLE WEAKNESS", "LOSS OF COORDINATION"
  ])

  const CardiovascularSymptoms := SymptomCategory("CardiovascularSymptoms", [
    "CHEST PAIN", "PALPITATIONS", "SHORTNESS OF BREATH", "EDEMA", "CYANOSIS",
    "CLAUDICATION"
  ])

  const RespiratorySymptoms := SymptomCategory("RespiratorySymptoms", [
    "COUGH", "WHEEZING", "SHORTNESS OF BREATH", "HEMOPTYSIS",
    "SPUTUM PRODUCTION", "CHEST TIGHTNESS"
  ])

  const GastrointestinalSymptoms := SymptomCategory("GastrointestinalSymptoms", [
    "NAUSEA", "VOMITING", "ABDOMINAL PAIN", "DIARRHEA", "CONSTIPATION",
    "BLOATING", "HEARTBURN", "DIFFICULTY SWALLOWING", "RECTAL BLEEDING",
    "JAUNDICE"
  ])

  const GenitourinarySymptoms := SymptomCategory("GenitourinarySymptoms", [
    "DYSURIA", "URINARY FREQUENCY", "URINARY URGENCY", "INCONTINENCE",
    "HEMATURIA", "ERECTILE DYSFUNCTION", "PELVIC PAIN",
    "MENSTRUAL IRREGULARITIES", "VAGINAL DISCHARGE", "GENITAL ITCHING"
  ])

  const MusculoskeletalSymptoms := SymptomCategory("MusculoskeletalSymptoms", [
    "JOINT PAIN", "MUSCLE PAIN", "BACK PAIN", "STIFFNESS",
    "SWELLING OF JOINTS", "MUSCLE CRAMPS", "DECREASED RANGE OF MOTION"
  ])

  const DermatologicalSymptoms := SymptomCategory("DermatologicalSymptoms", [
    "RASH", "ITCHING", "DRY SKIN", "REDNESS", "BLISTERING", "ULCERS",
    "HAIR LOSS", "NAIL CHANGES"
  ])

  const PsychiatricSymptoms := SymptomCategory("PsychiatricSymptoms", [
    "ANXIETY", "DEPRESSION", "INSOMNIA", "HALLUCINATIONS", "DELUSIONS",
    "MOOD SWINGS", "IRRITABILITY", "SUICIDAL THOUGHTS"
  ])

  const EarNoseThroatSymptoms := SymptomCategory("EarNoseThroatSymptoms", [
    "SORE THROAT", "HOARSENESS", "NASAL CONGESTION", "RUNNY NOSE",
    "EAR PAIN", "HEARING LOSS", "TINNITUS", "LOSS OF SMELL"
  ])

  const OcularSymptoms := SymptomCategory("OcularSymptoms", [
    "BLURRED VISION", "DOUBLE VISION", "EYE PAIN", "RED EYE", "PHOTOPHOBIA",
    "VISUAL FIELD LOSS"
  ])

  const EndocrineSymptoms := SymptomCategory("EndocrineSymptoms", [
    "HEAT INTOLERANCE", "COLD INTOLERANCE", "EXCESSIVE THIRST",
    "EXCESSIVE HUNGER", "INCREASED URINATION"
  ])

  /** `all_symptom_enums`: the order in which categories are scanned. */
  const AllSymptomEnums: seq<SymptomCategory> := [
    GeneralSymptoms, NeurologicalSymptoms, CardiovascularSymptoms,
    RespiratorySymptoms, GastrointestinalSymptoms, GenitourinarySymptoms,
    MusculoskeletalSymptoms, DermatologicalSymptoms, PsychiatricSymptoms,
    EarNoseThroatSymptoms, OcularSymptoms, EndocrineSymptoms
  ]

  /** `get_symptoms`: the member values of a category, in declaration order. */
  function GetSymptoms(category: SymptomCategory): seq<Label> {
    category.symptoms
  }

  /** A canonical label: non-empty, upper-case ASCII letters and spaces. */
  predicate IsCanonicalLabel(l: Label) {
    l != [] && forall i :: 0 <= i < |l| ==> 'A' <= l[i] <= 'Z' || l[i] == ' '
  }

  /** No label is listed twice. */
  predicate Distinct(labels: seq<Label>) {
    forall i, j :: 0 <= i < j < |labels| ==> labels[i] != labels[j]
  }

  predicate WellFormedLabels(labels: seq<Label>) {
    labels != [] && Distinct(labels) && forall i :: 0 <= i < |labels| ==> IsCanonicalLabel(labels[i])
  }

  /** The taxonomy has twelve categories with distinct names, and each lists
      distinct canonical labels. The label facts are checked one category
      at a time, which keeps each proof small. */
  lemma TaxonomyWellFormed()
    ensures |AllSymptomEnums| == 12
    ensures forall k :: 0 <= k < |AllSymptomEnums| ==> WellFormedLabels(GetSymptoms(AllSymptomEnums[k]))
    ensures forall k, l :: 0 <= k < l < |AllSymptomEnums| ==> AllSymptomEnums[k].name != AllSymptomEnums[l].name
  {
    GeneralSymptomsWellFormed();
    NeurologicalSymptomsWellFormed();
    CardiovascularSymptomsWellFormed();
    RespiratorySymptomsWellFormed();
    GastrointestinalSymptomsWellFormed();
    GenitourinarySymptomsWellFormed();
    MusculoskeletalSymptomsWellFormed();
    DermatologicalSymptomsWellFormed();
    PsychiatricSymptomsWellFormed();
    EarNoseThroatSymptomsWellFormed();
    OcularSymptomsWellFormed();
    EndocrineSymptomsWellFormed();
  }

  lemma GeneralSymptomsWellFormed()
    ensures Distinct(GeneralSymptoms.symptoms)
    ensures forall i :: 0 <= i < |GeneralSymptoms.symptoms| ==> IsCanonicalLabel(GeneralSymptoms.symptoms[i])
  {
    var labels := GeneralSymptoms.symptoms;
    forall i, j | 0 <= i < j < |labels| ensures labels[i] != labels[j] {
      if i < 4 {} else {}
    }
    forall i | 0 <= i < |labels| ensures IsCanonicalLabel(labels[i]) {
      if i < 3 {} else if i < 6 {} else {}
    }
  }

  lemma NeurologicalSymptomsWellFormed()
    ensures Distinct(NeurologicalSymptoms.symptoms)
    ensures forall i :: 0 <= i < |NeurologicalSymptoms.symptoms| ==> IsCanonicalLabel(NeurologicalSymptoms.symptoms[i])
  {
    var labels := NeurologicalSymptoms.symptoms;
    forall i, j | 0 <= i < j < |labels| ensures labels[i] != labels[j] {
      if i < 6 {} else {}
    }
    forall i | 0 <= i < |labels| ensures IsCanonicalLabel(labels[i]) {
      if i < 4 {} else if i < 9 {} else {}
    }
  }

  lemma CardiovascularSymptomsWellFormed()
    ensures Distinct(CardiovascularSymptoms.symptoms)
    ensures forall i :: 0 <= i < |CardiovascularSymptoms.symptoms| ==> IsCanonicalLabel(CardiovascularSymptoms.symptoms[i])
  {
    var labels := CardiovascularSymptoms.symptoms;
    forall i, j | 0 <= i < j < |labels| ensures labels[i] != labels[j] {
      if i < 3 {} else {}
    }
    forall i | 0 <= i < |labels| ensures IsCanonicalLabel(labels[i]) {
      if i < 2 {} else if i < 5 {} else {}
    }
  }

  lemma RespiratorySymptomsWellFormed()
    ensures Distinct(RespiratorySymptoms.symptoms)
    ensures forall i :: 0 <= i < |RespiratorySymptoms.symptoms| ==> IsCanonicalLabel(RespiratorySymptoms.symptoms[i])
  {
    var labels := RespiratorySymptoms.symptoms;
    forall i, j | 0 <= i < j < |labels| ensures labels[i] != labels[j] {
      if i < 3 {} else {}
    }
    forall i | 0 <= i < |labels| ensures IsCanonicalLabel(labels[i]) {
      if i < 2 {} else if i < 5 {} else {}
    }
  }

  lemma GastrointestinalSymptomsWellFormed()
    ensures Distinct(GastrointestinalSymptoms.symptoms)
    ensures forall i :: 0 <= i < |GastrointestinalSymptoms.symptoms| ==> IsCanonicalLabel(GastrointestinalSymptoms.symptoms[i])
  {
    var labels := GastrointestinalSymptoms.symptoms;
    forall i, j | 0 <= i < j < |labels| ensures labels[i] != labels[j] {
      if i < 5 {} else {}
    }
    forall i | 0 <= i < |labels| ensures IsCanonicalLabel(labels[i]) {
      if i < 4 {} else if i < 8 {} else {}
    }
  }

  lemma GenitourinarySymptomsWellFormed()
    ensures Distinct(GenitourinarySymptoms.symptoms)
    ensures forall i :: 0 <= i < |GenitourinarySymptoms.symptoms| ==> IsCanonicalLabel(GenitourinarySymptoms.symptoms[i])
  {
    var labels := GenitourinarySymptoms.symptoms;
    forall i, j | 0 <= i < j < |labels| ensures labels[i] != labels[j] {
      if i < 5 {} else {}
    }
    forall i | 0 <= i < |labels| ensures IsCanonicalLabel(labels[i]) {
      if i < 4 {} else if i < 8 {} else {}
    }
  }

  lemma MusculoskeletalSymptomsWellFormed()
    ensures Distinct(MusculoskeletalSymptoms.symptoms)
    ensures forall i :: 0 <= i < |MusculoskeletalSymptoms.symptoms| ==> IsCanonicalLabel(MusculoskeletalSymptoms.symptoms[i])
  {
    var labels := MusculoskeletalSymptoms.symptoms;
    forall i, j | 0 <= i < j < |labels| ensures labels[i] != labels[j] {
      if i < 3 {} else {}
    }
    forall i | 0 <= i < |labels| ensures IsCanonicalLabel(labels[i]) {
      if i < 3 {} else if i < 6 {} else {}
    }
  }

  lemma DermatologicalSymptomsWellFormed()
    ensures Distinct(DermatologicalSymptoms.symptoms)
    ensures forall i :: 0 <= i < |DermatologicalSymptoms.symptoms| ==> IsCanonicalLabel(DermatologicalSymptoms.symptoms[i])
  {
    var labels := DermatologicalSymptoms.symptoms;
    forall i, j | 0 <= i < j < |labels| ensures labels[i] != labels[j] {
      if i < 4 {} else {}
    }
    forall i | 0 <= i < |labels| ensures IsCanonicalLabel(labels[i]) {
      if i < 3 {} else if i < 6 {} else {}
    }
  }

  lemma PsychiatricSymptomsWellFormed()
    ensures Distinct(PsychiatricSymptoms.symptoms)
    ensures forall i :: 0 <= i < |PsychiatricSymptoms.symptoms| ==> IsCanonicalLabel(PsychiatricSymptoms.symptoms[i])
  {
    var labels := PsychiatricSymptoms.symptoms;
    forall i, j | 0 <= i < j < |labels| ensures labels[i] != labels[j] {
      if i < 4 {} else {}
    }
    forall i | 0 <= i < |labels| ensures IsCanonicalLabel(labels[i]) {
      if i < 3 {} else if i < 6 {} else {}
    }
  }

  lemma EarNoseThroatSymptomsWellFormed()
    ensures Distinct(EarNoseThroatSymptoms.symptoms)
    ensures forall i :: 0 <= i < |EarNoseThroatSymptoms.symptoms| ==> IsCanonicalLabel(EarNoseThroatSymptoms.symptoms[i])
  {
    var labels := EarNoseThroatSymptoms.symptoms;
    forall i, j | 0 <= i < j < |labels| ensures labels[i] != labels[j] {
      if i < 4 {} else {}
    }
    forall i | 0 <= i < |labels| ensures IsCanonicalLabel(labels[i]) {
      if i < 3 {} else if i < 6 {} else {}
    }
  }

  lemma OcularSymptomsWellFormed()
    ensures Distinct(OcularSymptoms.symptoms)
    ensures forall i :: 0 <= i < |OcularSymptoms.symptoms| ==> IsCanonicalLabel(OcularSymptoms.symptoms[i])
  {
    var labels := OcularSymptoms.symptoms;
    forall i, j | 0 <= i < j < |labels| ensures labels[i] != labels[j] {
      if i < 3 {} else {}
    }
    forall i | 0 <= i < |labels| ensures IsCanonicalLabel(labels[i]) {
      if i < 2 {} else if i < 5 {} else {}
    }
  }

  lemma EndocrineSymptomsWellFormed()
    ensures Distinct(EndocrineSymptoms.symptoms)
    ensures forall i :: 0 <= i < |EndocrineSymptoms.symptoms| ==> IsCanonicalLabel(EndocrineSymptoms.symptoms[i])
  {
    var labels := EndocrineSymptoms.symptoms;
    forall i, j | 0 <= i < j < |labels| ensures labels[i] != labels[j] {
      if i < 2 {} else {}
    }
    forall i | 0 <= i < |labels| ensures IsCanonicalLabel(labels[i]) {
      if i < 2 {} else if i < 4 {} else {}
    }
  }

  // ---------------------------------------------------------------------
  // Matching
  // ---------------------------------------------------------------------

  /** `str.lower()` restricted to ASCII letters. */
  function LowerChar(c: char): char {
    if 'A' <= c <= 'Z' then (c as int + 32) as char else c
  }

  function Lower(s: string): string {
    seq(|s|, i requires 0 <= i < |s| => LowerChar(s[i]))
  }

  /** `p` occurs in `s` starting at position `i`. */
  predicate OccursAt(p: string, s: string, i: int) {
    0 <= i && i + |p| <= |s| && s[i..i + |p|] == p
  }

  /** Python's `p in s` on strings. */
  predicate IsSubstring(p: string, s: string) {
    exists i | 0 <= i <= |s| - |p| :: OccursAt(p, s, i)
  }

  /** The test of symptoms.py:185: the lower-cased label is a substring of
      the lower-cased message. */
  predicate Mentions(message: string, symptom: Label) {
    IsSubstring(Lower(symptom), Lower(message))
  }

  /** The labels of `symptoms` that the message mentions, in input order:
      what `symptoms_in_message` returns. */
  function MatchedSymptoms(message: string, symptoms: seq<Label>): (found: seq<Label>)
    ensures |found| <= |symptoms|
    ensures forall x :: x in found <==> x in symptoms && Mentions(message, x)
  {
    if symptoms == [] then []
    else
      var last := symptoms[|symptoms| - 1];
      MatchedSymptoms(message, symptoms[..|symptoms| - 1])
        + (if Mentions(message, last) then [last] else [])
  }

  /** The positions of `symptoms` whose label the message mentions, in
      increasing order. */
  function MentionedPositions(message: string, symptoms: seq<Label>): (idx: seq<nat>)
    ensures forall k :: 0 <= k < |idx| ==> idx[k] < |symptoms|
    ensures forall k, l :: 0 <= k < l < |idx| ==> idx[k] < idx[l]
    ensures forall i :: 0 <= i < |symptoms| ==> (i in idx <==> Mentions(message, symptoms[i]))
  {
    if symptoms == [] then []
    else
      MentionedPositions(message, symptoms[..|symptoms| - 1])
        + (if Mentions(message, symptoms[|symptoms| - 1]) then [|symptoms| - 1] else [])
  }

  /** `symptoms_in_message` returns the subsequence of its input taken at
      exactly the mentioned positions: in input order, no label dropped,
      none added, none repeated beyond the input. */
  lemma {:induction false} MatchedIsMentionedSubsequence(message: string, symptoms: seq<Label>)
    ensures var found, idx := MatchedSymptoms(message, symptoms), MentionedPositions(message, symptoms);
      |found| == |idx| && forall k :: 0 <= k < |idx| ==> found[k] == symptoms[idx[k]]
  {
    if symptoms != [] {
      var init := symptoms[..|symptoms| - 1];
      MatchedIsMentionedSubsequence(message, init);
    }
  }

  /** Matching distributes over concatenation of label lists. */
  lemma {:induction false} MatchedAppend(message: string, a: seq<Label>, b: seq<Label>)
    ensures MatchedSymptoms(message, a + b) == MatchedSymptoms(message, a) + MatchedSymptoms(message, b)
    decreases |b|
  {
    if b == [] {
      assert a + b == a;
    } else {
      assert (a + b)[..|a + b| - 1] == a + b[..|b| - 1];
      MatchedAppend(message, a, b[..|b| - 1]);
    }
  }

  /** Matching depends on the message only through its lower-case form, so
      changing the letter case of the message changes nothing. */
  lemma {:induction false} MatchedCaseInsensitive(m1: string, m2: string, symptoms: seq<Label>)
    requires Lower(m1) == Lower(m2)
    ensures MatchedSymptoms(m1, symptoms) == MatchedSymptoms(m2, symptoms)
  {
    if symptoms != [] {
      MatchedCaseInsensitive(m1, m2, symptoms[..|symptoms| - 1]);
    }
  }

  /** Substring containment is transitive. */
  lemma SubstringTransitive(p: string, q: string, s: string)
    requires IsSubstring(p, q) && IsSubstring(q, s)
    ensures IsSubstring(p, s)
  {
    var i :| 0 <= i <= |q| - |p| && OccursAt(p, q, i);
    var j :| 0 <= j <= |s| - |q| && OccursAt(q, s, j);
    assert s[j..j + |q|] == q;
    forall k | 0 <= k < |p| ensures s[j + i + k] == p[k] {
      assert s[j + (i + k)] == q[i + k];
    }
    assert s[j + i..j + i + |p|] == p;
    assert OccursAt(p, s, j + i);
  }

  /** Matching is by substring, not by word: a message that mentions
      GENITAL ITCHING also mentions ITCHING. */
  lemma GenitalItchingMentionsItching(message: string)
    requires Mentions(message, "GENITAL ITCHING")
    ensures Mentions(message, "ITCHING")
  {
    var whole, part := Lower("GENITAL ITCHING"), Lower("ITCHING");
    assert whole == "genital itching" && part == "itching";
    assert OccursAt(part, whole, 8);
    SubstringTransitive(part, whole, Lower(message));
  }

  // ---------------------------------------------------------------------
  // Parsing a message
  // ---------------------------------------------------------------------

  /** The outcome of scanning the categories `cats` in order: the matched
      labels of every category, concatenated without deduplication, and the
      name of each category with at least one match. */
  function ParseFrom(message: string, cats: seq<SymptomCategory>): (r: (seq<Label>, seq<string>))
    ensures |r.1| <= |cats| && |r.1| <= |r.0|
  {
    if cats == [] then ([], [])
    else
      var prev := ParseFrom(message, cats[..|cats| - 1]);
      var last := cats[|cats| - 1];
      var hits := MatchedSymptoms(message, GetSymptoms(last));
      if hits != [] then (prev.0 + hits, prev.1 + [last.name]) else prev
  }

  /** What `parse_for_symptoms` returns. */
  function Parse(message: string): (r: (seq<Label>, seq<string>))
    ensures |r.1| <= 12 && |r.1| <= |r.0|
  {
    ParseFrom(message, AllSymptomEnums)
  }

  /** A name is reported exactly when a scanned category of that name has at
      least one matching label. */
  lemma {:induction false} ParseFromCategories(message: string, cats: seq<SymptomCategory>, name: string)
    ensures name in ParseFrom(message, cats).1
        <==> exists k :: 0 <= k < |cats| && cats[k].name == name && MatchedSymptoms(message, GetSymptoms(cats[k])) != []
  {
    if cats != [] {
      var init := cats[..|cats| - 1];
      ParseFromCategories(message, init, name);
      assert forall k :: 0 <= k < |init| ==> init[k] == cats[k];
    }
  }

  /** A label is reported exactly when a scanned category lists it and the
      message mentions it; a reported label is then listed by a reported
      category. */
  lemma {:induction false} ParseFromSymptoms(message: string, cats: seq<SymptomCategory>, x: Label)
    ensures x in ParseFrom(message, cats).0
        <==> exists k :: 0 <= k < |cats| && x in GetSymptoms(cats[k]) && Mentions(message, x)
    ensures x in ParseFrom(message, cats).0
        ==> exists k :: 0 <= k < |cats| && cats[k].name in ParseFrom(message, cats).1 && x in GetSymptoms(cats[k])
  {
    if cats != [] {
      var init, last := cats[..|cats| - 1], cats[|cats| - 1];
      ParseFromSymptoms(message, init, x);
      assert forall k :: 0 <= k < |init| ==> init[k] == cats[k];
      if x in ParseFrom(message, cats).0 {
        if x in ParseFrom(message, init).0 {
          var k :| 0 <= k < |init| && init[k].name in ParseFrom(message, init).1 && x in GetSymptoms(init[k]);
          assert cats[k].name in ParseFrom(message, cats).1;
        } else {
          assert x in MatchedSymptoms(message, GetSymptoms(last));
          assert cats[|cats| - 1].name in ParseFrom(message, cats).1;
        }
      }
    }
  }

  /** The positions of the scanned categories with at least one match, in
      increasing order. */
  function ReportedPositions(message: string, cats: seq<SymptomCategory>): (idx: seq<nat>)
    ensures forall i :: 0 <= i < |idx| ==> idx[i] < |cats|
    ensures forall i, j :: 0 <= i < j < |idx| ==> idx[i] < idx[j]
    ensures forall k :: 0 <= k < |cats| ==> (k in idx <==> MatchedSymptoms(message, GetSymptoms(cats[k])) != [])
  {
    if cats == [] then []
    else
      ReportedPositions(message, cats[..|cats| - 1])
        + (if MatchedSymptoms(message, GetSymptoms(cats[|cats| - 1])) != [] then [|cats| - 1] else [])
  }

  /** The reported names are the names of the categories at the reported
      positions, in scan order. */
  lemma {:induction false} ParseFromAtPositions(message: string, cats: seq<SymptomCategory>)
    ensures var names, idx := ParseFrom(message, cats).1, ReportedPositions(message, cats);
      |names| == |idx| && forall i :: 0 <= i < |idx| ==> names[i] == cats[idx[i]].name
  {
    if cats != [] {
      ParseFromAtPositions(message, cats[..|cats| - 1]);
    }
  }

  /** Each category with a match is reported exactly once, and categories
      come out in `all_symptom_enums` order. */
  lemma ParseCategoriesOnceInOrder(message: string)
    ensures var names, idx := Parse(message).1, ReportedPositions(message, AllSymptomEnums);
      && |names| == |idx|
      && (forall i :: 0 <= i < |idx| ==> names[i] == AllSymptomEnums[idx[i]].name)
      && (forall i, j :: 0 <= i < j < |names| ==> names[i] != names[j])
  {
    TaxonomyWellFormed();
    ParseFromAtPositions(message, AllSymptomEnums);
  }

  /** The number of scanned categories that list `x`. */
  function Listings(cats: seq<SymptomCategory>, x: Label): nat {
    if cats == [] then 0
    else Listings(cats[..|cats| - 1], x) + (if x in GetSymptoms(cats[|cats| - 1]) then 1 else 0)
  }

  /** In a list without repeats, a mentioned label is matched once if the
      list has it, and not at all otherwise. */
  lemma {:induction false} MatchedCountsOnce(message: string, symptoms: seq<Label>, x: Label)
    requires Distinct(symptoms)
    requires Mentions(message, x)
    ensures multiset(MatchedSymptoms(message, symptoms))[x] == if x in symptoms then 1 else 0
  {
    if symptoms != [] {
      var init, last := symptoms[..|symptoms| - 1], symptoms[|symptoms| - 1];
      assert symptoms == init + [last];
      MatchedCountsOnce(message, init, x);
    }
  }

  /** No deduplication across categories: a mentioned label is reported
      once for every scanned category that lists it. */
  lemma {:induction false} ParseFromCount(message: string, cats: seq<SymptomCategory>, x: Label)
    requires forall k :: 0 <= k < |cats| ==> Distinct(GetSymptoms(cats[k]))
    requires Mentions(message, x)
    ensures multiset(ParseFrom(message, cats).0)[x] == Listings(cats, x)
  {
    if cats != [] {
      var n := |cats| - 1;
      var init, last := cats[..n], cats[n];
      assert forall k :: 0 <= k < |init| ==> init[k] == cats[k];
      ParseFromCount(message, init, x);
      MatchedCountsOnce(message, GetSymptoms(last), x);
      var hits := MatchedSymptoms(message, GetSymptoms(last));
      if hits != [] {
        assert ParseFrom(message, cats).0 == ParseFrom(message, init).0 + hits;
      } else {
        assert ParseFrom(message, cats).0 == ParseFrom(message, init).0;
      }
    }
  }

  /** Changing the letter case of the message does not change the result. */
  lemma {:induction false} ParseFromCaseInsensitive(m1: string, m2: string, cats: seq<SymptomCategory>)
    requires Lower(m1) == Lower(m2)
    ensures ParseFrom(m1, cats) == ParseFrom(m2, cats)
  {
    if cats != [] {
      ParseFromCaseInsensitive(m1, m2, cats[..|cats| - 1]);
      MatchedCaseInsensitive(m1, m2, GetSymptoms(cats[|cats| - 1]));
    }
  }
  /** Listings add up over concatenation. */
  lemma {:induction false} ListingsAppend(a: seq<SymptomCategory>, b: seq<SymptomCategory>, x: Label)
    ensures Listings(a + b, x) == Listings(a, x) + Listings(b, x)
    decreases |b|
  {
    if b == [] {
      assert a + b == a;
    } else {
      assert (a + b)[..|a + b| - 1] == a + b[..|b| - 1];
      ListingsAppend(a, b[..|b| - 1], x);
    }
  }

  lemma ListingsOne(c: SymptomCategory, x: Label)
    ensures Listings([c], x) == if x in GetSymptoms(c) then 1 else 0
  {
    assert [c][..0] == [];
  }

  /** Only the cardiovascular and the respiratory category list
      SHORTNESS OF BREATH (symptoms.py:37 and symptoms.py:46); the fact is
      split in three to keep each proof small. */
  lemma ShortnessOfBreathListedInFirst()
    ensures "SHORTNESS OF BREATH" !in GeneralSymptoms.symptoms
    ensures "SHORTNESS OF BREATH" !in NeurologicalSymptoms.symptoms
    ensures "SHORTNESS OF BREATH" in CardiovascularSymptoms.symptoms
    ensures "SHORTNESS OF BREATH" in RespiratorySymptoms.symptoms
  {
  }

  lemma ShortnessOfBreathListedInMiddle()
    ensures "SHORTNESS OF BREATH" !in GastrointestinalSymptoms.symptoms
    ensures "SHORTNESS OF BREATH" !in GenitourinarySymptoms.symptoms
    ensures "SHORTNESS OF BREATH" !in MusculoskeletalSymptoms.symptoms
    ensures "SHORTNESS OF BREATH" !in DermatologicalSymptoms.symptoms
  {
  }

  lemma ShortnessOfBreathListedInLast()
    ensures "SHORTNESS OF BREATH" !in PsychiatricSymptoms.symptoms
    ensures "SHORTNESS OF BREATH" !in EarNoseThroatSymptoms.symptoms
    ensures "SHORTNESS OF BREATH" !in OcularSymptoms.symptoms
    ensures "SHORTNESS OF BREATH" !in EndocrineSymptoms.symptoms
  {
  }

  /** Hence exactly two categories list it. */
  lemma ShortnessOfBreathListedTwice()
    ensures Listings(AllSymptomEnums, "SHORTNESS OF BREATH") == 2
  {
    var x := "SHORTNESS OF BREATH";
    ShortnessOfBreathListedInFirst();
    ShortnessOfBreathListedInMiddle();
    ShortnessOfBreathListedInLast();
    ListingsOne(GeneralSymptoms, x);
    ListingsOne(NeurologicalSymptoms, x);
    ListingsOne(CardiovascularSymptoms, x);
    ListingsOne(RespiratorySymptoms, x);
    ListingsOne(GastrointestinalSymptoms, x);
    ListingsOne(GenitourinarySymptoms, x);
    ListingsOne(MusculoskeletalSymptoms, x);
    ListingsOne(DermatologicalSymptoms, x);
    ListingsOne(PsychiatricSymptoms, x);
    ListingsOne(EarNoseThroatSymptoms, x);
    ListingsOne(OcularSymptoms, x);
    ListingsOne(EndocrineSymptoms, x);
    assert AllSymptomEnums == [GeneralSymptoms] + [NeurologicalSymptoms] + [CardiovascularSymptoms] + [RespiratorySymptoms] + [GastrointestinalSymptoms] + [GenitourinarySymptoms] + [MusculoskeletalSymptoms] + [DermatologicalSymptoms] + [PsychiatricSymptoms] + [EarNoseThroatSymptoms] + [OcularSymptoms] + [EndocrineSymptoms];
    ListingsAppend([GeneralSymptoms], [NeurologicalSymptoms], x);
    ListingsAppend([GeneralSymptoms] + [NeurologicalSymptoms], [CardiovascularSymptoms], x);
    ListingsAppend([GeneralSymptoms] + [NeurologicalSymptoms] + [CardiovascularSymptoms], [RespiratorySymptoms], x);
    ListingsAppend([GeneralSymptoms] + [NeurologicalSymptoms] + [CardiovascularSymptoms] + [RespiratorySymptoms], [GastrointestinalSymptoms], x);
    ListingsAppend([GeneralSymptoms] + [NeurologicalSymptoms] + [CardiovascularSymptoms] + [RespiratorySymptoms] + [GastrointestinalSymptoms], [GenitourinarySymptoms], x);
    ListingsAppend([GeneralSymptoms] + [NeurologicalSymptoms] + [CardiovascularSymptoms] + [RespiratorySymptoms] + [GastrointestinalSymptoms] + [GenitourinarySymptoms], [MusculoskeletalSymptoms], x);
    ListingsAppend([GeneralSymptoms] + [NeurologicalSymptoms] + [CardiovascularSymptoms] + [RespiratorySymptoms] + [GastrointestinalSymptoms] + [GenitourinarySymptoms] + [MusculoskeletalSymptoms], [DermatologicalSymptoms], x);
    ListingsAppend([GeneralSymptoms] + [NeurologicalSymptoms] + [CardiovascularSymptoms] + [RespiratorySymptoms] + [GastrointestinalSymptoms] + [GenitourinarySymptoms] + [MusculoskeletalSymptoms] + [DermatologicalSymptoms], [PsychiatricSymptoms], x);
    ListingsAppend([GeneralSymptoms] + [NeurologicalSymptoms] + [CardiovascularSymptoms] + [RespiratorySymptoms] + [GastrointestinalSymptoms] + [GenitourinarySymptoms] + [MusculoskeletalSymptoms] + [DermatologicalSymptoms] + [PsychiatricSymptoms], [EarNoseThroatSymptoms], x);
    ListingsAppend([GeneralSymptoms] + [NeurologicalSymptoms] + [CardiovascularSymptoms] + [RespiratorySymptoms] + [GastrointestinalSymptoms] + [GenitourinarySymptoms] + [MusculoskeletalSymptoms] + [DermatologicalSymptoms] + [PsychiatricSymptoms] + [EarNoseThroatSymptoms], [OcularSymptoms], x);
    ListingsAppend([GeneralSymptoms] + [NeurologicalSymptoms] + [CardiovascularSymptoms] + [RespiratorySymptoms] + [GastrointestinalSymptoms] + [GenitourinarySymptoms] + [MusculoskeletalSymptoms] + [DermatologicalSymptoms] + [PsychiatricSymptoms] + [EarNoseThroatSymptoms] + [OcularSymptoms], [EndocrineSymptoms], x);
  }

  /** SHORTNESS OF BREATH is listed by two categories, so a message that
      mentions it gets the label twice and both category names. */
  lemma ShortnessOfBreathReportedTwice(message: string)
    requires Mentions(message, "SHORTNESS OF BREATH")
    ensures multiset(Parse(message).0)["SHORTNESS OF BREATH"] == 2
    ensures "CardiovascularSymptoms" in Parse(message).1
    ensures "RespiratorySymptoms" in Parse(message).1
  {
    var x := "SHORTNESS OF BREATH";
    TaxonomyWellFormed();
    ParseFromCount(message, AllSymptomEnums, x);
    ShortnessOfBreathListedTwice();
    assert AllSymptomEnums[2] == CardiovascularSymptoms && AllSymptomEnums[3] == RespiratorySymptoms;
    ParseFromCategories(message, AllSymptomEnums, "CardiovascularSymptoms");
    ParseFromCategories(message, AllSymptomEnums, "RespiratorySymptoms");
  }

  /** A message that mentions GENITAL ITCHING is also reported with ITCHING
      and with the dermatological category. */
  lemma GenitalItchingAlsoReportsItching(message: string)
    requires Mentions(message, "GENITAL ITCHING")
    ensures "GENITAL ITCHING" in Parse(message).0 && "ITCHING" in Parse(message).0
    ensures "GenitourinarySymptoms" in Parse(message).1
    ensures "DermatologicalSymptoms" in Parse(message).1
  {
    GenitalItchingMentionsItching(message);
    assert AllSymptomEnums[5] == GenitourinarySymptoms && AllSymptomEnums[7] == DermatologicalSymptoms;
    ParseFromSymptoms(message, AllSymptomEnums, "GENITAL ITCHING");
    ParseFromSymptoms(message, AllSymptomEnums, "ITCHING");
    ParseFromCategories(message, AllSymptomEnums, "GenitourinarySymptoms");
    ParseFromCategories(message, AllSymptomEnums, "DermatologicalSymptoms");
  }

  // ---------------------------------------------------------------------
  // The parser's loops
  // ---------------------------------------------------------------------

  /** `symptoms_in_message`: one pass over the labels, skipping those the
      message does not mention. */
  method SymptomsInMessage(message: string, symptoms: seq<Label>) returns (found: seq<Label>)
    ensures found == MatchedSymptoms(message, symptoms)
  {
    found := [];
    for i := 0 to |symptoms|
      invariant found == MatchedSymptoms(message, symptoms[..i])
    {
      assert symptoms[..i + 1][..i] == symptoms[..i];
      if !Mentions(message, symptoms[i]) {
        continue;
      }
      found := found + [symptoms[i]];
    }
    assert symptoms[..|symptoms|] == symptoms;
  }

  /** `parse_for_symptoms`: the categories are visited in
      `all_symptom_enums` order; a category with matches extends the label
      list and appends its name. */
  method ParseForSymptoms(message: string) returns (foundSymptoms: seq<Label>, foundCategories: seq<string>)
    ensures (foundSymptoms, foundCategories) == Parse(message)
  {
    foundSymptoms, foundCategories := [], [];
    for i := 0 to |AllSymptomEnums|
      invariant (foundSymptoms, foundCategories) == ParseFrom(message, AllSymptomEnums[..i])
    {
      var category := AllSymptomEnums[i];
      assert AllSymptomEnums[..i + 1][..i] == AllSymptomEnums[..i];
      var matched := SymptomsInMessage(message, GetSymptoms(category));
      if matched != [] {
        foundSymptoms := foundSymptoms + matched;
        foundCategories := foundCategories + [category.name];
      }
    }
    assert AllSymptomEnums[..|AllSymptomEnums|] == AllSymptomEnums;
  }
}
