/** The synthetic data generator: symptoms and diseases numbered after a base
    list, annotated free-text complaints, and per-case symptom/disease
    relationship rows. Every random draw is an arbitrary choice among the
    values the draw allows, so each contract holds for every outcome of the
    random number generator. */
module DataGenerator {
  import opened Results
  import opened Builtins
  import opened Records
  import DataLoader

  // ---------------------------------------------------------------------------
  // Fixed vocabularies
  // ---------------------------------------------------------------------------

  const SymptomCategories: seq<string> :=
    ["General", "Respiratory", "Cardiovascular", "Gastrointestinal", "Neurological",
     "Musculoskeletal", "Dermatological", "Urological", "Psychological", "Endocrine"]

  const BodyParts: seq<string> :=
    ["Head", "Neck", "Chest", "Abdomen", "Back", "Arms", "Legs", "Joints", "Skin", "Systemic"]

  const SeverityScale: string := "mild,moderate,severe"

  const SymptomDurations: seq<string> := ["1-3 days", "3-7 days", "7-14 days", "2-4 weeks", "variable"]

  const DiseaseCategories: seq<string> :=
    ["Infectious", "Cardiovascular", "Respiratory", "Gastrointestinal", "Neurological",
     "Musculoskeletal", "Dermatological", "Urological", "Psychological", "Endocrine",
     "Autoimmune", "Oncological"]

  const Prevalences: seq<string> := ["rare", "low", "moderate", "high", "seasonal"]

  const Severities: seq<string> := ["mild", "moderate", "severe", "critical"]

  const TextDurations: seq<string> :=
    ["a few hours", "a day", "two days", "three days", "a week", "two weeks", "a month", "several months"]

  const CaseSeverities: seq<string> := ["mild", "moderate", "severe"]

  const CaseDurations: seq<string> := ["hours", "days", "weeks", "months"]

  /** The first word of a generated symptom name, by category. */
  function SymptomNamePrefixes(category: string): (names: seq<string>)
    ensures |names| == 4
  {
    if category == "General" then ["Generalized", "Systemic", "Chronic", "Acute"]
    else if category == "Respiratory" then ["Wheezing", "Congested", "Labored", "Restricted"]
    else if category == "Cardiovascular" then ["Rapid", "Irregular", "Weak", "Strong"]
    else if category == "Gastrointestinal" then ["Upset", "Bloated", "Irritated", "Inflamed"]
    else if category == "Neurological" then ["Tingling", "Numb", "Sensitive", "Painful"]
    else if category == "Musculoskeletal" then ["Stiff", "Sore", "Weak", "Cramping"]
    else if category == "Dermatological" then ["Itchy", "Red", "Dry", "Flaky"]
    else if category == "Urological" then ["Frequent", "Painful", "Difficult", "Urgent"]
    else if category == "Psychological" then ["Anxious", "Depressed", "Confused", "Irritable"]
    else ["Excessive", "Insufficient", "Irregular", "Abnormal"]
  }

  /** The rest of a generated symptom name, by category. */
  function SymptomNameSuffixes(category: string): (names: seq<string>)
    ensures |names| == 4
  {
    if category == "General" then ["discomfort", "malaise", "weakness", "pain"]
    else if category == "Respiratory" then ["breathing", "respiration", "cough", "congestion"]
    else if category == "Cardiovascular" then ["heartbeat", "pulse", "circulation", "pressure"]
    else if category == "Gastrointestinal" then ["stomach", "digestion", "bowel movement", "appetite"]
    else if category == "Neurological" then ["sensation", "coordination", "balance", "consciousness"]
    else if category == "Musculoskeletal" then ["movement", "flexibility", "strength", "posture"]
    else if category == "Dermatological" then ["skin", "rash", "lesion", "discoloration"]
    else if category == "Urological" then ["urination", "bladder control", "kidney function", "hydration"]
    else if category == "Psychological" then ["mood", "thought process", "behavior", "sleep pattern"]
    else ["metabolism", "hormone levels", "energy", "temperature regulation"]
  }

  /** The first word of a generated disease name, by category. */
  function DiseaseNamePrefixes(category: string): (names: seq<string>)
    ensures |names| == 4
  {
    if category == "Infectious" then ["Viral", "Bacterial", "Fungal", "Parasitic"]
    else if category == "Cardiovascular" then ["Acute", "Chronic", "Congestive", "Ischemic"]
    else if category == "Respiratory" then ["Obstructive", "Restrictive", "Inflammatory", "Infectious"]
    else if category == "Gastrointestinal" then ["Inflammatory", "Obstructive", "Malabsorptive", "Infectious"]
    else if category == "Neurological" then ["Degenerative", "Inflammatory", "Vascular", "Traumatic"]
    else if category == "Musculoskeletal" then ["Inflammatory", "Degenerative", "Traumatic", "Metabolic"]
    else if category == "Dermatological" then ["Inflammatory", "Infectious", "Allergic", "Autoimmune"]
    else if category == "Urological" then ["Obstructive", "Infectious", "Inflammatory", "Neoplastic"]
    else if category == "Psychological" then ["Affective", "Anxiety", "Psychotic", "Cognitive"]
    else if category == "Endocrine" then ["Hyper-", "Hypo-", "Autoimmune", "Neoplastic"]
    else if category == "Autoimmune" then ["Systemic", "Organ-specific", "Mixed", "Undifferentiated"]
    else ["Metastatic", "Primary", "Benign", "Malignant"]
  }

  /** The rest of a generated disease name, by category. */
  function DiseaseNameSuffixes(category: string): (names: seq<string>)
    ensures |names| == 4
  {
    if category == "Infectious" then ["infection", "disease", "syndrome", "fever"]
    else if category == "Cardiovascular" then ["heart disease", "cardiomyopathy", "arrhythmia", "vascular disease"]
    else if category == "Respiratory" then ["pneumonia", "disease", "syndrome", "failure"]
    else if category == "Gastrointestinal" then ["disease", "syndrome", "disorder", "inflammation"]
    else if category == "Neurological" then ["neuropathy", "disorder", "disease", "syndrome"]
    else if category == "Musculoskeletal" then ["arthritis", "myopathy", "disease", "syndrome"]
    else if category == "Dermatological" then ["dermatitis", "disease", "condition", "disorder"]
    else if category == "Urological" then ["nephropathy", "disease", "syndrome", "failure"]
    else if category == "Psychological" then ["disorder", "syndrome", "condition", "disease"]
    else if category == "Endocrine" then ["disorder", "disease", "syndrome", "dysfunction"]
    else if category == "Autoimmune" then ["disease", "syndrome", "disorder", "condition"]
    else ["cancer", "tumor", "neoplasm", "carcinoma"]
  }

  /** The ICD chapter letter of a generated disease: fixed for five categories,
      R for every other. */
  function IcdLetter(category: string): (c: char)
    ensures c in {'A', 'I', 'J', 'K', 'G', 'R'}
    ensures c == 'R' <==> category !in ["Infectious", "Cardiovascular", "Respiratory", "Gastrointestinal", "Neurological"]
  {
    if category == "Infectious" then 'A'
    else if category == "Cardiovascular" then 'I'
    else if category == "Respiratory" then 'J'
    else if category == "Gastrointestinal" then 'K'
    else if category == "Neurological" then 'G'
    else 'R'
  }

  // ---------------------------------------------------------------------------
  // The base lists used when no base file exists
  // ---------------------------------------------------------------------------

  const DefaultBaseSymptoms: seq<Symptom> := [
    Symptom("S001", "Fever", "Elevated body temperature above normal range", "General", "Systemic",
            "mild,moderate,severe", "3-7 days", "R50.9", "386661006"),
    Symptom("S002", "Cough", "Sudden expulsion of air from the lungs", "Respiratory", "Chest",
            "mild,moderate,severe", "7-14 days", "R05", "49727002"),
    Symptom("S003", "Headache", "Pain in the head or upper neck", "Neurological", "Head",
            "mild,moderate,severe", "1-24 hours", "R51", "25064002"),
    Symptom("S004", "Fatigue", "Feeling of tiredness or exhaustion", "General", "Systemic",
            "mild,moderate,severe", "variable", "R53.83", "84229001"),
    Symptom("S005", "Nausea", "Sensation of unease in the stomach with an urge to vomit", "Gastrointestinal",
            "Abdomen", "mild,moderate,severe", "1-48 hours", "R11.0", "422587007")
  ]

  const DefaultBaseDiseases: seq<Disease> := [
    Disease("D001", "Common Cold", "Viral infection of the upper respiratory tract", "Infectious", "J00",
            "82272006", ["S002", "S003", "S004"], ["S002"], [], "high", "mild"),
    Disease("D002", "Influenza", "Viral infection that attacks the respiratory system", "Infectious", "J10.1",
            "6142004", ["S001", "S002", "S003", "S004"], ["S001", "S004"], [], "seasonal", "moderate"),
    Disease("D003", "Migraine", "Recurring headache that causes moderate to severe pain", "Neurological",
            "G43.909", "37796009", ["S003", "S005"], ["S003"], [], "moderate", "moderate"),
    Disease("D004", "Gastroenteritis", "Inflammation of the stomach and intestines", "Gastrointestinal", "A09",
            "25374005", ["S001", "S004", "S005"], ["S005"], [], "high", "moderate")
  ]

  // ---------------------------------------------------------------------------
  // Numbered ids
  // ---------------------------------------------------------------------------

  /** The j-th id (from 0) is the prefix letter followed by j + 1 in at least
      three digits. */
  predicate NumberedIds(ids: seq<string>, prefix: char)
  {
    forall j :: 0 <= j < |ids| ==> ids[j] == FormatId(prefix, j + 1)
  }

  lemma NumberedAppend(ids: seq<string>, id: string, prefix: char)
    requires NumberedIds(ids, prefix) && id == FormatId(prefix, |ids| + 1)
    ensures NumberedIds(ids + [id], prefix)
  {
    var all := ids + [id];
    forall j | 0 <= j < |all|
      ensures all[j] == FormatId(prefix, j + 1)
    {
      if j < |ids| {
        assert all[j] == ids[j];
      }
    }
  }

  lemma NumberedIdsDistinct(ids: seq<string>, prefix: char)
    requires NumberedIds(ids, prefix)
    ensures Distinct(ids)
  {
    forall i, j | 0 <= i < j < |ids|
      ensures ids[i] != ids[j]
    {
      FormatIdInjective(prefix, i + 1, j + 1);
    }
  }

  /** The default base symptoms are numbered S001 to S005. */
  lemma DefaultSymptomsNumbered()
    ensures NumberedIds(SymptomIdsOf(DefaultBaseSymptoms), 'S')
  {
    var ids := SymptomIdsOf(DefaultBaseSymptoms);
    forall j | 0 <= j < |ids|
      ensures ids[j] == FormatId('S', j + 1)
    {
      FormatIdOneDigit('S', j + 1);
      assert ids[j] == DefaultBaseSymptoms[j].symptomId;
    }
  }

  /** The default base diseases are numbered D001 to D004. */
  lemma DefaultDiseasesNumbered()
    ensures NumberedIds(DiseaseIdsOf(DefaultBaseDiseases), 'D')
  {
    var ids := DiseaseIdsOf(DefaultBaseDiseases);
    forall j | 0 <= j < |ids|
      ensures ids[j] == FormatId('D', j + 1)
    {
      FormatIdOneDigit('D', j + 1);
      assert ids[j] == DefaultBaseDiseases[j].diseaseId;
    }
  }

  lemma FormatIdOneDigit(prefix: char, n: nat)
    requires 1 <= n < 10
    ensures FormatId(prefix, n) == [prefix, '0', '0', Digit(n)]
  {
    assert Decimal(n) == [Digit(n)];
    assert Zeros(2) == "00";
  }

  // ---------------------------------------------------------------------------
  // Random draws
  // ---------------------------------------------------------------------------

  /** random.randint(lo, hi), for a non-empty range. */
  method RandInt(lo: int, hi: int) returns (r: int)
    requires lo <= hi
    ensures lo <= r <= hi
  {
    r :| lo <= r <= hi;
  }

  /** random.choice(xs), for a non-empty list. */
  method Choice<T>(xs: seq<T>) returns (x: T)
    requires |xs| > 0
    ensures x in xs
  {
    var j :| 0 <= j < |xs|;
    x := xs[j];
  }

  /** A name made of one of the prefixes, a space and one of the suffixes. */
  ghost predicate NameFrom(name: string, prefixes: seq<string>, suffixes: seq<string>)
  {
    exists a, b :: 0 <= a < |prefixes| && 0 <= b < |suffixes| && name == prefixes[a] + " " + suffixes[b]
  }

  method DrawName(prefixes: seq<string>, suffixes: seq<string>) returns (name: string)
    requires |prefixes| > 0 && |suffixes| > 0
    ensures NameFrom(name, prefixes, suffixes)
  {
    var a :| 0 <= a < |prefixes|;
    var b :| 0 <= b < |suffixes|;
    name := prefixes[a] + " " + suffixes[b];
  }

  /** f"{letter}{randint(10, 99)}.{randint(0, 9)}": the letter, two digits
      without a leading zero, a dot and one digit. */
  predicate IcdShaped(code: string, letter: char)
  {
    |code| == 5 && code[0] == letter && IsDigit(code[1]) && code[1] != '0' && IsDigit(code[2]) &&
    code[3] == '.' && IsDigit(code[4])
  }

  /** f"{randint(10000000, 99999999)}": eight digits without a leading zero. */
  predicate SnomedShaped(code: string)
  {
    |code| == 8 && AllDigits(code) && code[0] != '0'
  }

  function Pow10(k: nat): (p: nat)
    ensures p >= 1
  {
    if k == 0 then 1 else 10 * Pow10(k - 1)
  }

  /** A number between 10^(k-1) and 10^k has k decimal digits. */
  lemma {:induction false} DecimalLength(n: nat, k: nat)
    requires 1 <= k && Pow10(k - 1) <= n < Pow10(k)
    ensures |Decimal(n)| == k
  {
    if k > 1 {
      assert Pow10(k - 2) <= n / 10 < Pow10(k - 1);
      DecimalLength(n / 10, k - 1);
    }
  }

  method DrawIcd(letter: char) returns (code: string)
    ensures IcdShaped(code, letter)
  {
    var major := RandInt(10, 99);
    var minor := RandInt(0, 9);
    DecimalLength(major, 2);
    code := [letter] + Decimal(major) + "." + Decimal(minor);
  }

  method DrawSnomed() returns (code: string)
    ensures SnomedShaped(code)
  {
    var n := RandInt(10000000, 99999999);
    assert Pow10(7) == 10000000 && Pow10(8) == 100000000;
    DecimalLength(n, 8);
    code := Decimal(n);
  }

  // ---------------------------------------------------------------------------
  // Symptoms
  // ---------------------------------------------------------------------------

  /** What a symptom generated at position i looks like. */
  ghost predicate GeneratedSymptom(s: Symptom, i: nat)
  {
    s.symptomId == FormatId('S', i + 1) &&
    s.category in SymptomCategories && s.bodyPart in BodyParts &&
    NameFrom(s.name, SymptomNamePrefixes(s.category), SymptomNameSuffixes(s.category)) &&
    s.description == "A " + Lower(s.category) + " symptom affecting the " + Lower(s.bodyPart) &&
    s.severityScale == SeverityScale && s.commonDuration in SymptomDurations &&
    IcdShaped(s.icdCode, 'R') && SnomedShaped(s.snomedCode)
  }

  method GenerateSymptom(i: nat) returns (s: Symptom)
    ensures GeneratedSymptom(s, i)
  {
    var category := Choice(SymptomCategories);
    var bodyPart := Choice(BodyParts);
    var name := DrawName(SymptomNamePrefixes(category), SymptomNameSuffixes(category));
    var description := "A " + Lower(category) + " symptom affecting the " + Lower(bodyPart);
    var commonDuration := Choice(SymptomDurations);
    var icdCode := DrawIcd('R');
    var snomedCode := DrawSnomed();
    s := Symptom(FormatId('S', i + 1), name, description, category, bodyPart, SeverityScale,
                 commonDuration, icdCode, snomedCode);
    assert s.name == name && s.category == category;
  }

  // ---------------------------------------------------------------------------
  // Diseases
  // ---------------------------------------------------------------------------

  /** [s for s in xs if s not in drop] */
  function Keep(xs: seq<string>, drop: seq<string>): (r: seq<string>)
    ensures forall s :: s in r <==> s in xs && s !in drop
    ensures Distinct(xs) ==> Distinct(r)
  {
    if |xs| == 0 then []
    else
      var init := Keep(xs[..|xs| - 1], drop);
      var last := xs[|xs| - 1];
      assert xs == xs[..|xs| - 1] + [last];
      init + (if last in drop then [] else [last])
  }

  /** The symptom lists of a generated disease: 2..5 common symptoms drawn
      from the symptom ids, 1..2 required ones drawn from the common ones, and
      at most 2 exclusionary ones drawn from the ids that are not common; all
      three lists are free of repeats when the ids are. */
  predicate SymptomListsFit(d: Disease, ids: seq<string>)
  {
    2 <= |d.commonSymptoms| <= 5 && multiset(d.commonSymptoms) <= multiset(ids) &&
    1 <= |d.requiredSymptoms| <= 2 && multiset(d.requiredSymptoms) <= multiset(d.commonSymptoms) &&
    |d.exclusionarySymptoms| <= 2 &&
    (forall s :: s in d.exclusionarySymptoms ==> s in ids && s !in d.commonSymptoms) &&
    (Distinct(ids) ==>
       Distinct(d.commonSymptoms) && Distinct(d.requiredSymptoms) && Distinct(d.exclusionarySymptoms))
  }

  /** Required symptoms are common ones, so none of them is exclusionary. */
  lemma RequiredAreCommon(d: Disease, ids: seq<string>)
    requires SymptomListsFit(d, ids)
    ensures forall s :: s in d.requiredSymptoms ==> s in d.commonSymptoms && s in ids
    ensures forall s :: s in d.requiredSymptoms ==> s !in d.exclusionarySymptoms
  {
    forall s | s in d.requiredSymptoms
      ensures s in d.commonSymptoms && s in ids
    {
      assert multiset(d.requiredSymptoms)[s] > 0;
      assert multiset(d.commonSymptoms)[s] > 0;
    }
  }

  /** What a disease generated at position i looks like. */
  ghost predicate GeneratedDisease(d: Disease, i: nat, ids: seq<string>)
  {
    d.diseaseId == FormatId('D', i + 1) && d.category in DiseaseCategories &&
    NameFrom(d.name, DiseaseNamePrefixes(d.category), DiseaseNameSuffixes(d.category)) &&
    d.description == "A " + Lower(d.category) + " condition characterized by specific symptoms" &&
    IcdShaped(d.icdCode, IcdLetter(d.category)) && SnomedShaped(d.snomedCode) &&
    SymptomListsFit(d, ids) && d.prevalence in Prevalences && d.severity in Severities
  }

  method DrawSymptomLists(ids: seq<string>) returns (common: seq<string>, required: seq<string>, exclusionary: seq<string>)
    requires |ids| >= 2
    ensures SymptomListsFit(Disease("", "", "", "", "", "", common, required, exclusionary, "", ""), ids)
  {
    var numCommon := RandInt(2, Min(5, |ids|));
    common := Sample(ids, numCommon);
    var numRequired := RandInt(1, Min(2, numCommon));
    required := Sample(common, numRequired);
    exclusionary := [];
    var hasExclusionary: bool := *;
    if hasExclusionary {
      var available := Keep(ids, common);
      if |available| > 0 {
        var numExclusionary := RandInt(1, Min(2, |available|));
        exclusionary := Sample(available, numExclusionary);
      }
    }
  }

  method GenerateDisease(i: nat, ids: seq<string>) returns (d: Disease)
    requires |ids| >= 2
    ensures GeneratedDisease(d, i, ids)
  {
    var category := Choice(DiseaseCategories);
    var name := DrawName(DiseaseNamePrefixes(category), DiseaseNameSuffixes(category));
    var description := "A " + Lower(category) + " condition characterized by specific symptoms";
    var icdCode := DrawIcd(IcdLetter(category));
    var snomedCode := DrawSnomed();
    var common, required, exclusionary := DrawSymptomLists(ids);
    var prevalence := Choice(Prevalences);
    var severity := Choice(Severities);
    d := Disease(FormatId('D', i + 1), name, description, category, icdCode, snomedCode,
                 common, required, exclusionary, prevalence, severity);
  }

  /** The list starts with the base list and continues with symptoms
      generated at their own positions. */
  ghost predicate SymptomsAfter(base: seq<Symptom>, symptoms: seq<Symptom>)
  {
    |base| <= |symptoms| && symptoms[..|base|] == base &&
    forall i :: |base| <= i < |symptoms| ==> GeneratedSymptom(symptoms[i], i)
  }

  lemma ExtendSymptoms(base: seq<Symptom>, symptoms: seq<Symptom>, s: Symptom)
    requires SymptomsAfter(base, symptoms) && GeneratedSymptom(s, |symptoms|)
    ensures SymptomsAfter(base, symptoms + [s])
    ensures NumberedIds(SymptomIdsOf(symptoms), 'S') ==> NumberedIds(SymptomIdsOf(symptoms + [s]), 'S')
  {
    var all := symptoms + [s];
    assert all[..|base|] == symptoms[..|base|];
    forall i | |base| <= i < |all|
      ensures GeneratedSymptom(all[i], i)
    {
      if i < |symptoms| {
        assert all[i] == symptoms[i];
      }
    }
    assert SymptomIdsOf(all) == SymptomIdsOf(symptoms) + [s.symptomId];
    if NumberedIds(SymptomIdsOf(symptoms), 'S') {
      NumberedAppend(SymptomIdsOf(symptoms), s.symptomId, 'S');
    }
  }

  /** The list starts with the base list and continues with diseases
      generated at their own positions. */
  ghost predicate DiseasesAfter(base: seq<Disease>, diseases: seq<Disease>, ids: seq<string>)
  {
    |base| <= |diseases| && diseases[..|base|] == base &&
    forall i :: |base| <= i < |diseases| ==> GeneratedDisease(diseases[i], i, ids)
  }

  lemma ExtendDiseases(base: seq<Disease>, diseases: seq<Disease>, d: Disease, ids: seq<string>)
    requires DiseasesAfter(base, diseases, ids) && GeneratedDisease(d, |diseases|, ids)
    ensures DiseasesAfter(base, diseases + [d], ids)
    ensures NumberedIds(DiseaseIdsOf(diseases), 'D') ==> NumberedIds(DiseaseIdsOf(diseases + [d]), 'D')
  {
    var all := diseases + [d];
    assert all[..|base|] == diseases[..|base|];
    forall i | |base| <= i < |all|
      ensures GeneratedDisease(all[i], i, ids)
    {
      if i < |diseases| {
        assert all[i] == diseases[i];
      }
    }
    assert DiseaseIdsOf(all) == DiseaseIdsOf(diseases) + [d.diseaseId];
    if NumberedIds(DiseaseIdsOf(diseases), 'D') {
      NumberedAppend(DiseaseIdsOf(diseases), d.diseaseId, 'D');
    }
  }

  // ---------------------------------------------------------------------------
  // Annotated texts
  // ---------------------------------------------------------------------------

  /** {s["symptom_id"]: s["name"] for s in symptoms}: a later row with the
      same id overrides an earlier one. */
  function NameMap(symptoms: seq<Symptom>): (m: map<string, string>)
    ensures forall id :: id in m <==> id in SymptomIdsOf(symptoms)
  {
    if |symptoms| == 0 then map[]
    else
      var last := symptoms[|symptoms| - 1];
      assert SymptomIdsOf(symptoms) == SymptomIdsOf(symptoms[..|symptoms| - 1]) + [last.symptomId];
      NameMap(symptoms[..|symptoms| - 1])[last.symptomId := last.name]
  }

  /** With distinct ids every symptom's name is found under its id. */
  lemma {:induction false} NameMapNames(symptoms: seq<Symptom>)
    requires Distinct(SymptomIdsOf(symptoms))
    ensures forall j :: 0 <= j < |symptoms| ==>
              symptoms[j].symptomId in NameMap(symptoms) && NameMap(symptoms)[symptoms[j].symptomId] == symptoms[j].name
  {
    if |symptoms| > 0 {
      var ids := SymptomIdsOf(symptoms);
      var n := |symptoms| - 1;
      var init := symptoms[..n];
      var last := symptoms[n];
      assert SymptomIdsOf(init) == ids[..n];
      NameMapNames(init);
      assert NameMap(symptoms) == NameMap(init)[last.symptomId := last.name];
      forall j | 0 <= j < |symptoms|
        ensures symptoms[j].symptomId in NameMap(symptoms)
        ensures NameMap(symptoms)[symptoms[j].symptomId] == symptoms[j].name
      {
        if j < n {
          assert init[j] == symptoms[j];
          assert ids[j] == symptoms[j].symptomId && ids[n] == last.symptomId;
        }
      }
    }
  }

  /** The ids that the name map knows, in order. */
  function KnownIds(ids: seq<string>, m: map<string, string>): (r: seq<string>)
    ensures forall s :: s in r <==> s in ids && s in m
    ensures |r| <= |ids|
    ensures (forall s :: s in ids ==> s in m) ==> r == ids
  {
    if |ids| == 0 then []
    else
      var last := ids[|ids| - 1];
      assert ids == ids[..|ids| - 1] + [last];
      KnownIds(ids[..|ids| - 1], m) + (if last in m then [last] else [])
  }

  /** [symptom_map[s_id] for s_id in ids if s_id in symptom_map] */
  function KnownNames(ids: seq<string>, m: map<string, string>): (names: seq<string>)
    ensures |names| == |KnownIds(ids, m)|
    ensures forall k :: 0 <= k < |names| ==> names[k] == m[KnownIds(ids, m)[k]]
  {
    var known := KnownIds(ids, m);
    seq(|known|, k requires 0 <= k < |known| => m[known[k]])
  }

  /** sep.join(xs) */
  function JoinWith(sep: string, xs: seq<string>): string
  {
    if |xs| == 0 then ""
    else if |xs| == 1 then xs[0]
    else JoinWith(sep, xs[..|xs| - 1]) + sep + xs[|xs| - 1]
  }

  /** The symptom phrase: one name as it is, two joined by " and ", more as
      "a, b, and c". No name at all raises IndexError (the last name is read
      as names[-1]). */
  function FormatSymptomList(names: seq<string>): (r: Result<string>)
    ensures r.Err? <==> |names| == 0
    ensures r.Err? ==> r.error == IndexError
  {
    if |names| == 1 then Ok(names[0])
    else if |names| == 2 then Ok(names[0] + " and " + names[1])
    else if |names| == 0 then Err(IndexError)
    else Ok(JoinWith(", ", names[..|names| - 1]) + ", and " + names[|names| - 1])
  }

  /** template.format(symptoms=..., duration=...) for the five templates. */
  function Fill(template: nat, symptoms: string, duration: string): string
    requires template < 5
  {
    if template == 0 then "I've been experiencing " + symptoms + (" for " + duration + ".")
    else if template == 1 then "I have " + symptoms + (" that started " + duration + " ago.")
    else if template == 2 then "My symptoms include " + symptoms + (" for the past " + duration + ".")
    else if template == 3 then ("For about " + duration + ", I've had ") + symptoms + "."
    else "I'm concerned about " + symptoms + (" that I've had for " + duration + ".")
  }

  lemma OccursLeft(a: string, b: string, needle: string, p: nat)
    requires OccursAt(a, needle, p)
    ensures OccursAt(a + b, needle, p)
  {
    assert (a + b)[p..p + |needle|] == a[p..p + |needle|];
  }

  lemma OccursRight(a: string, b: string, needle: string, p: nat)
    requires OccursAt(b, needle, p)
    ensures OccursAt(a + b, needle, |a| + p)
  {
    assert (a + b)[|a| + p..|a| + p + |needle|] == b[p..p + |needle|];
  }

  lemma OccursWithin(hay: string, mid: string, needle: string, p: nat, q: nat)
    requires OccursAt(hay, mid, p) && OccursAt(mid, needle, q)
    ensures OccursAt(hay, needle, p + q)
  {
    var window := hay[p..p + |mid|];
    assert window == mid;
    forall i | 0 <= i < |needle|
      ensures hay[p + q..p + q + |needle|][i] == needle[i]
    {
      assert hay[p + q + i] == window[q + i] == mid[q..q + |needle|][i];
    }
  }

  lemma OccursLower(hay: string, needle: string, p: nat)
    requires OccursAt(hay, needle, p)
    ensures OccursAt(Lower(hay), Lower(needle), p)
  {
    assert Lower(hay)[p..p + |needle|] == Lower(hay[p..p + |needle|]);
  }

  /** Every name appears in the joined list, at position p. */
  lemma {:induction false} JoinContains(sep: string, xs: seq<string>, k: nat) returns (p: nat)
    requires k < |xs|
    ensures OccursAt(JoinWith(sep, xs), xs[k], p)
  {
    assert OccursAt(xs[k], xs[k], 0);
    if |xs| == 1 {
      p := 0;
    } else {
      var init := xs[..|xs| - 1];
      if k == |xs| - 1 {
        OccursRight(JoinWith(sep, init) + sep, xs[k], xs[k], 0);
        p := |JoinWith(sep, init) + sep|;
      } else {
        p := JoinContains(sep, init, k);
        OccursLeft(JoinWith(sep, init), sep + xs[|xs| - 1], xs[k], p);
        assert JoinWith(sep, init) + (sep + xs[|xs| - 1]) == JoinWith(sep, xs);
      }
    }
  }

  /** Every name appears in the symptom phrase, at position p. */
  lemma FormatContains(names: seq<string>, k: nat) returns (p: nat)
    requires k < |names|
    ensures OccursAt(FormatSymptomList(names).value, names[k], p)
  {
    var n := |names|;
    var phrase := FormatSymptomList(names).value;
    assert OccursAt(names[k], names[k], 0);
    if n == 1 {
      p := 0;
    } else if n == 2 {
      assert phrase == names[0] + (" and " + names[1]);
      if k == 0 {
        OccursLeft(names[0], " and " + names[1], names[0], 0);
        p := 0;
      } else {
        assert phrase == names[0] + " and " + names[1];
        OccursRight(names[0] + " and ", names[1], names[1], 0);
        p := |names[0] + " and "|;
      }
    } else {
      var front := JoinWith(", ", names[..n - 1]);
      if k == n - 1 {
        assert phrase == front + ", and " + names[k];
        OccursRight(front + ", and ", names[k], names[k], 0);
        p := |front + ", and "|;
      } else {
        assert phrase == front + (", and " + names[n - 1]);
        p := JoinContains(", ", names[..n - 1], k);
        OccursLeft(front, ", and " + names[n - 1], names[k], p);
      }
    }
  }

  /** The symptom phrase appears in the filled template, at position p. */
  lemma FillContains(template: nat, symptoms: string, duration: string) returns (p: nat)
    requires template < 5
    ensures OccursAt(Fill(template, symptoms, duration), symptoms, p)
  {
    if template == 0 {
      OccursPiece("I've been experiencing ", symptoms, " for " + duration + ".");
      p := |"I've been experiencing "|;
    } else if template == 1 {
      OccursPiece("I have ", symptoms, " that started " + duration + " ago.");
      p := |"I have "|;
    } else if template == 2 {
      OccursPiece("My symptoms include ", symptoms, " for the past " + duration + ".");
      p := |"My symptoms include "|;
    } else if template == 3 {
      OccursPiece("For about " + duration + ", I've had ", symptoms, ".");
      p := |"For about " + duration + ", I've had "|;
    } else {
      OccursPiece("I'm concerned about ", symptoms, " that I've had for " + duration + ".");
      p := |"I'm concerned about "|;
    }
  }

  lemma OccursPiece(head: string, mid: string, tail: string)
    ensures OccursAt(head + mid + tail, mid, |head|)
  {
    assert (head + mid + tail)[|head|..|head| + |mid|] == mid;
  }

  /** An annotation a generated text carries: the first case-insensitive
      occurrence of the symptom's name, with its span, the text of the span,
      and not negated. */
  predicate AnnotationFits(a: Annotation, text: string, m: map<string, string>)
  {
    a.symptomId in m && 0 <= a.start && a.end == a.start + |m[a.symptomId]| && a.end <= |text| &&
    a.text == text[a.start..a.end] && Lower(a.text) == Lower(m[a.symptomId]) && !a.negated &&
    forall p :: 0 <= p < a.start ==> !OccursAt(Lower(text), Lower(m[a.symptomId]), p)
  }

  /** The annotation of one selected symptom, if its name is in the map and
      occurs in the text. */
  function AnnotationOf(text: string, id: string, m: map<string, string>): seq<Annotation>
  {
    if id !in m then []
    else
      var name := m[id];
      var start := Find(Lower(text), Lower(name));
      if start == -1 then []
      else [Annotation(start, start + |name|, text[start..start + |name|], id, false)]
  }

  /** The annotations of the selected symptoms, in selection order. */
  function AnnotationsFor(text: string, ids: seq<string>, m: map<string, string>): seq<Annotation>
  {
    if |ids| == 0 then []
    else AnnotationsFor(text, ids[..|ids| - 1], m) + AnnotationOf(text, ids[|ids| - 1], m)
  }

  lemma AnnotationOfFits(text: string, id: string, m: map<string, string>)
    ensures forall a :: a in AnnotationOf(text, id, m) ==> AnnotationFits(a, text, m) && a.symptomId == id
  {
    if id in m && Find(Lower(text), Lower(m[id])) != -1 {
      var name := m[id];
      var start := Find(Lower(text), Lower(name));
      assert Lower(text[start..start + |name|]) == Lower(text)[start..start + |name|];
    }
  }

  /** Every annotation of a generated text slices the text exactly and matches
      the name of a selected symptom case-insensitively. */
  lemma {:induction false} AnnotationsForFit(text: string, ids: seq<string>, m: map<string, string>)
    ensures forall a :: a in AnnotationsFor(text, ids, m) ==> AnnotationFits(a, text, m) && a.symptomId in ids
  {
    if |ids| > 0 {
      var init := ids[..|ids| - 1];
      AnnotationsForFit(text, init, m);
      AnnotationOfFits(text, ids[|ids| - 1], m);
      assert forall s :: s in init ==> s in ids;
    }
  }

  /** When every known name occurs in the text, every selected symptom the map
      knows gets exactly one annotation, in selection order. */
  lemma {:induction false} AnnotationsForComplete(text: string, ids: seq<string>, m: map<string, string>)
    requires forall s :: s in ids && s in m ==> Find(Lower(text), Lower(m[s])) != -1
    ensures AnnotationIdsOf(AnnotationsFor(text, ids, m)) == KnownIds(ids, m)
  {
    if |ids| > 0 {
      var init := ids[..|ids| - 1];
      assert forall s :: s in init ==> s in ids;
      AnnotationsForComplete(text, init, m);
      var last := ids[|ids| - 1];
      var front, back := AnnotationsFor(text, init, m), AnnotationOf(text, last, m);
      assert AnnotationsFor(text, ids, m) == front + back;
      assert AnnotationIdsOf(front + back) == AnnotationIdsOf(front) + AnnotationIdsOf(back);
      assert AnnotationIdsOf(back) == if last in m then [last] else [];
      assert KnownIds(ids, m) == KnownIds(init, m) + (if last in m then [last] else []);
    }
  }

  /** The annotation loop of generate_symptom_text_data. */
  method AnnotateText(text: string, ids: seq<string>, m: map<string, string>) returns (annotations: seq<Annotation>)
    ensures annotations == AnnotationsFor(text, ids, m)
  {
    annotations := [];
    for j := 0 to |ids|
      invariant annotations == AnnotationsFor(text, ids[..j], m)
    {
      assert ids[..j + 1][..j] == ids[..j];
      var found := AnnotateSymptom(text, ids[j], m);
      annotations := annotations + found;
    }
    assert ids[..|ids|] == ids;
  }

  /** The annotation of one symptom: the first case-insensitive match of its
      name, when the map knows it and the name occurs. */
  method AnnotateSymptom(text: string, id: string, m: map<string, string>) returns (found: seq<Annotation>)
    ensures found == AnnotationOf(text, id, m)
  {
    found := [];
    if id in m {
      var name := m[id];
      var start := Find(Lower(text), Lower(name));
      if start != -1 {
        var end := start + |name|;
        found := [Annotation(start, end, text[start..end], id, false)];
      }
    }
  }

  /** Every selected symptom that the map knows has its name in the generated
      text, so the search for it succeeds. */
  lemma NamesFound(template: nat, selected: seq<string>, m: map<string, string>, duration: string)
    requires template < 5 && |KnownNames(selected, m)| > 0
    ensures var text := Fill(template, FormatSymptomList(KnownNames(selected, m)).value, duration);
            forall s :: s in selected && s in m ==> Find(Lower(text), Lower(m[s])) != -1
  {
    var names := KnownNames(selected, m);
    var known := KnownIds(selected, m);
    var phrase := FormatSymptomList(names).value;
    var text := Fill(template, phrase, duration);
    forall s | s in selected && s in m
      ensures Find(Lower(text), Lower(m[s])) != -1
    {
      var k :| 0 <= k < |known| && known[k] == s;
      NameFound(template, names, k, duration);
    }
  }

  /** The k-th name of the list is found in a text filled with the list. */
  lemma NameFound(template: nat, names: seq<string>, k: nat, duration: string)
    requires template < 5 && k < |names|
    ensures var text := Fill(template, FormatSymptomList(names).value, duration);
            Find(Lower(text), Lower(names[k])) != -1
  {
    var phrase := FormatSymptomList(names).value;
    var text := Fill(template, phrase, duration);
    var p := FormatContains(names, k);
    var q := FillContains(template, phrase, duration);
    OccursWithin(text, phrase, names[k], q, p);
    OccursLower(text, names[k], q + p);
  }

  /** The diseases can always be drawn from and every symptom they list is
      named: then no text sample fails. */
  predicate TextReady(diseases: seq<Disease>, m: map<string, string>)
  {
    |diseases| > 0 &&
    forall d :: d in diseases ==> |d.commonSymptoms| > 0 && forall s :: s in d.commonSymptoms ==> s in m
  }

  /** The i-th generated text record: numbered T001.., marked synthetic, and
      carrying at least one annotation, each of which fits the text. */
  predicate TextSampleFits(rec: TextRecord, i: nat, m: map<string, string>)
  {
    rec.textId == FormatId('T', i + 1) && rec.source == "synthetic" && |rec.annotations| >= 1 &&
    forall a :: a in rec.annotations ==> AnnotationFits(a, rec.text, m)
  }

  predicate SamplesFit(records: seq<TextRecord>, m: map<string, string>)
  {
    forall i :: 0 <= i < |records| ==> TextSampleFits(records[i], i, m)
  }

  lemma ExtendSamples(records: seq<TextRecord>, rec: TextRecord, m: map<string, string>)
    requires SamplesFit(records, m) && TextSampleFits(rec, |records|, m)
    ensures SamplesFit(records + [rec], m)
  {
    var all := records + [rec];
    forall i | 0 <= i < |all|
      ensures TextSampleFits(all[i], i, m)
    {
      if i < |records| {
        assert all[i] == records[i];
      } else {
        assert all[i] == rec;
      }
    }
  }

  /** What one text sample is made of: the disease drawn (pick), the symptoms
      drawn from its common symptoms (selected) and the outcome. A disease
      without common symptoms raises ValueError; a draw none of whose
      symptoms is named raises IndexError; otherwise the record annotates
      exactly the named drawn symptoms, in the order drawn. */
  predicate SampleDrawn(r: Result<TextRecord>, i: nat, pick: nat, selected: seq<string>,
                        diseases: seq<Disease>, m: map<string, string>)
  {
    pick < |diseases| &&
    var common := diseases[pick].commonSymptoms;
    (|common| == 0 <==> r == Err(ValueError)) &&
    (|common| > 0 ==>
       1 <= |selected| <= Min(3, |common|) &&
       multiset(selected) <= multiset(common) &&
       (forall s :: s in selected ==> s in common) &&
       (r.Err? <==> |KnownIds(selected, m)| == 0) &&
       (r.Err? ==> r.error == IndexError) &&
       (r.Ok? ==> TextSampleFits(r.value, i, m) && AnnotationIdsOf(r.value.annotations) == KnownIds(selected, m)))
  }

  /** One pass of the sample loop of generate_symptom_text_data; pick is the
      index of the disease drawn and selected the symptoms drawn from it. */
  method GenerateTextSample(i: nat, diseases: seq<Disease>, m: map<string, string>)
    returns (r: Result<TextRecord>, ghost pick: nat, ghost selected: seq<string>)
    requires |diseases| > 0
    ensures SampleDrawn(r, i, pick, selected, diseases, m)
    ensures r.Err? ==> r.error == IndexError || r.error == ValueError
    ensures TextReady(diseases, m) ==> r.Ok?
    ensures r.Ok? ==> TextSampleFits(r.value, i, m)
  {
    var j :| 0 <= j < |diseases|;
    pick := j;
    var common := diseases[j].commonSymptoms;
    if |common| == 0 {
      selected := [];
      return Err(ValueError), pick, selected;
    }
    var numSelected := RandInt(1, Min(3, |common|));
    var drawn := Sample(common, numSelected);
    selected := drawn;
    var names := KnownNames(drawn, m);
    var phrase := FormatSymptomList(names);
    if phrase.Err? {
      assert drawn[0] in common;
      return Err(IndexError), pick, selected;
    }
    var duration := Choice(TextDurations);
    var template :| 0 <= template < 5;
    var text := Fill(template, phrase.value, duration);
    var annotations := AnnotateText(text, drawn, m);
    NamesFound(template, drawn, m, duration);
    AnnotationsForFit(text, drawn, m);
    AnnotationsForComplete(text, drawn, m);
    r := Ok(TextRecord(FormatId('T', i + 1), text, annotations, "synthetic"));
  }

  // ---------------------------------------------------------------------------
  // Symptom/disease relationships
  // ---------------------------------------------------------------------------

  lemma DistinctConcat(a: seq<string>, b: seq<string>)
    requires Distinct(a) && Distinct(b) && forall x :: x in b ==> x !in a
    ensures Distinct(a + b)
  {
    var c := a + b;
    forall i, j | 0 <= i < j < |c|
      ensures c[i] != c[j]
    {
      if i < |a| && j >= |a| {
        assert c[j] == b[j - |a|] && b[j - |a|] in b;
      }
    }
  }

  /** One relationship row of a case of disease d: the disease's id, is_required
      exactly for the disease's required symptoms, and a symptom that is
      required, common, or a known id that is not exclusionary. */
  predicate RowFits(rel: Relationship, d: Disease, allIds: seq<string>)
  {
    rel.diseaseId == d.diseaseId &&
    (rel.isRequired <==> rel.symptomId in d.requiredSymptoms) &&
    (rel.symptomId in d.requiredSymptoms || rel.symptomId in d.commonSymptoms ||
     (rel.symptomId in allIds && rel.symptomId !in d.exclusionarySymptoms)) &&
    rel.severity in CaseSeverities && rel.duration in CaseDurations
  }

  /** The rows of one case of disease d: every required symptom present, every
      row fitting, and no symptom twice when the lists involved have no
      repeats. */
  predicate CaseFits(group: seq<Relationship>, d: Disease, allIds: seq<string>)
  {
    (forall s :: s in d.requiredSymptoms ==> s in DataLoader.SymptomIdsIn(group)) &&
    (forall rel :: rel in group ==> RowFits(rel, d, allIds)) &&
    (Distinct(d.requiredSymptoms) && Distinct(d.commonSymptoms) && Distinct(allIds) ==>
       Distinct(DataLoader.SymptomIdsIn(group)))
  }

  /** For a generated disease no symptom of a case is exclusionary: required
      and common symptoms never are, and the random extras avoid them. */
  lemma CaseAvoidsExclusionary(group: seq<Relationship>, d: Disease, ids: seq<string>, allIds: seq<string>)
    requires SymptomListsFit(d, ids) && CaseFits(group, d, allIds)
    ensures forall rel :: rel in group ==> rel.symptomId !in d.exclusionarySymptoms
  {
    RequiredAreCommon(d, ids);
  }

  /** The symptoms of one case: all required ones, some other common ones,
      and possibly one or two known ids that are neither chosen yet nor
      exclusionary. */
  method SelectCaseSymptoms(d: Disease, allIds: seq<string>) returns (selected: seq<string>)
    ensures forall s :: s in d.requiredSymptoms ==> s in selected
    ensures forall s :: s in selected ==>
              s in d.requiredSymptoms || s in d.commonSymptoms || (s in allIds && s !in d.exclusionarySymptoms)
    ensures Distinct(d.requiredSymptoms) && Distinct(d.commonSymptoms) && Distinct(allIds) ==> Distinct(selected)
  {
    selected := d.requiredSymptoms;
    var remaining := Keep(d.commonSymptoms, selected);
    var numCommon := RandInt(0, |remaining|);
    if numCommon > 0 && |remaining| > 0 {
      var picked := Sample(remaining, numCommon);
      if Distinct(d.requiredSymptoms) && Distinct(d.commonSymptoms) {
        DistinctConcat(selected, picked);
      }
      selected := selected + picked;
    }
    var available := Keep(allIds, selected + d.exclusionarySymptoms);
    var addMore: bool := *;
    if addMore && |available| > 0 {
      var numAdditional := RandInt(1, Min(2, |available|));
      var extra := Sample(available, numAdditional);
      if Distinct(allIds) && Distinct(selected) {
        DistinctConcat(selected, extra);
      }
      selected := selected + extra;
    }
  }

  /** The rows of one case, one per selected symptom. */
  method CaseRelationships(caseId: string, d: Disease, allIds: seq<string>) returns (rows: seq<Relationship>)
    ensures forall rel :: rel in rows ==> rel.caseId == caseId
    ensures CaseFits(rows, d, allIds)
  {
    var selected := SelectCaseSymptoms(d, allIds);
    rows := [];
    for j := 0 to |selected|
      invariant |rows| == j
      invariant forall t :: 0 <= t < j ==>
                  rows[t].caseId == caseId && rows[t].symptomId == selected[t] && RowFits(rows[t], d, allIds)
    {
      var isRequired := selected[j] in d.requiredSymptoms;
      var severity := Choice(CaseSeverities);
      var duration := Choice(CaseDurations);
      rows := rows + [Relationship(caseId, d.diseaseId, selected[j], isRequired, severity, duration)];
    }
    assert DataLoader.SymptomIdsIn(rows) == selected;
  }

  /** Case k (from 0) has id C followed by k + 1 in at least three digits. */
  function CaseId(k: nat): string
  {
    FormatId('C', k + 1)
  }

  /** Grouped by case id, the rows of case k are a case of disease
      diseases[chosen[k]]. */
  predicate CasesFit(rels: seq<Relationship>, chosen: seq<nat>, diseases: seq<Disease>, allIds: seq<string>)
  {
    forall k :: 0 <= k < |chosen| ==>
      chosen[k] < |diseases| && CaseFits(DataLoader.GroupOf(rels, CaseId(k)), diseases[chosen[k]], allIds)
  }

  /** Every row belongs to one of the first n cases. */
  predicate CaseIdsBelow(rels: seq<Relationship>, n: nat)
  {
    forall rel :: rel in rels ==> exists k :: 0 <= k < n && rel.caseId == CaseId(k)
  }

  /** Appending the rows of a new case leaves every earlier case's group as it was. */
  lemma GroupOfEarlierCase(rels: seq<Relationship>, rows: seq<Relationship>, n: nat, k: nat)
    requires k < n && forall rel :: rel in rows ==> rel.caseId == CaseId(n)
    ensures DataLoader.GroupOf(rels + rows, CaseId(k)) == DataLoader.GroupOf(rels, CaseId(k))
  {
    FormatIdInjective('C', k + 1, n + 1);
    assert CaseId(k) != CaseId(n);
    DataLoader.GroupOfSingleCase(rows, CaseId(n), CaseId(k));
    DataLoader.GroupOfAppend(rels, rows, CaseId(k));
    assert DataLoader.GroupOf(rows, CaseId(k)) == [];
  }

  /** The new case's group is exactly its rows. */
  lemma GroupOfNewCase(rels: seq<Relationship>, rows: seq<Relationship>, n: nat)
    requires CaseIdsBelow(rels, n) && forall rel :: rel in rows ==> rel.caseId == CaseId(n)
    ensures DataLoader.GroupOf(rels + rows, CaseId(n)) == rows
  {
    forall rel | rel in rels
      ensures rel.caseId != CaseId(n)
    {
      var j :| 0 <= j < n && rel.caseId == CaseId(j);
      FormatIdInjective('C', j + 1, n + 1);
    }
    DataLoader.GroupOfAbsent(rels, CaseId(n));
    DataLoader.GroupOfAppend(rels, rows, CaseId(n));
    DataLoader.GroupOfSingleCase(rows, CaseId(n), CaseId(n));
  }

  lemma ExtendCaseIds(rels: seq<Relationship>, rows: seq<Relationship>, n: nat)
    requires CaseIdsBelow(rels, n) && forall rel :: rel in rows ==> rel.caseId == CaseId(n)
    ensures CaseIdsBelow(rels + rows, n + 1)
  {
    forall rel | rel in rels + rows
      ensures exists k :: 0 <= k < n + 1 && rel.caseId == CaseId(k)
    {
      if rel in rows {
        assert rel.caseId == CaseId(n);
      } else {
        var j :| 0 <= j < n && rel.caseId == CaseId(j);
      }
    }
  }

  lemma ExtendCases(rels: seq<Relationship>, chosen: seq<nat>, rows: seq<Relationship>, pick: nat,
                    diseases: seq<Disease>, allIds: seq<string>)
    requires CasesFit(rels, chosen, diseases, allIds) && CaseIdsBelow(rels, |chosen|)
    requires pick < |diseases| && CaseFits(rows, diseases[pick], allIds)
    requires forall rel :: rel in rows ==> rel.caseId == CaseId(|chosen|)
    ensures CasesFit(rels + rows, chosen + [pick], diseases, allIds)
  {
    var n := |chosen|;
    var all, chosen' := rels + rows, chosen + [pick];
    forall k | 0 <= k < n + 1
      ensures chosen'[k] < |diseases| && CaseFits(DataLoader.GroupOf(all, CaseId(k)), diseases[chosen'[k]], allIds)
    {
      if k < n {
        GroupOfEarlierCase(rels, rows, n, k);
        assert chosen'[k] == chosen[k];
        assert CaseFits(DataLoader.GroupOf(rels, CaseId(k)), diseases[chosen[k]], allIds);
      } else {
        GroupOfNewCase(rels, rows, n);
        assert chosen'[k] == pick;
      }
    }
  }

  // ---------------------------------------------------------------------------
  // The generator object
  // ---------------------------------------------------------------------------

  class SyntheticDataGenerator {
    const baseSymptoms: seq<Symptom>
    const baseDiseases: seq<Disease>

    /** The base lists come from the base files when they exist (given here as
        their parsed contents), else from the built-in defaults. */
    constructor (baseSymptomFile: Option<seq<Symptom>>, baseDiseaseFile: Option<seq<Disease>>)
      ensures baseSymptoms == if baseSymptomFile.Some? then baseSymptomFile.value else DefaultBaseSymptoms
      ensures baseDiseases == if baseDiseaseFile.Some? then baseDiseaseFile.value else DefaultBaseDiseases
    {
      baseSymptoms := if baseSymptomFile.Some? then baseSymptomFile.value else DefaultBaseSymptoms;
      baseDiseases := if baseDiseaseFile.Some? then baseDiseaseFile.value else DefaultBaseDiseases;
    }

    /** generate_symptoms: the base list, then generated symptoms numbered on
        from it up to numSymptoms in all. */
    method GenerateSymptoms(numSymptoms: int) returns (symptoms: seq<Symptom>)
      ensures |symptoms| == Max(|baseSymptoms|, numSymptoms)
      ensures SymptomsAfter(baseSymptoms, symptoms)
      ensures NumberedIds(SymptomIdsOf(baseSymptoms), 'S') ==> NumberedIds(SymptomIdsOf(symptoms), 'S')
    {
      symptoms := baseSymptoms;
      if |symptoms| < numSymptoms {
        var i := |symptoms|;
        while i < numSymptoms
          invariant i <= numSymptoms && |symptoms| == i
          invariant SymptomsAfter(baseSymptoms, symptoms)
          invariant NumberedIds(SymptomIdsOf(baseSymptoms), 'S') ==> NumberedIds(SymptomIdsOf(symptoms), 'S')
        {
          var symptom := GenerateSymptom(i);
          ExtendSymptoms(baseSymptoms, symptoms, symptom);
          symptoms := symptoms + [symptom];
          i := i + 1;
        }
      }
    }

    /** generate_diseases: the base list, then generated diseases numbered on
        from it up to numDiseases in all. Generating one needs at least two
        symptom ids (randint(2, min(5, n)) raises ValueError otherwise). */
    method GenerateDiseases(symptoms: seq<Symptom>, numDiseases: int) returns (r: Result<seq<Disease>>)
      ensures r.Err? <==> |baseDiseases| < numDiseases && |symptoms| < 2
      ensures r.Err? ==> r.error == ValueError
      ensures r.Ok? ==> |r.value| == Max(|baseDiseases|, numDiseases)
      ensures r.Ok? ==> DiseasesAfter(baseDiseases, r.value, SymptomIdsOf(symptoms))
      ensures r.Ok? && NumberedIds(DiseaseIdsOf(baseDiseases), 'D') ==> NumberedIds(DiseaseIdsOf(r.value), 'D')
    {
      var diseases := baseDiseases;
      var ids := SymptomIdsOf(symptoms);
      if |diseases| < numDiseases {
        var i := |diseases|;
        while i < numDiseases
          invariant i <= numDiseases && |diseases| == i
          invariant i > |baseDiseases| ==> |ids| >= 2
          invariant DiseasesAfter(baseDiseases, diseases, ids)
          invariant NumberedIds(DiseaseIdsOf(baseDiseases), 'D') ==> NumberedIds(DiseaseIdsOf(diseases), 'D')
        {
          if |ids| < 2 {
            return Err(ValueError);
          }
          var disease := GenerateDisease(i, ids);
          ExtendDiseases(baseDiseases, diseases, disease, ids);
          diseases := diseases + [disease];
          i := i + 1;
        }
      }
      r := Ok(diseases);
    }

    /** generate_symptom_text_data: numSamples annotated texts. Drawing from an
        empty disease list raises IndexError; a disease without common
        symptoms raises ValueError; a draw none of whose symptoms is named
        raises IndexError. picks and selections record, sample by sample, the
        disease drawn and the symptoms drawn from it; on an error the last
        entry is the draw that raised. */
    method GenerateSymptomTextData(symptoms: seq<Symptom>, diseases: seq<Disease>, numSamples: int)
      returns (r: Result<seq<TextRecord>>, ghost picks: seq<nat>, ghost selections: seq<seq<string>>)
      ensures numSamples <= 0 ==> r == Ok([])
      ensures numSamples > 0 && |diseases| == 0 ==> r == Err(IndexError)
      ensures r.Err? ==> r.error == IndexError || r.error == ValueError
      ensures TextReady(diseases, NameMap(symptoms)) ==> r.Ok?
      ensures r.Ok? ==> |r.value| == Max(0, numSamples)
      ensures r.Ok? ==> SamplesFit(r.value, NameMap(symptoms))
      ensures |selections| == |picks|
      ensures r.Ok? ==> |picks| == |r.value|
      ensures r.Ok? ==> forall k :: 0 <= k < |r.value| ==>
                SampleDrawn(Ok(r.value[k]), k, picks[k], selections[k], diseases, NameMap(symptoms))
      ensures r.Err? && |diseases| > 0 ==>
                |picks| > 0 &&
                SampleDrawn(Err(r.error), |picks| - 1, picks[|picks| - 1], selections[|picks| - 1],
                            diseases, NameMap(symptoms))
    {
      var textData: seq<TextRecord> := [];
      var m := NameMap(symptoms);
      picks, selections := [], [];
      var i := 0;
      while i < numSamples
        invariant 0 <= i && |textData| == i
        invariant numSamples <= 0 ==> i == 0
        invariant numSamples > 0 ==> i <= numSamples
        invariant i > 0 ==> |diseases| > 0
        invariant SamplesFit(textData, m)
        invariant |picks| == i && |selections| == i
        invariant forall k :: 0 <= k < i ==> SampleDrawn(Ok(textData[k]), k, picks[k], selections[k], diseases, m)
      {
        if |diseases| == 0 {
          return Err(IndexError), picks, selections;
        }
        var sample;
        ghost var pick, selected;
        sample, pick, selected := GenerateTextSample(i, diseases, m);
        picks, selections := picks + [pick], selections + [selected];
        if sample.Err? {
          return Err(sample.error), picks, selections;
        }
        ExtendSamples(textData, sample.value, m);
        textData := textData + [sample.value];
        i := i + 1;
      }
      r := Ok(textData);
    }

    /** generate_symptom_disease_relationships: numCases cases C001.., each of
        a disease drawn from the list (recorded in chosen); drawing from an
        empty list raises IndexError. */
    method GenerateSymptomDiseaseRelationships(symptoms: seq<Symptom>, diseases: seq<Disease>, numCases: int)
      returns (r: Result<seq<Relationship>>, ghost chosen: seq<nat>)
      ensures r.Err? <==> numCases > 0 && |diseases| == 0
      ensures r.Err? ==> r.error == IndexError
      ensures r.Ok? ==> |chosen| == Max(0, numCases)
      ensures r.Ok? ==> CasesFit(r.value, chosen, diseases, SymptomIdsOf(symptoms))
      ensures r.Ok? ==> CaseIdsBelow(r.value, |chosen|)
    {
      var relationships: seq<Relationship> := [];
      var allIds := SymptomIdsOf(symptoms);
      chosen := [];
      var i := 0;
      while i < numCases
        invariant 0 <= i && |chosen| == i
        invariant numCases <= 0 ==> i == 0
        invariant numCases > 0 ==> i <= numCases
        invariant i > 0 ==> |diseases| > 0
        invariant CasesFit(relationships, chosen, diseases, allIds)
        invariant CaseIdsBelow(relationships, i)
      {
        if |diseases| == 0 {
          return Err(IndexError), chosen;
        }
        var pick :| 0 <= pick < |diseases|;
        var rows := CaseRelationships(CaseId(i), diseases[pick], allIds);
        ExtendCases(relationships, chosen, rows, pick, diseases, allIds);
        ExtendCaseIds(relationships, rows, i);
        relationships := relationships + rows;
        chosen := chosen + [pick];
        i := i + 1;
      }
      r := Ok(relationships);
    }
  }
}
