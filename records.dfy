/** The rows the pipeline passes between its stages: symptoms, diseases,
    annotated texts and per-case symptom/disease relationships, as the data
    generator writes them and the loader, trainer and evaluator read them. */
module Records {

  /** A symptom mention in a text: the character span [start, end), the text
      of that span, and the symptom it names. */
  datatype Annotation = Annotation(
    start: int,
    end: int,
    text: string,
    symptomId: string,
    negated: bool)

  datatype Symptom = Symptom(
    symptomId: string,
    name: string,
    description: string,
    category: string,
    bodyPart: string,
    severityScale: string,
    commonDuration: string,
    icdCode: string,
    snomedCode: string)

  datatype Disease = Disease(
    diseaseId: string,
    name: string,
    description: string,
    category: string,
    icdCode: string,
    snomedCode: string,
    commonSymptoms: seq<string>,
    requiredSymptoms: seq<string>,
    exclusionarySymptoms: seq<string>,
    prevalence: string,
    severity: string)

  /** One annotated text sample. */
  datatype TextRecord = TextRecord(
    textId: string,
    text: string,
    annotations: seq<Annotation>,
    source: string)

  /** One symptom of one generated case, with the disease the case has. */
  datatype Relationship = Relationship(
    caseId: string,
    diseaseId: string,
    symptomId: string,
    isRequired: bool,
    severity: string,
    duration: string)

  /** A token's character span as the tokenizer reports it in offset_mapping. */
  datatype Offset = Offset(start: nat, end: nat)

  /** Special tokens ([CLS], [SEP], padding) carry the offset (0, 0). */
  predicate IsSpecial(o: Offset)
  {
    o.start == 0 && o.end == 0
  }

  function SymptomIdsOf(symptoms: seq<Symptom>): seq<string>
  {
    seq(|symptoms|, i requires 0 <= i < |symptoms| => symptoms[i].symptomId)
  }

  function DiseaseIdsOf(diseases: seq<Disease>): seq<string>
  {
    seq(|diseases|, i requires 0 <= i < |diseases| => diseases[i].diseaseId)
  }

  function AnnotationIdsOf(anns: seq<Annotation>): seq<string>
  {
    seq(|anns|, i requires 0 <= i < |anns| => anns[i].symptomId)
  }

  function Min(a: int, b: int): int
  {
    if a < b then a else b
  }

  function Max(a: int, b: int): int
  {
    if a < b then b else a
  }
}
