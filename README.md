# Symptom tagging and case encoding of the diagnostic assistant

This project models the integer and string core of the assistant's machine-learning tooling and proves
properties of that model. The core has four parts:

- **BIO encoding.** `symptom_extraction_trainer.py` turns annotated character spans of a complaint text into
  per-character `B-SYMPTOM` / `I-SYMPTOM` / `O` labels and projects them onto token offsets. It also numbers
  the annotated symptom ids in sorted order, builds the NER label maps and fills the multi-hot classification
  matrix.
- **BIO decoding and span matching.** `model_evaluator.py` has two copies of a small state machine that turns
  per-token tags and offsets back into entities. It counts exact and overlapping span matches, builds the true
  multi-hot label matrix and one-hot encodes cases for disease prediction.
- **Case features.** `data_loader.py` groups symptom/disease relationship rows by case, one-hot encodes the
  symptoms of each case and emits one (vector, disease index) row per disease of the case. Its loaders
  dispatch on the file suffix.
- **Synthetic data.** `data_generator.py` generates symptoms, diseases, annotated complaint texts and
  per-case relationship rows. Every random draw is modelled as an arbitrary value within the bounds the code
  passes to `randint`, `choice` and `sample`, so each proved property holds for every outcome.

Modules:

| module | file | models |
|---|---|---|
| `Results` | results.dfy | Python's `IndexError` / `KeyError` / `ValueError` as `Result.Err` |
| `Builtins` | builtins.dfy | the Python built-ins the core relies on |
| `Records` | records.dfy | the shared row types: symptoms, diseases, text records, annotations, relationships, offsets |
| `SymptomExtractionTrainer` | trainer.dfy | the BIO encoder, the label maps and the multi-hot matrix |
| `TagDecoding` | decoder.dfy | the BIO decoder as a function, with its characterisation by `B-` heads |
| `ModelEvaluator` | evaluator.dfy | both decoding loops, match counting and the evaluation encodings |
| `DataLoader` | loader.dfy | the loaders and the case-to-feature-matrix builder |
| `DataGenerator` | generator.dfy | the generator and the invariants its output keeps |
| `BioRoundTrip` | roundtrip.dfy | encoding with one-character tokens and then decoding gives back the annotations |

The Python built-ins in `Builtins` are:

- `sorted(set(...))` and string ordering;
- `enumerate` into a dict and dict inversion;
- pandas `unique`;
- negative list indices;
- slicing, `find`, `lower`, `startswith` and `endswith`;
- `f"{n:03d}"`;
- `random.sample`.

Python's exceptions become `Err` results; nothing is a precondition that the code itself does not demand.
The tokenizer's offsets and the model's arg-max label ids are inputs: sequences, or functions of the text.
The contents of files on disk are a map from path to rows.

## Model

| member | source | states |
|---|---|---|
| Builtins.SortDistinct | symptom_extraction_trainer.py:89 | `sorted(set)`: the result is strictly ascending and holds exactly the elements of the input |
| Builtins.SortedIsDistinct | symptom_extraction_trainer.py:89 | a strictly sorted list has no repeats |
| Builtins.Enumerate | data_loader.py:201-202 | `{x: i for i, x in enumerate(keys)}` maps exactly the keys to a position holding them; with distinct keys each key maps to its own index and the map has one entry per key |
| Builtins.EnumerateSorted | symptom_extraction_trainer.py:89 | numbering a sorted list is injective, preserves the string order, and numbers the keys 0..n-1 |
| Builtins.Invert | symptom_extraction_trainer.py:424 | the inverse of an injective dict is defined exactly on its values and undoes it in both directions |
| Builtins.InvertEnumerateSorted | symptom_extraction_trainer.py:213-214 | inverting the numbering of a sorted list maps each i < n back to the i-th element, and only those i |
| Builtins.Unique | data_loader.py:197-198 | pandas `unique`: no repeats, and exactly the elements of the input |
| Builtins.UniqueFirstAppearance | data_loader.py:197-198 | `unique` lists the elements in order of their first appearance |
| Builtins.PyIndex | symptom_extraction_trainer.py:124 | a Python index into a list of length n is valid iff -n <= i < n, and then denotes i or i + n |
| Builtins.Slice | model_evaluator.py:609 | `text[a:b]` is the substring when the bounds are in range and never longer than the text |
| Builtins.Find | data_generator.py:465 | `str.find` returns -1 when the needle occurs nowhere, and otherwise its first occurrence |
| Builtins.ParseDecimalOfDecimal | data_generator.py:209 | reading back the decimal digits of n gives n |
| Builtins.Pad3Parse | data_generator.py:209 | `f"{n:03d}"` consists of digits only and reads back as n |
| Builtins.FormatIdParse | data_generator.py:209 | after the prefix letter, an id is all digits and reads back as its number |
| Builtins.FormatIdInjective | data_generator.py:209 | different numbers give different ids |
| Builtins.Sample | data_generator.py:357 | `random.sample(population, k)` returns k elements, a sub-multiset of the population, without repeats when the population has none |
| SymptomExtractionTrainer.CollectDistinct | symptom_extraction_trainer.py:84-87 | the set built by the nested loop holds each annotated id once, and exactly the ids of some annotation group |
| SymptomExtractionTrainer.LoadData | symptom_extraction_trainer.py:80-89 | one text and one annotation list per item, in input order; `symptom_to_id` is defined exactly on the annotated ids, numbers them 0..n-1 in sorted order, and is injective and order-preserving |
| SymptomExtractionTrainer.AnnotatedGroups | symptom_extraction_trainer.py:81-87 | an id occurs in some annotation group iff some item annotates it |
| SymptomExtractionTrainer.CharLabels | symptom_extraction_trainer.py:117-129 | the character-label loop computes exactly the specified labels, or `IndexError` |
| SymptomExtractionTrainer.CharLabelsDefined | symptom_extraction_trainer.py:117-129 | labelling succeeds iff every annotation has -n <= start < n and end <= n when start + 1 < end; the only error is `IndexError`; the result has one label per character |
| SymptomExtractionTrainer.CharLabelsAt | symptom_extraction_trainer.py:117-129 | each position's label is what the annotations applied in list order leave there, starting from `O` |
| SymptomExtractionTrainer.MarkAllDefined | symptom_extraction_trainer.py:120-129 | applying annotations in turn succeeds iff each is in range, and keeps the length |
| SymptomExtractionTrainer.MarkAllAt | symptom_extraction_trainer.py:120-129 | after all annotations, a position holds the label the last annotation covering it wrote, or its old label |
| SymptomExtractionTrainer.MarkDefined | symptom_extraction_trainer.py:124-129 | one annotation marks without error iff it is in range, and keeps the length |
| SymptomExtractionTrainer.MarkAt | symptom_extraction_trainer.py:124-129 | one annotation writes `B-SYMPTOM` at start (also through a negative index), `I-SYMPTOM` on start+1..end-1, and leaves every other position as it was |
| SymptomExtractionTrainer.MarkInsideDefined | symptom_extraction_trainer.py:128-129 | the inner loop fails iff it reaches an index past the end |
| SymptomExtractionTrainer.MarkInsideAt | symptom_extraction_trainer.py:128-129 | the inner loop writes `I-SYMPTOM` exactly on its range and nowhere else |
| SymptomExtractionTrainer.MarkAllErr | symptom_extraction_trainer.py:120-129 | marking raises nothing but `IndexError` |
| SymptomExtractionTrainer.MarkErr | symptom_extraction_trainer.py:124-129 | one annotation raises nothing but `IndexError` |
| SymptomExtractionTrainer.MarkInsideErr | symptom_extraction_trainer.py:128-129 | the inner loop raises nothing but `IndexError` |
| SymptomExtractionTrainer.CoverUntouched | symptom_extraction_trainer.py:117-129 | a position that no annotation covers keeps its label, so it stays `O` |
| SymptomExtractionTrainer.CoverIsTag | symptom_extraction_trainer.py:117-129 | every character label is one of `B-SYMPTOM`, `I-SYMPTOM`, `O` |
| SymptomExtractionTrainer.TokenLabels | symptom_extraction_trainer.py:136-142 | the token loop gives one label per offset: `O` for (0,0), otherwise the character label at the token's start; an out-of-range start is an `IndexError` |
| SymptomExtractionTrainer.PrepareNerData | symptom_extraction_trainer.py:95-155 | succeeds iff every (text, annotations) pair of the zip labels and aligns; then one example per pair, in order, each the specified one; failures are `IndexError` |
| SymptomExtractionTrainer.PrepareClassificationData | symptom_extraction_trainer.py:157-180 | the matrix is len(texts) x len(symptom_to_id); entry [i][j] is 1 iff an annotation of text i has the id mapped to j; unmapped ids are ignored; an index outside the matrix is an `IndexError` |
| SymptomExtractionTrainer.NerLabelMaps | symptom_extraction_trainer.py:208-215 | the label list is the sorted distinct token labels; `label_to_id` numbers it 0..n-1 and `id_to_label` is its exact inverse |
| SymptomExtractionTrainer.LabelGroups | symptom_extraction_trainer.py:208-210 | a label is in some example's label list iff some example uses it |
| SymptomExtractionTrainer.Trainer.constructor | symptom_extraction_trainer.py:61 | no symptom labels are recorded yet |
| SymptomExtractionTrainer.Trainer.LoadAndRecordLabels | symptom_extraction_trainer.py:420-424 | records `symptom_to_id` and an `id_to_symptom` that inverts it on 0..n-1 |
| TagDecoding.TagsOf | model_evaluator.py:599-603 | one looked-up label per zipped (prediction, offset) pair |
| TagDecoding.HeadsFrom | model_evaluator.py:599-605 | the positions from i on that hold a non-special `B-` tag |
| TagDecoding.HeadsFromSorted | model_evaluator.py:599-605 | those positions are listed in increasing order |
| TagDecoding.HeadsFromComplete | model_evaluator.py:599-605 | every non-special `B-` position from i on is listed |
| TagDecoding.StepPending | model_evaluator.py:599-624 | one token moves the open entity and the emitted ones forward without changing what is still to be emitted overall |
| TagDecoding.RunEmits | model_evaluator.py:596-630 | running from any decoder state emits the pending entities followed by one entity per remaining `B-` head |
| TagDecoding.DecodeTagsIsEntitiesFrom | model_evaluator.py:596-630 | the state machine's output equals the entity-per-head characterisation |
| TagDecoding.EntitiesFromHeads | model_evaluator.py:605-630 | the k-th entity from i on is the one grown from the k-th `B-` head |
| TagDecoding.DecodeTagsHeads | model_evaluator.py:596-630 | the number of entities is the number of non-special `B-` tokens, in their order, each grown from its head |
| TagDecoding.GrowKeeps | model_evaluator.py:616-619 | `I-` tokens extend an entity without changing its start or its label |
| TagDecoding.DecodeTagsStartsAndTypes | model_evaluator.py:605-619 | each entity starts at its `B-` token's start and carries the tag minus its two-character prefix |
| ModelEvaluator.ExtractSymptoms | model_evaluator.py:596-630 | the `_extract_symptoms` loop yields exactly the decoded entities; a label id missing from `id_to_label` is a `KeyError` |
| ModelEvaluator.GoldEntities | model_evaluator.py:120-128 | the gold-entity loop builds exactly those gold entities |
| ModelEvaluator.CountMatches | model_evaluator.py:177-197 | the counting loops compute the exact and partial match counts over the zipped items |
| ModelEvaluator.CountHits | model_evaluator.py:184-197 | the loop over one text's gold entities counts those with an exact and those with an overlapping prediction |
| ModelEvaluator.MatchEntity | model_evaluator.py:186-197 | each search stops at the first match and reports whether some prediction has the same span, and whether some prediction overlaps |
| ModelEvaluator.MatchesZip | model_evaluator.py:183 | `zip` ignores the items past the shorter list |
| ModelEvaluator.HitsAtMost | model_evaluator.py:184-197 | thanks to `break`, each true entity counts at most once per kind |
| ModelEvaluator.MatchesAtMostTotal | model_evaluator.py:180-197 | exact and partial match counts never exceed `total_true` |
| ModelEvaluator.ExactHitsArePartial | model_evaluator.py:186-197 | an exact hit of a non-empty gold span is also an overlap hit |
| ModelEvaluator.ExactAtMostPartial | model_evaluator.py:177-197 | with non-empty gold spans, exact matches never exceed partial matches |
| ModelEvaluator.TotalPrefix | model_evaluator.py:180 | the total length of a prefix of the items is at most the total length of all of them |
| ModelEvaluator.TotalLength | model_evaluator.py:180-181 | `sum(len(...))` computes the total entity count |
| ModelEvaluator.EvaluateItem | model_evaluator.py:106-173 | for one test text: the gold entities of its annotations and the entities the inline decoder yields, which are exactly the decoded ones; a label id missing from `id_to_label` is a `KeyError` |
| ModelEvaluator.EvaluateNer | model_evaluator.py:106-197 | succeeds iff every text decodes; the inline decoder yields what `_extract_symptoms` yields; the result is the true/predicted totals and the exact/partial counts of those entity lists |
| ModelEvaluator.ClassificationTrueLabels | model_evaluator.py:236-247 | the true-label matrix is len(items) x len(symptom_to_id), 1 exactly where an annotation's id maps to the column; it cannot fail when the map's values are below its size |
| ModelEvaluator.EncodeCase | model_evaluator.py:350-357 | one 0/1 vector of length len(feature_mapping), 1 exactly at the mapped indices of the case's known symptoms; a mapped index outside the vector is an `IndexError` |
| ModelEvaluator.PrepareDiseasePredictionData | model_evaluator.py:344-369 | one vector and one label per case, in order; the label is the mapped disease index, or -1 for an unknown disease |
| DataLoader.ReaderFor | data_loader.py:61-67 | `.csv` selects the CSV reader, `.json` the JSON reader, any other suffix a `ValueError` |
| DataLoader.LoadTable | data_loader.py:45-67 | a missing file gives no rows; an existing one gives its rows iff its suffix is known, and a `ValueError` otherwise |
| DataLoader.GroupOf | data_loader.py:205 | the rows of one case are exactly the relationship rows with that case id |
| DataLoader.GroupOfAppend | data_loader.py:205 | grouping distributes over concatenation |
| DataLoader.GroupOfSingleCase | data_loader.py:205 | rows of a single case form its whole group and no other case's |
| DataLoader.GroupOfAbsent | data_loader.py:205 | a case id no row carries has an empty group |
| DataLoader.CaseVectorOneHot | data_loader.py:210-215 | every entry of a case vector is 0 or 1, and 1 iff some row of that case names that symptom, so cases never mix |
| DataLoader.SymptomVector | data_loader.py:210-215 | the loop that sets vector cells computes exactly the case vector |
| DataLoader.MarksUnique | data_loader.py:211-215 | marking the case's unique symptom ids gives the case vector |
| DataLoader.AppendRow | data_loader.py:218-224 | appending a case's vector and a disease index keeps X and y aligned with the specified rows |
| DataLoader.AllRowsStep | data_loader.py:207-224 | the rows of the first i + 1 cases are those of the first i followed by the rows of case i |
| DataLoader.CaseFeatureRows | data_loader.py:218-224 | one row per distinct known disease of the case, all sharing its vector |
| DataLoader.CasesFeatureRows | data_loader.py:205-224 | X and y hold one row per (case, known disease) pair, each vector that case's one-hot vector |
| DataLoader.FeatureRows | data_loader.py:197-224 | the whole matrix builder, from the tables, yields those rows with the first-appearance numberings |
| DataLoader.CaseRowsMembers | data_loader.py:218-224 | a case contributes (c, i) iff i numbers one of its diseases |
| DataLoader.AllRowsOfCases | data_loader.py:205-224 | the rows are exactly the rows of the listed cases |
| DataLoader.CaseRowsOf | data_loader.py:218-224 | every row of a case carries that case |
| DataLoader.AllRowsMembers | data_loader.py:197-224 | (c, i) is a row iff c is a case and disease i occurs in its group, so every y lies in [0, number of diseases) |
| DataLoader.AllRowsAscending | data_loader.py:205-224 | rows come case by case in ascending case-id order, as `groupby` yields them |
| DataLoader.MedicalDataLoader.constructor | data_loader.py:26-35 | keeps the directory and configuration; no table is loaded |
| DataLoader.MedicalDataLoader.LoadSymptomData | data_loader.py:37-69 | the result is the table read through the suffix dispatch; only a success is stored, and no other table changes |
| DataLoader.MedicalDataLoader.LoadDiseaseData | data_loader.py:71-106 | as for symptoms, for the disease table |
| DataLoader.MedicalDataLoader.LoadSymptomTextData | data_loader.py:108-136 | as for symptoms, for the annotated texts |
| DataLoader.MedicalDataLoader.PrepareSymptomExtractionData | data_loader.py:138-161 | loads the texts only when none are loaded, so with texts already loaded it always succeeds; otherwise it fails exactly when loading the text table fails, and stores the loaded table; returns texts and annotation lists of equal length in row order (empty for an empty table); errors are the loader's `ValueError` |
| DataLoader.MedicalDataLoader.PrepareDiseasePredictionData | data_loader.py:163-226 | loads each table only while it is not loaded (the disease table only after the symptom table loaded) and stores what it loads; fails, with `ValueError`, exactly when a needed load fails or both tables are non-empty and the relationship file exists with an unsupported suffix; empty X and y for an empty symptom or disease table or a missing relationship file; otherwise the rows of the matrix builder over the loaded tables |
| DataGenerator.IcdLetter | data_generator.py:339-350 | A/I/J/K/G for Infectious/Cardiovascular/Respiratory/Gastrointestinal/Neurological, R for every other category |
| DataGenerator.NumberedAppend | data_generator.py:209 | appending the id numbered after the list keeps the numbering |
| DataGenerator.NumberedIdsDistinct | data_generator.py:209 | numbered ids have no repeats |
| DataGenerator.DefaultSymptomsNumbered | data_generator.py:60-116 | the default base symptoms are S001.. in order |
| DataGenerator.DefaultDiseasesNumbered | data_generator.py:131-183 | the default base diseases are D001.. in order |
| DataGenerator.FormatIdOneDigit | data_generator.py:209 | a one-digit number is padded with two zeros |
| DataGenerator.RandInt | data_generator.py:356 | `random.randint(lo, hi)` lies in [lo, hi] |
| DataGenerator.Choice | data_generator.py:432 | `random.choice` returns an element of the list |
| DataGenerator.DrawName | data_generator.py:242 | a name is one listed prefix, a space and one listed suffix |
| DataGenerator.DecimalLength | data_generator.py:253-254 | a number in [10^(k-1), 10^k) has k decimal digits |
| DataGenerator.DrawIcd | data_generator.py:253 | an ICD code is the letter, two digits without a leading zero, a dot and a digit |
| DataGenerator.DrawSnomed | data_generator.py:254 | a SNOMED code is eight digits without a leading zero |
| DataGenerator.GenerateSymptom | data_generator.py:209-267 | the symptom at position i is numbered i + 1 and its category, body part, name, description, durations and codes have the generated shape |
| DataGenerator.Keep | data_generator.py:364-366 | the filter keeps exactly the elements not dropped, without adding repeats |
| DataGenerator.DrawSymptomLists | data_generator.py:356-369 | 2..5 common symptoms from the ids, 1..2 required among the common ones, at most 2 exclusionary ones outside the common ones, all free of repeats when the ids are |
| DataGenerator.RequiredAreCommon | data_generator.py:356-369 | required symptoms are common and known, so never exclusionary |
| DataGenerator.GenerateDisease | data_generator.py:297-393 | the disease at position i is numbered i + 1, its ICD letter follows its category, and its symptom lists fit |
| DataGenerator.ExtendSymptoms | data_generator.py:269 | appending a symptom generated at the next position keeps the base prefix and the numbering |
| DataGenerator.ExtendDiseases | data_generator.py:393 | appending a disease generated at the next position keeps the base prefix and the numbering |
| DataGenerator.NameMap | data_generator.py:413 | `symptom_map` is defined exactly on the symptom ids |
| DataGenerator.NameMapNames | data_generator.py:413 | with distinct ids, each id maps to its own symptom's name |
| DataGenerator.KnownIds | data_generator.py:442 | the selected ids that have a name, in order; all of them when all are named |
| DataGenerator.KnownNames | data_generator.py:442 | the names of those ids, in order |
| DataGenerator.FormatSymptomList | data_generator.py:445-450 | formatting fails with `IndexError` exactly for an empty name list |
| DataGenerator.FormatContains | data_generator.py:445-450 | every name occurs in the formatted phrase |
| DataGenerator.JoinContains | data_generator.py:450 | every element occurs in the joined string |
| DataGenerator.FillContains | data_generator.py:416-457 | the phrase occurs in every filled template |
| DataGenerator.OccursLower | data_generator.py:465 | an occurrence survives lower-casing both strings |
| DataGenerator.OccursWithin | data_generator.py:445-457 | an occurrence inside an occurrence is an occurrence |
| DataGenerator.OccursLeft | data_generator.py:445-457 | an occurrence stays where it was when text is appended |
| DataGenerator.OccursRight | data_generator.py:445-457 | an occurrence shifts by the prefix length when text is prepended |
| DataGenerator.OccursPiece | data_generator.py:445-457 | the middle piece of a concatenation occurs after the head |
| DataGenerator.NamesFound | data_generator.py:442-465 | every named selected symptom is found in the lower-cased text |
| DataGenerator.NameFound | data_generator.py:445-465 | each formatted name is found in the lower-cased filled text |
| DataGenerator.AnnotateSymptom | data_generator.py:461-474 | one symptom's annotation is computed as specified |
| DataGenerator.AnnotateText | data_generator.py:460-474 | the annotation loop yields exactly the specified annotations, in selection order |
| DataGenerator.AnnotationOfFits | data_generator.py:461-474 | an annotation starts at the first case-insensitive occurrence of the name, ends at start + len(name), slices the text exactly, equals the name ignoring case and is not negated |
| DataGenerator.AnnotationsForFit | data_generator.py:460-474 | every annotation of the text fits it and belongs to a selected id |
| DataGenerator.AnnotationsForComplete | data_generator.py:460-474 | when every named id is found, there is one annotation per named selected id, in order; names not found produce none |
| DataGenerator.ExtendSamples | data_generator.py:477-482 | appending a fitting record keeps all records fitting |
| DataGenerator.GenerateTextSample | data_generator.py:430-482 | with the disease drawn and the symptoms drawn from it: `ValueError` exactly when that disease has no common symptoms; otherwise one to min(3, n) symptoms drawn without replacement from its common symptoms, `IndexError` exactly when none of them is named, and else the record T(i+1), synthetic, whose annotations are exactly the named drawn symptoms in draw order, each fitting the text; it cannot fail when every listed symptom is named |
| DataGenerator.DistinctConcat | data_generator.py:515-531 | extending a list by new distinct elements keeps it free of repeats |
| DataGenerator.CaseAvoidsExclusionary | data_generator.py:515-531 | no symptom of a case of a generated disease is exclusionary |
| DataGenerator.SelectCaseSymptoms | data_generator.py:515-531 | the case's symptoms include all required ones, are otherwise common or known non-exclusionary ones, and have no repeats when the lists have none |
| DataGenerator.CaseRelationships | data_generator.py:534-555 | every row carries the case id and the disease id, `is_required` holds exactly for required symptoms, severities and durations are from their lists |
| DataGenerator.GroupOfEarlierCase | data_generator.py:503-555 | appending a new case's rows leaves every earlier case's group unchanged |
| DataGenerator.GroupOfNewCase | data_generator.py:503-555 | the new case's group is exactly its rows |
| DataGenerator.ExtendCaseIds | data_generator.py:503 | after a new case, every row belongs to one of the first n + 1 cases |
| DataGenerator.ExtendCases | data_generator.py:500-555 | appending a fitting case keeps every case's group fitting its disease |
| DataGenerator.SyntheticDataGenerator.constructor | data_generator.py:26-45 | the base lists are the base files' contents, or the defaults when a file is absent |
| DataGenerator.SyntheticDataGenerator.GenerateSymptoms | data_generator.py:186-271 | the base list is an unchanged prefix, the length is max(len(base), num_symptoms), each new symptom has the generated shape, and the S001.. numbering continues |
| DataGenerator.SyntheticDataGenerator.GenerateDiseases | data_generator.py:273-395 | as for symptoms with D-ids; with fewer than 2 symptom ids a generated disease raises `ValueError` |
| DataGenerator.SyntheticDataGenerator.GenerateSymptomTextData | data_generator.py:397-484 | num_samples records T001.., every annotation fitting its text; none for num_samples <= 0; `IndexError` for no diseases; each record annotates exactly the named symptoms drawn from its own drawn disease, and an error is the outcome of the last draw (`ValueError` for a disease without common symptoms, `IndexError` for a draw with no named symptom) |
| DataGenerator.SyntheticDataGenerator.GenerateSymptomDiseaseRelationships | data_generator.py:486-557 | cases C001.. up to num_cases, each grouped by its id, each holding every required symptom of its drawn disease, no symptom twice, no exclusionary extras; `IndexError` exactly when cases are requested from no diseases |
| BioRoundTrip.OneCharOffsets | symptom_extraction_trainer.py:136-142 | one-character tokens have offsets (i, i+1) |
| BioRoundTrip.CoverAtSpan | symptom_extraction_trainer.py:120-129 | with disjoint annotations, a position inside a span is `B-SYMPTOM` at its start and `I-SYMPTOM` after |
| BioRoundTrip.CoverOutside | symptom_extraction_trainer.py:117-129 | with disjoint annotations, a position outside every span keeps its label |
| BioRoundTrip.LabelCases | symptom_extraction_trainer.py:117-129 | each position is outside all spans and `O`, or inside exactly the span that labels it |
| BioRoundTrip.EndNotInside | symptom_extraction_trainer.py:120-129 | the position just after a span is never `I-SYMPTOM`, so the decoder closes the entity there |
| BioRoundTrip.GrowSpan | model_evaluator.py:616-619 | the `I-` tokens of a span grow its entity to exactly the span's text and end |
| BioRoundTrip.EntityAtStart | model_evaluator.py:605-624 | each annotation's start is a `B-` head whose entity is that annotation's span |
| BioRoundTrip.HeadIsStart | model_evaluator.py:605-614 | every `B-` head is some annotation's start |
| BioRoundTrip.HeadCount | model_evaluator.py:596-630 | there are as many heads as annotations |
| BioRoundTrip.DecodedAreSpans | model_evaluator.py:596-630 | every decoded entity is an annotation's span, in head order |
| BioRoundTrip.SpansAreDecoded | model_evaluator.py:596-630 | every annotation's span is decoded |
| BioRoundTrip.DecodeLabels | model_evaluator.py:596-630 | decoding the labels of disjoint annotations recovers them: one entity per annotation, in start order, label `SYMPTOM`, text equal to `text[start:end]` |
| BioRoundTrip.RoundTrip | symptom_extraction_trainer.py:117-142 | encoding non-empty disjoint annotations with one-character tokens succeeds and decoding the token labels recovers exactly those spans in start order |
| BioRoundTrip.RoundTripExtract | model_evaluator.py:596-630 | a predictor that reproduces the encoded labels makes `_extract_symptoms` return exactly the annotated spans |

## Left out

- Authentication, account lockout, reset tokens and permissions: no source file implements them.
- Transformer and torch inference, the tokenizer and sklearn (training, `predict`, scalers, calibration,
  `train_test_split`): these are foreign libraries. The tokenizer's offsets and the model's arg-max label ids
  are inputs.
- Floating-point metrics: precision, recall, F1, accuracy, ROC AUC, the 0.5 threshold, the fractions in
  `split_data` (data_loader.py:228) and the best-model choice in model_trainer.py. The model stops at the
  integer counts they are computed from.
- File and serialisation I/O:
  - reading CSV and JSON;
  - `json.loads` of annotation strings;
  - `save_data`, `save_processed_data`, `np.save`, pickling and the `latest` symlink.

  File contents are a map from path to rows, and CSV and JSON files of one table are taken to yield the same
  rows. `os.path.join` is concatenation with one `/`.
- The base-file loaders of the generator (data_generator.py:47-184): a base file's parsed contents are an
  optional constructor argument. The default lists are modelled.
- Logging and `print` output, which change no result.
- model_trainer.py, train_pipeline.py and streamlit_app.py: an estimator wrapper, orchestration and a UI
  with no logic of the core.
- Random seeding and distributions: each draw is an arbitrary value within its bounds, so the properties hold
  for all outcomes, but nothing is said about probabilities or reproducibility. The disease drawn for each
  case is a ghost output of `GenerateSymptomDiseaseRelationships`.
- Builtins.Lower: maps ASCII letters only; Python's `str.lower` also folds other Unicode letters.
- Builtins.Invert: requires the map to be injective. Every map the core inverts is an enumeration, which is
  proved injective; a non-injective dict (where Python keeps the last key) is not modelled.
- Builtins.FormatId: its contract states only the shape (prefix letter, at least four characters). The
  read-back and injectivity are the separate lemmas `FormatIdParse` and `FormatIdInjective`.
- Builtins.Pad3: its contract states only the length. The read-back is the lemma `Pad3Parse`.
- SymptomExtractionTrainer.PrepareNerData: tokenizer truncation (`max_length`), `input_ids` and
  `attention_mask` belong to the tokenizer and are carried through unexamined.
- SymptomExtractionTrainer.PrepareClassificationData: numpy fills a float matrix; the model uses an integer
  matrix of 0 and 1.
- ModelEvaluator.EvaluateNer: the model's batch shape (`predictions[0]`) and the tensor `argmax` are folded
  into the `predict` input.
- DataGenerator.SyntheticDataGenerator.GenerateDiseases: its contract does not say which disease raises the
  `ValueError` when there are fewer than two symptom ids; any disease generated past the base list raises it.
- DataGenerator.SyntheticDataGenerator.GenerateSymptomTextData: it does not state the text templates word
  for word; it states what the annotations promise about the text.
- DataLoader.MedicalDataLoader.PrepareDiseasePredictionData: a JSON relationship file holding `[]` gives a
  data frame with no `case_id` column, so `groupby('case_id')` (data_loader.py:205) raises `KeyError`; the
  model has no columns and returns empty X and y for it.
- ModelEvaluator.EncodeCase: numpy's float zeros vector is modelled as a vector of integers 0 and 1.
- ModelEvaluator.PrepareDiseasePredictionData: the float feature matrix is modelled as integer rows of 0
  and 1.
- DataLoader.SymptomVector: `np.zeros` gives floats; the model's vector holds the integers 0 and 1.
