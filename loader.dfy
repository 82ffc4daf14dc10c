/** The medical data loader: reading the symptom, disease and annotated-text
    tables by file suffix, the (texts, annotations) pair for symptom
    extraction, and the (X, y) feature matrix for disease prediction, built by
    grouping symptom/disease relationship rows by case. Files are a parameter:
    a map from path to the rows the CSV or JSON reader would produce. */
module DataLoader {
  import opened Results
  import opened Builtins
  import opened Records

  // ---------------------------------------------------------------------------
  // Files
  // ---------------------------------------------------------------------------

  /** The file system as the loader sees it: the existing files of each kind
      and the rows either reader produces for them. */
  datatype Disk = Disk(
    symptomFiles: map<string, seq<Symptom>>,
    diseaseFiles: map<string, seq<Disease>>,
    textFiles: map<string, seq<TextRecord>>,
    relationshipFiles: map<string, seq<Relationship>>)

  /** The file names the configuration gives for the four tables. */
  datatype DataConfig = DataConfig(
    symptomDataFile: string,
    diseaseDataFile: string,
    symptomTextDataFile: string,
    relationshipFile: string)

  datatype Reader = CsvReader | JsonReader

  /** The reader a file name selects: ".csv" the CSV reader, ".json" the JSON
      reader, anything else ValueError. */
  function ReaderFor(path: string): (r: Result<Reader>)
    ensures r.Err? ==> r.error == ValueError
    ensures r.Ok? <==> EndsWith(path, ".csv") || EndsWith(path, ".json")
    ensures r == Ok(CsvReader) <==> EndsWith(path, ".csv")
  {
    if EndsWith(path, ".csv") then Ok(CsvReader)
    else if EndsWith(path, ".json") then Ok(JsonReader)
    else Err(ValueError)
  }

  /** What loading a table yields: no rows for a missing file, the rows for a
      file with a known suffix, ValueError otherwise. Both readers yield the
      same rows. */
  function LoadTable<T>(files: map<string, seq<T>>, path: string): (r: Result<seq<T>>)
    ensures path !in files ==> r == Ok([])
    ensures path in files ==> (r.Ok? <==> ReaderFor(path).Ok?)
    ensures r.Ok? && path in files ==> r.value == files[path]
    ensures r.Err? ==> r.error == ValueError
  {
    if path !in files then Ok([])
    else match ReaderFor(path)
      case Err(e) => Err(e)
      case Ok(_) => Ok(files[path])
  }

  /** A table field after a prepare_* step that calls its load_* method only
      while the field is None: a loaded table is kept, a successful load stores
      its rows and a failed load leaves the field None. */
  function AfterLoad<T>(current: Option<seq<T>>, files: map<string, seq<T>>, path: string): Option<seq<T>>
  {
    if current.Some? then current
    else match LoadTable(files, path)
      case Ok(rows) => Some(rows)
      case Err(_) => None
  }

  /** os.path.join for a relative file name. */
  function Join(dir: string, name: string): string
  {
    dir + "/" + name
  }

  // ---------------------------------------------------------------------------
  // Grouping relationship rows by case
  // ---------------------------------------------------------------------------

  /** The rows of one case, in file order. */
  function GroupOf(rels: seq<Relationship>, caseId: string): (g: seq<Relationship>)
    ensures forall r :: r in g <==> r in rels && r.caseId == caseId
  {
    if |rels| == 0 then []
    else
      var last := rels[|rels| - 1];
      assert rels == rels[..|rels| - 1] + [last];
      GroupOf(rels[..|rels| - 1], caseId) + (if last.caseId == caseId then [last] else [])
  }

  lemma {:induction false} GroupOfAppend(a: seq<Relationship>, b: seq<Relationship>, caseId: string)
    ensures GroupOf(a + b, caseId) == GroupOf(a, caseId) + GroupOf(b, caseId)
    decreases |b|
  {
    if |b| > 0 {
      assert (a + b)[..|a + b| - 1] == a + b[..|b| - 1];
      GroupOfAppend(a, b[..|b| - 1], caseId);
    } else {
      assert a + b == a;
    }
  }

  /** Rows that all belong to one case form that case's whole group. */
  lemma {:induction false} GroupOfSingleCase(rows: seq<Relationship>, caseId: string, other: string)
    requires forall r :: r in rows ==> r.caseId == caseId
    ensures GroupOf(rows, caseId) == rows
    ensures other != caseId ==> GroupOf(rows, other) == []
  {
    if |rows| > 0 {
      assert rows == rows[..|rows| - 1] + [rows[|rows| - 1]];
      GroupOfSingleCase(rows[..|rows| - 1], caseId, other);
    }
  }

  /** A case id that no row carries has an empty group. */
  lemma {:induction false} GroupOfAbsent(rels: seq<Relationship>, caseId: string)
    requires forall r :: r in rels ==> r.caseId != caseId
    ensures GroupOf(rels, caseId) == []
  {
    if |rels| > 0 {
      assert rels == rels[..|rels| - 1] + [rels[|rels| - 1]];
      GroupOfAbsent(rels[..|rels| - 1], caseId);
    }
  }

  function CaseIdsIn(rels: seq<Relationship>): seq<string>
  {
    seq(|rels|, i requires 0 <= i < |rels| => rels[i].caseId)
  }

  function SymptomIdsIn(rels: seq<Relationship>): seq<string>
  {
    seq(|rels|, i requires 0 <= i < |rels| => rels[i].symptomId)
  }

  function DiseaseIdsIn(rels: seq<Relationship>): seq<string>
  {
    seq(|rels|, i requires 0 <= i < |rels| => rels[i].diseaseId)
  }

  /** The one-hot vector of a case: entry p is 1 exactly when the case has the
      p-th known symptom. */
  function CaseVector(allSymptoms: seq<string>, group: seq<Relationship>): (v: seq<int>)
    ensures |v| == |allSymptoms|
  {
    seq(|allSymptoms|, p requires 0 <= p < |allSymptoms| =>
      if allSymptoms[p] in SymptomIdsIn(group) then 1 else 0)
  }

  /** A case vector is one-hot over the symptom table: entry p is 1 exactly
      when some relationship row of the case names the p-th symptom, else 0. */
  lemma CaseVectorOneHot(allSymptoms: seq<string>, rels: seq<Relationship>, c: string, p: nat)
    requires p < |allSymptoms|
    ensures CaseVector(allSymptoms, GroupOf(rels, c))[p] in {0, 1}
    ensures CaseVector(allSymptoms, GroupOf(rels, c))[p] == 1 <==>
              exists r :: r in rels && r.caseId == c && r.symptomId == allSymptoms[p]
  {
    var group := GroupOf(rels, c);
    if exists r :: r in rels && r.caseId == c && r.symptomId == allSymptoms[p] {
      var r :| r in rels && r.caseId == c && r.symptomId == allSymptoms[p];
      var k :| 0 <= k < |group| && group[k] == r;
      assert SymptomIdsIn(group)[k] == allSymptoms[p];
    } else {
      forall k | 0 <= k < |group|
        ensures SymptomIdsIn(group)[k] != allSymptoms[p]
      {
        assert group[k] in rels;
      }
      assert allSymptoms[p] !in SymptomIdsIn(group);
    }
  }

  /** The (case, disease index) of the rows one case contributes: one per
      distinct disease of the case that the disease table knows, in order. */
  function CaseRows(caseId: string, diseases: seq<string>, diseaseToIdx: map<string, nat>): seq<(string, nat)>
  {
    if |diseases| == 0 then []
    else
      var d := diseases[|diseases| - 1];
      CaseRows(caseId, diseases[..|diseases| - 1], diseaseToIdx) +
      (if d in diseaseToIdx then [(caseId, diseaseToIdx[d])] else [])
  }

  /** The (case, disease index) of every row of (X, y), cases in the order
      given. */
  function AllRows(caseIds: seq<string>, rels: seq<Relationship>, diseaseToIdx: map<string, nat>): seq<(string, nat)>
  {
    if |caseIds| == 0 then []
    else
      var c := caseIds[|caseIds| - 1];
      AllRows(caseIds[..|caseIds| - 1], rels, diseaseToIdx) +
      CaseRows(c, Unique(DiseaseIdsIn(GroupOf(rels, c))), diseaseToIdx)
  }

  /** X and y as prepare_disease_prediction_data returns them. */
  datatype Features = Features(x: seq<seq<int>>, y: seq<nat>)

  /** Row k of (X, y) is the vector of case rows[k].0 and disease index rows[k].1. */
  predicate RowsMatch(x: seq<seq<int>>, y: seq<nat>, rows: seq<(string, nat)>, allSymptoms: seq<string>,
                      rels: seq<Relationship>)
  {
    |x| == |rows| && |y| == |rows| &&
    forall k :: 0 <= k < |rows| ==>
      y[k] == rows[k].1 && x[k] == CaseVector(allSymptoms, GroupOf(rels, rows[k].0))
  }

  lemma AppendRow(x: seq<seq<int>>, y: seq<nat>, rows: seq<(string, nat)>, allSymptoms: seq<string>,
                  rels: seq<Relationship>, v: seq<int>, c: string, d: nat)
    requires RowsMatch(x, y, rows, allSymptoms, rels)
    requires v == CaseVector(allSymptoms, GroupOf(rels, c))
    ensures RowsMatch(x + [v], y + [d], rows + [(c, d)], allSymptoms, rels)
  {
  }

  /** The heart of prepare_disease_prediction_data: index maps over the
      distinct symptom and disease ids in order of first appearance, groups of
      relationship rows by case id (sorted, as groupby does), and per case one
      row per distinct known disease, all sharing the case's one-hot vector. */
  method FeatureRows(symptoms: seq<Symptom>, diseases: seq<Disease>, rels: seq<Relationship>)
    returns (r: Features)
    ensures RowsMatch(r.x, r.y, AllRows(SortDistinct(CaseIdsIn(rels)), rels, Enumerate(Unique(DiseaseIdsOf(diseases)))),
                      Unique(SymptomIdsOf(symptoms)), rels)
  {
    var allSymptoms := Unique(SymptomIdsOf(symptoms));
    var allDiseases := Unique(DiseaseIdsOf(diseases));
    var caseIds := SortDistinct(CaseIdsIn(rels));
    r := CasesFeatureRows(caseIds, rels, allSymptoms, Enumerate(allSymptoms), Enumerate(allDiseases));
  }

  /** The rows of the given cases, in order. */
  method CasesFeatureRows(caseIds: seq<string>, rels: seq<Relationship>, allSymptoms: seq<string>,
                          symptomToIdx: map<string, nat>, diseaseToIdx: map<string, nat>)
    returns (r: Features)
    requires Distinct(allSymptoms) && symptomToIdx == Enumerate(allSymptoms)
    ensures RowsMatch(r.x, r.y, AllRows(caseIds, rels, diseaseToIdx), allSymptoms, rels)
  {
    ghost var rows: seq<(string, nat)> := [];
    var x: seq<seq<int>> := [];
    var y: seq<nat> := [];
    for i := 0 to |caseIds|
      invariant rows == AllRows(caseIds[..i], rels, diseaseToIdx)
      invariant RowsMatch(x, y, rows, allSymptoms, rels)
    {
      var c := caseIds[i];
      var group := GroupOf(rels, c);
      var vector := SymptomVector(allSymptoms, symptomToIdx, group);
      AllRowsStep(caseIds, i, rels, diseaseToIdx);
      x, y := CaseFeatureRows(x, y, rows, allSymptoms, rels, vector, c, diseaseToIdx);
      rows := rows + CaseRows(c, Unique(DiseaseIdsIn(group)), diseaseToIdx);
    }
    assert caseIds[..|caseIds|] == caseIds;
    r := Features(x, y);
  }

  lemma AllRowsStep(caseIds: seq<string>, i: nat, rels: seq<Relationship>, diseaseToIdx: map<string, nat>)
    requires i < |caseIds|
    ensures AllRows(caseIds[..i + 1], rels, diseaseToIdx) ==
            AllRows(caseIds[..i], rels, diseaseToIdx) +
            CaseRows(caseIds[i], Unique(DiseaseIdsIn(GroupOf(rels, caseIds[i]))), diseaseToIdx)
  {
    assert caseIds[..i + 1][..i] == caseIds[..i];
  }

  /** Appends one case's rows: the case vector once per distinct disease of the
      case that the disease index knows. */
  method CaseFeatureRows(x: seq<seq<int>>, y: seq<nat>, ghost rows: seq<(string, nat)>, allSymptoms: seq<string>,
                         rels: seq<Relationship>, vector: seq<int>, c: string, diseaseToIdx: map<string, nat>)
    returns (x': seq<seq<int>>, y': seq<nat>)
    requires RowsMatch(x, y, rows, allSymptoms, rels)
    requires vector == CaseVector(allSymptoms, GroupOf(rels, c))
    ensures RowsMatch(x', y', rows + CaseRows(c, Unique(DiseaseIdsIn(GroupOf(rels, c))), diseaseToIdx), allSymptoms, rels)
  {
    var groupDiseases := Unique(DiseaseIdsIn(GroupOf(rels, c)));
    x', y' := x, y;
    ghost var rows' := rows;
    for j := 0 to |groupDiseases|
      invariant rows' == rows + CaseRows(c, groupDiseases[..j], diseaseToIdx)
      invariant RowsMatch(x', y', rows', allSymptoms, rels)
    {
      var d := groupDiseases[j];
      assert groupDiseases[..j + 1][..j] == groupDiseases[..j];
      if d in diseaseToIdx {
        var diseaseIdx := diseaseToIdx[d];
        AppendRow(x', y', rows', allSymptoms, rels, vector, c, diseaseIdx);
        x' := x' + [vector];
        y' := y' + [diseaseIdx];
        rows' := rows' + [(c, diseaseIdx)];
      }
    }
    assert groupDiseases[..|groupDiseases|] == groupDiseases;
  }

  /** Entry p is 1 exactly when the p-th known symptom is among ps. */
  function Marks(allSymptoms: seq<string>, ps: seq<string>): (v: seq<int>)
    ensures |v| == |allSymptoms|
  {
    seq(|allSymptoms|, p requires 0 <= p < |allSymptoms| => if allSymptoms[p] in ps then 1 else 0)
  }

  /** Marking one more symptom sets the one entry that holds it. */
  lemma MarksSet(allSymptoms: seq<string>, ps: seq<string>, s: string, idx: nat)
    requires idx < |allSymptoms| && allSymptoms[idx] == s
    requires forall p :: 0 <= p < |allSymptoms| && allSymptoms[p] == s ==> p == idx
    ensures Marks(allSymptoms, ps + [s]) == Marks(allSymptoms, ps)[idx := 1]
  {
    var before, after := Marks(allSymptoms, ps), Marks(allSymptoms, ps + [s]);
    forall p | 0 <= p < |allSymptoms|
      ensures after[p] == before[idx := 1][p]
    {
      assert allSymptoms[p] in ps + [s] <==> allSymptoms[p] in ps || allSymptoms[p] == s;
    }
  }

  /** Marking a symptom that is not known changes nothing. */
  lemma MarksSkip(allSymptoms: seq<string>, ps: seq<string>, s: string)
    requires s !in allSymptoms
    ensures Marks(allSymptoms, ps + [s]) == Marks(allSymptoms, ps)
  {
    var before, after := Marks(allSymptoms, ps), Marks(allSymptoms, ps + [s]);
    forall p | 0 <= p < |allSymptoms|
      ensures after[p] == before[p]
    {
      assert allSymptoms[p] in ps + [s] <==> allSymptoms[p] in ps || allSymptoms[p] == s;
    }
  }

  /** One case's vector: zeros, then a one at the index of each distinct
      symptom of the case that the symptom table knows. */
  method SymptomVector(allSymptoms: seq<string>, symptomToIdx: map<string, nat>, group: seq<Relationship>)
    returns (v: seq<int>)
    requires Distinct(allSymptoms) && symptomToIdx == Enumerate(allSymptoms)
    ensures v == CaseVector(allSymptoms, group)
  {
    var vector := new int[|allSymptoms|](_ => 0);
    var present := Unique(SymptomIdsIn(group));
    assert vector[..] == Marks(allSymptoms, present[..0]);
    for q := 0 to |present|
      invariant vector[..] == Marks(allSymptoms, present[..q])
    {
      var s := present[q];
      assert present[..q + 1] == present[..q] + [s];
      if s in symptomToIdx {
        EnumerateHit(allSymptoms, s);
        MarksSet(allSymptoms, present[..q], s, symptomToIdx[s]);
        vector[symptomToIdx[s]] := 1;
      } else {
        MarksSkip(allSymptoms, present[..q], s);
      }
    }
    assert present[..|present|] == present;
    v := vector[..];
    MarksUnique(allSymptoms, group);
  }

  /** A distinct list's index map points at the one position holding the key. */
  lemma EnumerateHit(allSymptoms: seq<string>, s: string)
    requires Distinct(allSymptoms) && s in Enumerate(allSymptoms)
    ensures Enumerate(allSymptoms)[s] < |allSymptoms| && allSymptoms[Enumerate(allSymptoms)[s]] == s
    ensures forall p :: 0 <= p < |allSymptoms| && allSymptoms[p] == s ==> p == Enumerate(allSymptoms)[s]
  {
  }

  /** Marking the distinct symptoms of a case gives the case vector. */
  lemma MarksUnique(allSymptoms: seq<string>, group: seq<Relationship>)
    ensures Marks(allSymptoms, Unique(SymptomIdsIn(group))) == CaseVector(allSymptoms, group)
  {
  }

  /** The rows one case contributes are exactly its known diseases, by index. */
  lemma {:induction false} CaseRowsMembers(c: string, diseases: seq<string>, ds: seq<string>)
    requires Distinct(ds)
    ensures forall c': string, i: nat :: (c', i) in CaseRows(c, diseases, Enumerate(ds)) <==>
              c' == c && i < |ds| && ds[i] in diseases
  {
    var m := Enumerate(ds);
    if |diseases| > 0 {
      var init, d := diseases[..|diseases| - 1], diseases[|diseases| - 1];
      CaseRowsMembers(c, init, ds);
      assert diseases == init + [d];
      forall c': string, i: nat
        ensures (c', i) in CaseRows(c, diseases, m) <==> c' == c && i < |ds| && ds[i] in diseases
      {
        if i < |ds| && ds[i] == d {
          assert m[ds[i]] == i;
        }
      }
    }
  }

  /** The rows of a list of cases are the rows each of those cases contributes. */
  lemma {:induction false} AllRowsOfCases(caseIds: seq<string>, rels: seq<Relationship>, m: map<string, nat>)
    ensures forall c: string, i: nat :: (c, i) in AllRows(caseIds, rels, m) <==>
              c in caseIds && (c, i) in CaseRows(c, Unique(DiseaseIdsIn(GroupOf(rels, c))), m)
  {
    if |caseIds| > 0 {
      var init, c := caseIds[..|caseIds| - 1], caseIds[|caseIds| - 1];
      AllRowsOfCases(init, rels, m);
      assert caseIds == init + [c];
      forall c': string, i: nat | (c', i) in CaseRows(c, Unique(DiseaseIdsIn(GroupOf(rels, c))), m)
        ensures c' == c
      {
        CaseRowsOf(c, Unique(DiseaseIdsIn(GroupOf(rels, c))), m, c', i);
      }
    }
  }

  lemma {:induction false} CaseRowsOf(c: string, diseases: seq<string>, m: map<string, nat>, c': string, i: nat)
    requires (c', i) in CaseRows(c, diseases, m)
    ensures c' == c
  {
    if |diseases| > 0 && (c', i) in CaseRows(c, diseases[..|diseases| - 1], m) {
      CaseRowsOf(c, diseases[..|diseases| - 1], m, c', i);
    }
  }

  /** Every row of (X, y) is a case of the list with one of its known
      diseases, and every such pair is a row: labels index the disease table. */
  lemma AllRowsMembers(caseIds: seq<string>, rels: seq<Relationship>, ds: seq<string>)
    requires Distinct(ds)
    ensures forall c: string, i: nat :: (c, i) in AllRows(caseIds, rels, Enumerate(ds)) <==>
              c in caseIds && i < |ds| && ds[i] in DiseaseIdsIn(GroupOf(rels, c))
  {
    AllRowsOfCases(caseIds, rels, Enumerate(ds));
    forall c: string, i: nat
      ensures (c, i) in AllRows(caseIds, rels, Enumerate(ds)) <==>
              c in caseIds && i < |ds| && ds[i] in DiseaseIdsIn(GroupOf(rels, c))
    {
      CaseRowsMembers(c, Unique(DiseaseIdsIn(GroupOf(rels, c))), ds);
    }
  }

  /** Rows of one case are adjacent and cases come in ascending order. */
  predicate CasesAscending(rows: seq<(string, nat)>)
  {
    forall k, l :: 0 <= k < l < |rows| ==> rows[k].0 == rows[l].0 || Less(rows[k].0, rows[l].0)
  }

  /** groupby visits the cases in sorted order, so (X, y) lists each case's
      rows together, cases in ascending order of case id. */
  lemma {:induction false} AllRowsAscending(caseIds: seq<string>, rels: seq<Relationship>, m: map<string, nat>)
    requires StrictlySorted(caseIds)
    ensures CasesAscending(AllRows(caseIds, rels, m))
  {
    if |caseIds| > 0 {
      var init, c := caseIds[..|caseIds| - 1], caseIds[|caseIds| - 1];
      var front, back := AllRows(init, rels, m), CaseRows(c, Unique(DiseaseIdsIn(GroupOf(rels, c))), m);
      var rows := AllRows(caseIds, rels, m);
      assert rows == front + back;
      AllRowsAscending(init, rels, m);
      AllRowsOfCases(init, rels, m);
      forall k, l | 0 <= k < l < |rows|
        ensures rows[k].0 == rows[l].0 || Less(rows[k].0, rows[l].0)
      {
        if l >= |front| {
          CaseRowsOf(c, Unique(DiseaseIdsIn(GroupOf(rels, c))), m, rows[l].0, rows[l].1);
          if k >= |front| {
            CaseRowsOf(c, Unique(DiseaseIdsIn(GroupOf(rels, c))), m, rows[k].0, rows[k].1);
          } else {
            assert front[k] in front;
            var idx :| 0 <= idx < |init| && init[idx] == front[k].0;
            assert caseIds[idx] == init[idx];
          }
        }
      }
    }
  }

  // ---------------------------------------------------------------------------
  // The loader object
  // ---------------------------------------------------------------------------

  class MedicalDataLoader {
    const dataDir: string
    const config: DataConfig
    var symptomData: Option<seq<Symptom>>
    var diseaseData: Option<seq<Disease>>
    var symptomTextData: Option<seq<TextRecord>>

    constructor (dataDir: string, config: DataConfig)
      ensures this.dataDir == dataDir && this.config == config
      ensures symptomData == None && diseaseData == None && symptomTextData == None
    {
      this.dataDir := dataDir;
      this.config := config;
      symptomData := None;
      diseaseData := None;
      symptomTextData := None;
    }

    function SymptomPath(): string
    {
      Join(dataDir, config.symptomDataFile)
    }

    function DiseasePath(): string
    {
      Join(dataDir, config.diseaseDataFile)
    }

    function TextPath(): string
    {
      Join(dataDir, config.symptomTextDataFile)
    }

    function RelationshipPath(): string
    {
      Join(dataDir, config.relationshipFile)
    }

    /** load_symptom_data: the table (empty for a missing file) is kept in
        symptomData and returned; an unknown suffix raises and keeps the field. */
    method LoadSymptomData(disk: Disk) returns (r: Result<seq<Symptom>>)
      modifies this
      ensures r == LoadTable(disk.symptomFiles, SymptomPath())
      ensures symptomData == if r.Ok? then Some(r.value) else old(symptomData)
      ensures diseaseData == old(diseaseData) && symptomTextData == old(symptomTextData)
    {
      var path := Join(dataDir, config.symptomDataFile);
      if path !in disk.symptomFiles {
        symptomData := Some([]);
        return Ok([]);
      }
      if EndsWith(path, ".csv") {
        symptomData := Some(disk.symptomFiles[path]);
      } else if EndsWith(path, ".json") {
        symptomData := Some(disk.symptomFiles[path]);
      } else {
        return Err(ValueError);
      }
      r := Ok(symptomData.value);
    }

    /** load_disease_data, as load_symptom_data for the disease table. */
    method LoadDiseaseData(disk: Disk) returns (r: Result<seq<Disease>>)
      modifies this
      ensures r == LoadTable(disk.diseaseFiles, DiseasePath())
      ensures diseaseData == if r.Ok? then Some(r.value) else old(diseaseData)
      ensures symptomData == old(symptomData) && symptomTextData == old(symptomTextData)
    {
      var path := Join(dataDir, config.diseaseDataFile);
      if path !in disk.diseaseFiles {
        diseaseData := Some([]);
        return Ok([]);
      }
      if EndsWith(path, ".csv") {
        diseaseData := Some(disk.diseaseFiles[path]);
      } else if EndsWith(path, ".json") {
        diseaseData := Some(disk.diseaseFiles[path]);
      } else {
        return Err(ValueError);
      }
      r := Ok(diseaseData.value);
    }

    /** load_symptom_text_data, as load_symptom_data for the annotated texts. */
    method LoadSymptomTextData(disk: Disk) returns (r: Result<seq<TextRecord>>)
      modifies this
      ensures r == LoadTable(disk.textFiles, TextPath())
      ensures symptomTextData == if r.Ok? then Some(r.value) else old(symptomTextData)
      ensures symptomData == old(symptomData) && diseaseData == old(diseaseData)
    {
      var path := Join(dataDir, config.symptomTextDataFile);
      if path !in disk.textFiles {
        symptomTextData := Some([]);
        return Ok([]);
      }
      if EndsWith(path, ".csv") {
        symptomTextData := Some(disk.textFiles[path]);
      } else if EndsWith(path, ".json") {
        symptomTextData := Some(disk.textFiles[path]);
      } else {
        return Err(ValueError);
      }
      r := Ok(symptomTextData.value);
    }

    /** prepare_symptom_extraction_data: loads the texts if not loaded yet,
        then returns the text column and the annotation column, row by row
        ([] and [] for an empty table). */
    method PrepareSymptomExtractionData(disk: Disk) returns (r: Result<(seq<string>, seq<seq<Annotation>>)>)
      modifies this
      ensures old(symptomTextData).Some? ==> symptomTextData == old(symptomTextData)
      ensures old(symptomTextData).None? ==>
                var loaded := LoadTable(disk.textFiles, TextPath());
                (r.Err? <==> loaded.Err?) && (loaded.Ok? ==> symptomTextData == Some(loaded.value))
      ensures old(symptomTextData).Some? ==> r.Ok?
      ensures r.Err? ==> r.error == ValueError
      ensures r.Ok? ==> symptomTextData.Some?
      ensures r.Ok? ==> |r.value.0| == |symptomTextData.value| && |r.value.1| == |symptomTextData.value|
      ensures r.Ok? ==> forall i :: 0 <= i < |symptomTextData.value| ==>
                r.value.0[i] == symptomTextData.value[i].text &&
                r.value.1[i] == symptomTextData.value[i].annotations
      ensures symptomData == old(symptomData) && diseaseData == old(diseaseData)
    {
      if symptomTextData.None? {
        var loaded := LoadSymptomTextData(disk);
        if loaded.Err? {
          return Err(loaded.error);
        }
      }
      var table := symptomTextData.value;
      if |table| == 0 {
        return Ok(([], []));
      }
      var texts := seq(|table|, i requires 0 <= i < |table| => table[i].text);
      var annotations: seq<seq<Annotation>> := [];
      for i := 0 to |table|
        invariant |annotations| == i
        invariant forall u :: 0 <= u < i ==> annotations[u] == table[u].annotations
      {
        annotations := annotations + [table[i].annotations];
      }
      r := Ok((texts, annotations));
    }

    /** prepare_disease_prediction_data: loads the symptom and disease tables
        if not loaded yet; with either empty, or with no relationship file,
        X and y are empty; an unknown relationship file suffix raises;
        otherwise (X, y) are FeatureRows of the tables and relationships. */
    method PrepareDiseasePredictionData(disk: Disk) returns (r: Result<Features>)
      modifies this
      ensures old(symptomData).Some? ==> symptomData == old(symptomData)
      ensures old(diseaseData).Some? ==> diseaseData == old(diseaseData)
      ensures symptomTextData == old(symptomTextData)
      ensures symptomData == AfterLoad(old(symptomData), disk.symptomFiles, SymptomPath())
      ensures diseaseData == if symptomData.None? then old(diseaseData)
                             else AfterLoad(old(diseaseData), disk.diseaseFiles, DiseasePath())
      ensures r.Err? <==>
                symptomData.None? || diseaseData.None? ||
                (|symptomData.value| > 0 && |diseaseData.value| > 0 &&
                 RelationshipPath() in disk.relationshipFiles && ReaderFor(RelationshipPath()).Err?)
      ensures r.Err? ==> r.error == ValueError
      ensures r.Ok? ==> symptomData.Some? && diseaseData.Some?
      ensures r.Ok? && (|symptomData.value| == 0 || |diseaseData.value| == 0) ==> r.value == Features([], [])
      ensures r.Ok? && RelationshipPath() !in disk.relationshipFiles ==> r.value == Features([], [])
      ensures r.Ok? && |symptomData.value| > 0 && |diseaseData.value| > 0 &&
              RelationshipPath() in disk.relationshipFiles ==>
                ReaderFor(RelationshipPath()).Ok? &&
                var rels := disk.relationshipFiles[RelationshipPath()];
                RowsMatch(r.value.x, r.value.y,
                          AllRows(SortDistinct(CaseIdsIn(rels)), rels, Enumerate(Unique(DiseaseIdsOf(diseaseData.value)))),
                          Unique(SymptomIdsOf(symptomData.value)), rels)
    {
      if symptomData.None? {
        var loaded := LoadSymptomData(disk);
        if loaded.Err? {
          return Err(loaded.error);
        }
      }
      if diseaseData.None? {
        var loaded := LoadDiseaseData(disk);
        if loaded.Err? {
          return Err(loaded.error);
        }
      }
      if |symptomData.value| == 0 || |diseaseData.value| == 0 {
        return Ok(Features([], []));
      }
      var path := Join(dataDir, config.relationshipFile);
      if path !in disk.relationshipFiles {
        return Ok(Features([], []));
      }
      if !EndsWith(path, ".csv") && !EndsWith(path, ".json") {
        return Err(ValueError);
      }
      var rels := disk.relationshipFiles[path];
      var features := FeatureRows(symptomData.value, diseaseData.value, rels);
      r := Ok(features);
    }
  }
}
