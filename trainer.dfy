/** The data preparation of the symptom extraction trainer: the symptom id
    dictionary, character-level BIO tagging of annotated texts, alignment of
    character labels to tokens, the multi-hot symptom matrix, and the label
    dictionaries of the token classifier. Model training itself is not part
    of this model. */
module SymptomExtractionTrainer {
  import opened Results
  import opened Builtins
  import opened Records

  const BeginTag: string := "B-SYMPTOM"
  const InsideTag: string := "I-SYMPTOM"
  const OutsideTag: string := "O"

  // ---------------------------------------------------------------------------
  // Collecting distinct ids (a Python set filled by add / update).
  // ---------------------------------------------------------------------------

  /** Whether s occurs in one of the groups. */
  predicate InSomeGroup(groups: seq<seq<string>>, s: string)
  {
    exists g, j :: 0 <= g < |groups| && 0 <= j < |groups[g]| && groups[g][j] == s
  }

  /** Fills a set with every string of every group; the set is kept as a list
      without repeats, in order of first appearance. */
  method CollectDistinct(groups: seq<seq<string>>) returns (seen: seq<string>)
    ensures Distinct(seen)
    ensures forall s :: s in seen <==> InSomeGroup(groups, s)
  {
    seen := [];
    for g := 0 to |groups|
      invariant Distinct(seen)
      invariant forall s :: s in seen <==> InSomeGroup(groups[..g], s)
    {
      for j := 0 to |groups[g]|
        invariant Distinct(seen)
        invariant forall s :: s in seen <==>
                    InSomeGroup(groups[..g], s) || s in groups[g][..j]
      {
        var s := groups[g][j];
        if s !in seen {
          seen := seen + [s];
        }
        assert groups[g][..j + 1] == groups[g][..j] + [s];
      }
      forall s | InSomeGroup(groups[..g + 1], s)
        ensures InSomeGroup(groups[..g], s) || s in groups[g]
      {
        var g', j :| 0 <= g' < g + 1 && 0 <= j < |groups[..g + 1][g']| && groups[..g + 1][g'][j] == s;
        if g' < g {
          assert groups[..g][g'][j] == s;
        }
      }
      forall s | InSomeGroup(groups[..g], s)
        ensures InSomeGroup(groups[..g + 1], s)
      {
        var g', j :| 0 <= g' < g && 0 <= j < |groups[..g][g']| && groups[..g][g'][j] == s;
        assert groups[..g + 1][g'][j] == s;
      }
      forall s | s in groups[g]
        ensures InSomeGroup(groups[..g + 1], s)
      {
        var j :| 0 <= j < |groups[g]| && groups[g][j] == s;
        assert groups[..g + 1][g][j] == s;
      }
    }
    assert groups[..|groups|] == groups;
  }

  // ---------------------------------------------------------------------------
  // load_data
  // ---------------------------------------------------------------------------

  /** What load_data returns: the texts, the annotation lists, and the symptom
      id dictionary. */
  datatype Loaded = Loaded(
    texts: seq<string>,
    annotations: seq<seq<Annotation>>,
    symptomToId: map<string, nat>)

  /** Whether some annotation of some text names symptom id s. */
  predicate Annotated(data: seq<TextRecord>, s: string)
  {
    exists i, j :: 0 <= i < |data| && 0 <= j < |data[i].annotations| &&
      data[i].annotations[j].symptomId == s
  }

  /** load_data on already parsed JSON: the texts and annotation lists in input
      order, and a dictionary numbering the distinct annotated symptom ids
      0, 1, ... in ascending string order. */
  method LoadData(data: seq<TextRecord>) returns (r: Loaded)
    ensures |r.texts| == |data| && |r.annotations| == |data|
    ensures forall i :: 0 <= i < |data| ==>
              r.texts[i] == data[i].text && r.annotations[i] == data[i].annotations
    ensures forall s :: s in r.symptomToId <==> Annotated(data, s)
    ensures forall s :: s in r.symptomToId ==> r.symptomToId[s] < |r.symptomToId|
    ensures forall i :: 0 <= i < |r.symptomToId| ==> i in r.symptomToId.Values
    ensures forall s, t :: s in r.symptomToId && t in r.symptomToId ==>
              (Less(s, t) <==> r.symptomToId[s] < r.symptomToId[t])
    ensures Injective(r.symptomToId)
  {
    var texts := seq(|data|, i requires 0 <= i < |data| => data[i].text);
    var annotations := seq(|data|, i requires 0 <= i < |data| => data[i].annotations);
    var groups := seq(|data|, i requires 0 <= i < |data| => AnnotationIdsOf(data[i].annotations));
    var unique := CollectDistinct(groups);
    var sorted := SortDistinct(unique);
    EnumerateSorted(sorted);
    var symptomToId := Enumerate(sorted);
    AnnotatedGroups(data, groups);
    r := Loaded(texts, annotations, symptomToId);
  }

  lemma AnnotatedGroups(data: seq<TextRecord>, groups: seq<seq<string>>)
    requires |groups| == |data|
    requires forall i :: 0 <= i < |data| ==> groups[i] == AnnotationIdsOf(data[i].annotations)
    ensures forall s :: InSomeGroup(groups, s) <==> Annotated(data, s)
  {
    forall s ensures InSomeGroup(groups, s) <==> Annotated(data, s)
    {
      if InSomeGroup(groups, s) {
        var g, j :| 0 <= g < |groups| && 0 <= j < |groups[g]| && groups[g][j] == s;
        assert data[g].annotations[j].symptomId == s;
      }
      if Annotated(data, s) {
        var i, j :| 0 <= i < |data| && 0 <= j < |data[i].annotations| &&
          data[i].annotations[j].symptomId == s;
        assert groups[i][j] == s;
      }
    }
  }

  // ---------------------------------------------------------------------------
  // Character-level BIO labels
  // ---------------------------------------------------------------------------

  /** labels[i] = "I-SYMPTOM" for i in range(i, end). */
  function MarkInside(labels: seq<string>, i: int, end: int): Result<seq<string>>
    decreases end - i
  {
    if i >= end then Ok(labels)
    else match PyIndex(i, |labels|)
      case None => Err(IndexError)
      case Some(p) => MarkInside(labels[p := InsideTag], i + 1, end)
  }

  /** The effect of one annotation: "B-SYMPTOM" at its start, then "I-SYMPTOM"
      at every position up to its end. */
  function Mark(labels: seq<string>, a: Annotation): Result<seq<string>>
  {
    match PyIndex(a.start, |labels|)
      case None => Err(IndexError)
      case Some(p) => MarkInside(labels[p := BeginTag], a.start + 1, a.end)
  }

  /** The annotations applied one after another, each over the labels the
      previous ones left. */
  function MarkAll(labels: seq<string>, anns: seq<Annotation>): Result<seq<string>>
    decreases |anns|
  {
    if |anns| == 0 then Ok(labels)
    else match Mark(labels, anns[0])
      case Err(e) => Err(e)
      case Ok(next) => MarkAll(next, anns[1..])
  }

  /** The character labels of a text of length n: all "O" at first, then the
      annotations marked in list order. */
  function CharLabelsOf(n: nat, anns: seq<Annotation>): Result<seq<string>>
  {
    MarkAll(seq(n, _ => OutsideTag), anns)
  }

  /** The first loop of prepare_ner_data, for one text. */
  method CharLabels(text: string, anns: seq<Annotation>) returns (r: Result<seq<string>>)
    ensures r == CharLabelsOf(|text|, anns)
  {
    var labels := seq(|text|, _ => OutsideTag);
    for k := 0 to |anns|
      invariant |labels| == |text|
      invariant MarkAll(labels, anns[k..]) == CharLabelsOf(|text|, anns)
    {
      var a := anns[k];
      assert anns[k..][0] == a && anns[k..][1..] == anns[k + 1..];
      ghost var before := labels;
      var p := PyIndex(a.start, |labels|);
      if p.None? {
        return Err(IndexError);
      }
      labels := labels[p.value := BeginTag];
      var i := a.start + 1;
      while i < a.end
        invariant |labels| == |text|
        invariant Mark(before, a) == MarkInside(labels, i, a.end)
        decreases a.end - i
      {
        var q := PyIndex(i, |labels|);
        if q.None? {
          return Err(IndexError);
        }
        labels := labels[q.value := InsideTag];
        i := i + 1;
      }
    }
    assert anns[|anns|..] == [];
    r := Ok(labels);
  }

  // ---------------------------------------------------------------------------
  // What the character labels are, position by position
  // ---------------------------------------------------------------------------

  /** Whether marking annotation a can run without an IndexError on a text of
      length n: its start must be a valid (possibly negative) index, and when
      the range start+1 .. end-1 is not empty, end must not exceed n. */
  predicate InRange(a: Annotation, n: nat)
  {
    -(n as int) <= a.start < n && (a.end <= a.start + 1 || a.end <= n)
  }

  /** The label annotation a leaves at position p of a text of length n over
      the label d that was there. An index i stands for position p when i == p
      or, counted from the end, i == p - n. The "I-SYMPTOM" writes come after
      the "B-SYMPTOM" write, so they win. */
  function Over(a: Annotation, n: nat, p: nat, d: string): string
  {
    if a.start < p < a.end || a.start < p - n < a.end then InsideTag
    else if a.start == p || a.start == p - n then BeginTag
    else d
  }

  /** The label at position p after the annotations are applied in order over
      the label d: the last annotation touching p decides it. */
  function Cover(anns: seq<Annotation>, n: nat, p: nat, d: string): string
    decreases |anns|
  {
    if |anns| == 0 then d else Cover(anns[1..], n, p, Over(anns[0], n, p, d))
  }

  lemma {:induction false} MarkInsideDefined(labels: seq<string>, i: int, end: int)
    requires -|labels| <= i
    ensures MarkInside(labels, i, end).Ok? <==> (end <= i || end <= |labels|)
    ensures MarkInside(labels, i, end).Ok? ==> |MarkInside(labels, i, end).value| == |labels|
    decreases end - i
  {
    if i < end && i < |labels| {
      var p := PyIndex(i, |labels|).value;
      MarkInsideDefined(labels[p := InsideTag], i + 1, end);
    }
  }

  lemma {:induction false} MarkInsideAt(labels: seq<string>, i: int, end: int, p: nat)
    requires MarkInside(labels, i, end).Ok? && p < |labels|
    requires |MarkInside(labels, i, end).value| == |labels|
    ensures MarkInside(labels, i, end).value[p] ==
              if i <= p < end || i <= p - |labels| < end then InsideTag else labels[p]
    decreases end - i
  {
    if i < end {
      var q := PyIndex(i, |labels|).value;
      MarkInsideAt(labels[q := InsideTag], i + 1, end, p);
    }
  }

  lemma MarkDefined(labels: seq<string>, a: Annotation)
    ensures Mark(labels, a).Ok? <==> InRange(a, |labels|)
    ensures Mark(labels, a).Ok? ==> |Mark(labels, a).value| == |labels|
  {
    if -(|labels| as int) <= a.start < |labels| {
      var q := PyIndex(a.start, |labels|).value;
      MarkInsideDefined(labels[q := BeginTag], a.start + 1, a.end);
    }
  }

  lemma MarkAt(labels: seq<string>, a: Annotation, p: nat)
    requires InRange(a, |labels|) && p < |labels|
    ensures Mark(labels, a).Ok? && |Mark(labels, a).value| == |labels|
    ensures Mark(labels, a).value[p] == Over(a, |labels|, p, labels[p])
  {
    MarkDefined(labels, a);
    var q := PyIndex(a.start, |labels|).value;
    MarkInsideDefined(labels[q := BeginTag], a.start + 1, a.end);
    MarkInsideAt(labels[q := BeginTag], a.start + 1, a.end, p);
  }

  lemma {:induction false} MarkAllDefined(labels: seq<string>, anns: seq<Annotation>)
    ensures MarkAll(labels, anns).Ok? <==> forall a :: a in anns ==> InRange(a, |labels|)
    ensures MarkAll(labels, anns).Ok? ==> |MarkAll(labels, anns).value| == |labels|
    decreases |anns|
  {
    if |anns| > 0 {
      MarkDefined(labels, anns[0]);
      if InRange(anns[0], |labels|) {
        MarkAllDefined(Mark(labels, anns[0]).value, anns[1..]);
      }
      assert forall a :: a in anns <==> a == anns[0] || a in anns[1..];
    }
  }

  lemma {:induction false} MarkAllAt(labels: seq<string>, anns: seq<Annotation>, p: nat)
    requires forall a :: a in anns ==> InRange(a, |labels|)
    requires p < |labels|
    ensures MarkAll(labels, anns).Ok? && |MarkAll(labels, anns).value| == |labels|
    ensures MarkAll(labels, anns).value[p] == Cover(anns, |labels|, p, labels[p])
    decreases |anns|
  {
    MarkAllDefined(labels, anns);
    if |anns| > 0 {
      MarkAt(labels, anns[0], p);
      MarkDefined(labels, anns[0]);
      var next := Mark(labels, anns[0]).value;
      assert forall a :: a in anns[1..] ==> a in anns;
      MarkAllAt(next, anns[1..], p);
    }
  }

  /** prepare_ner_data's tagging raises IndexError exactly when some annotation
      is out of range for the text, and otherwise yields one label per
      character. */
  lemma CharLabelsDefined(n: nat, anns: seq<Annotation>)
    ensures CharLabelsOf(n, anns).Ok? <==> forall a :: a in anns ==> InRange(a, n)
    ensures CharLabelsOf(n, anns).Err? ==> CharLabelsOf(n, anns).error == IndexError
    ensures CharLabelsOf(n, anns).Ok? ==> |CharLabelsOf(n, anns).value| == n
  {
    MarkAllDefined(seq(n, _ => OutsideTag), anns);
    MarkAllErr(seq(n, _ => OutsideTag), anns);
  }

  lemma {:induction false} MarkAllErr(labels: seq<string>, anns: seq<Annotation>)
    ensures MarkAll(labels, anns).Err? ==> MarkAll(labels, anns).error == IndexError
    decreases |anns|
  {
    if |anns| > 0 {
      MarkErr(labels, anns[0]);
      if Mark(labels, anns[0]).Ok? {
        MarkAllErr(Mark(labels, anns[0]).value, anns[1..]);
      }
    }
  }

  lemma MarkErr(labels: seq<string>, a: Annotation)
    ensures Mark(labels, a).Err? ==> Mark(labels, a).error == IndexError
  {
    if PyIndex(a.start, |labels|).Some? {
      var q := PyIndex(a.start, |labels|).value;
      MarkInsideErr(labels[q := BeginTag], a.start + 1, a.end);
    }
  }

  lemma {:induction false} MarkInsideErr(labels: seq<string>, i: int, end: int)
    ensures MarkInside(labels, i, end).Err? ==> MarkInside(labels, i, end).error == IndexError
    decreases end - i
  {
    if i < end && PyIndex(i, |labels|).Some? {
      MarkInsideErr(labels[PyIndex(i, |labels|).value := InsideTag], i + 1, end);
    }
  }

  /** Position by position: the label of character p is "O" overwritten by
      each annotation in list order, the last one touching p deciding it. */
  lemma CharLabelsAt(n: nat, anns: seq<Annotation>, p: nat)
    requires forall a :: a in anns ==> InRange(a, n)
    requires p < n
    ensures CharLabelsOf(n, anns).Ok? && |CharLabelsOf(n, anns).value| == n
    ensures CharLabelsOf(n, anns).value[p] == Cover(anns, n, p, OutsideTag)
  {
    MarkAllAt(seq(n, _ => OutsideTag), anns, p);
  }

  /** A position no annotation touches keeps the label it had. */
  lemma {:induction false} CoverUntouched(anns: seq<Annotation>, n: nat, p: nat, d: string)
    requires forall a :: a in anns ==> Over(a, n, p, d) == d
    ensures Cover(anns, n, p, d) == d
    decreases |anns|
  {
    if |anns| > 0 {
      assert forall a :: a in anns[1..] ==> a in anns;
      CoverUntouched(anns[1..], n, p, d);
    }
  }

  /** Every character label is one of the three BIO tags. */
  lemma {:induction false} CoverIsTag(anns: seq<Annotation>, n: nat, p: nat, d: string)
    requires d in {BeginTag, InsideTag, OutsideTag}
    ensures Cover(anns, n, p, d) in {BeginTag, InsideTag, OutsideTag}
    decreases |anns|
  {
    if |anns| > 0 {
      CoverIsTag(anns[1..], n, p, Over(anns[0], n, p, d));
    }
  }

  // ---------------------------------------------------------------------------
  // Token labels
  // ---------------------------------------------------------------------------

  /** A token the character labels can label: a special token, or one whose
      first character lies inside the text. */
  predicate Aligned(charLabels: seq<string>, o: Offset)
  {
    IsSpecial(o) || o.start < |charLabels|
  }

  /** "O" for a special token, otherwise the label of the token's first character. */
  function TokenLabel(charLabels: seq<string>, o: Offset): string
    requires Aligned(charLabels, o)
  {
    if IsSpecial(o) then OutsideTag else charLabels[o.start]
  }

  /** The token labels of a tokenized text, or IndexError when a token starts
      past the end of the character labels. */
  function AlignOf(charLabels: seq<string>, offsets: seq<Offset>): Result<seq<string>>
  {
    if forall t :: 0 <= t < |offsets| ==> Aligned(charLabels, offsets[t]) then
      Ok(seq(|offsets|, t requires 0 <= t < |offsets| => TokenLabel(charLabels, offsets[t])))
    else
      Err(IndexError)
  }

  /** The second loop of prepare_ner_data, for one text. */
  method TokenLabels(charLabels: seq<string>, offsets: seq<Offset>) returns (r: Result<seq<string>>)
    ensures r == AlignOf(charLabels, offsets)
  {
    var tokenLabels: seq<string> := [];
    for t := 0 to |offsets|
      invariant |tokenLabels| == t
      invariant forall u :: 0 <= u < t ==> Aligned(charLabels, offsets[u])
      invariant forall u :: 0 <= u < t ==> tokenLabels[u] == TokenLabel(charLabels, offsets[u])
    {
      var o := offsets[t];
      if o.start == 0 && o.end == 0 {
        tokenLabels := tokenLabels + [OutsideTag];
      } else if o.start < |charLabels| {
        tokenLabels := tokenLabels + [charLabels[o.start]];
      } else {
        assert !Aligned(charLabels, offsets[t]);
        return Err(IndexError);
      }
    }
    assert tokenLabels == seq(|offsets|, t requires 0 <= t < |offsets| => TokenLabel(charLabels, offsets[t]));
    r := Ok(tokenLabels);
  }

  // ---------------------------------------------------------------------------
  // prepare_ner_data
  // ---------------------------------------------------------------------------

  /** What the tokenizer returns for one text (already truncated to the
      model's maximum length). */
  datatype Tokenized = Tokenized(inputIds: seq<int>, attentionMask: seq<int>, offsets: seq<Offset>)

  datatype NerExample = NerExample(inputIds: seq<int>, attentionMask: seq<int>, labels: seq<string>)

  /** The NER example of one text: its tokens with the token labels. */
  function NerExampleOf(text: string, anns: seq<Annotation>, tok: Tokenized): Result<NerExample>
  {
    match CharLabelsOf(|text|, anns)
      case Err(e) => Err(e)
      case Ok(charLabels) =>
        match AlignOf(charLabels, tok.offsets)
          case Err(e) => Err(e)
          case Ok(labels) => Ok(NerExample(tok.inputIds, tok.attentionMask, labels))
  }

  /** prepare_ner_data: one example per (text, annotation list) pair, zip
      stopping at the shorter list; the first failing text raises. The
      tokenizer is a parameter. */
  method PrepareNerData(texts: seq<string>, annotations: seq<seq<Annotation>>,
                        tokenize: string -> Tokenized)
    returns (r: Result<seq<NerExample>>)
    ensures r.Ok? <==> forall k :: 0 <= k < Min(|texts|, |annotations|) ==>
                          NerExampleOf(texts[k], annotations[k], tokenize(texts[k])).Ok?
    ensures r.Ok? ==> |r.value| == Min(|texts|, |annotations|) &&
                      forall k :: 0 <= k < |r.value| ==>
                        r.value[k] == NerExampleOf(texts[k], annotations[k], tokenize(texts[k])).value
    ensures r.Err? ==> r.error == IndexError
  {
    var examples: seq<NerExample> := [];
    var n := Min(|texts|, |annotations|);
    for k := 0 to n
      invariant |examples| == k
      invariant forall u :: 0 <= u < k ==>
                  NerExampleOf(texts[u], annotations[u], tokenize(texts[u])).Ok? &&
                  examples[u] == NerExampleOf(texts[u], annotations[u], tokenize(texts[u])).value
    {
      var text, anns := texts[k], annotations[k];
      var charLabels := CharLabels(text, anns);
      CharLabelsDefined(|text|, anns);
      if charLabels.Err? {
        return Err(IndexError);
      }
      var tok := tokenize(text);
      var tokenLabels := TokenLabels(charLabels.value, tok.offsets);
      if tokenLabels.Err? {
        return Err(IndexError);
      }
      examples := examples + [NerExample(tok.inputIds, tok.attentionMask, tokenLabels.value)];
    }
    r := Ok(examples);
  }

  // ---------------------------------------------------------------------------
  // prepare_classification_data
  // ---------------------------------------------------------------------------

  /** Whether some annotation in anns names a symptom the dictionary numbers j. */
  predicate HasColumn(anns: seq<Annotation>, symptomToId: map<string, nat>, j: nat)
  {
    exists a :: a in anns && a.symptomId in symptomToId && symptomToId[a.symptomId] == j
  }

  /** Every known symptom of every annotation list has a cell in the
      rows x |symptomToId| matrix. */
  predicate CellsFit(annotations: seq<seq<Annotation>>, rows: nat, symptomToId: map<string, nat>)
  {
    forall i, a :: 0 <= i < |annotations| && a in annotations[i] && a.symptomId in symptomToId ==>
      i < rows && symptomToId[a.symptomId] < |symptomToId|
  }

  /** prepare_classification_data: a |texts| x |symptomToId| matrix of zeros
      with a one in row i, column symptomToId[s] for every known symptom s
      annotated in text i. A row or column outside the matrix raises
      IndexError. */
  method PrepareClassificationData(texts: seq<string>, annotations: seq<seq<Annotation>>,
                                   symptomToId: map<string, nat>)
    returns (r: Result<array2<int>>)
    ensures r.Ok? <==> CellsFit(annotations, |texts|, symptomToId)
    ensures r.Err? ==> r.error == IndexError
    ensures r.Ok? ==> fresh(r.value)
    ensures r.Ok? ==> r.value.Length0 == |texts| && r.value.Length1 == |symptomToId|
    ensures r.Ok? ==> forall i, j :: 0 <= i < |texts| && 0 <= j < |symptomToId| ==>
              r.value[i, j] == if i < |annotations| && HasColumn(annotations[i], symptomToId, j) then 1 else 0
  {
    var labels := new int[|texts|, |symptomToId|]((i, j) => 0);
    for i := 0 to |annotations|
      invariant CellsFit(annotations[..i], |texts|, symptomToId)
      invariant forall row, col :: 0 <= row < |texts| && 0 <= col < |symptomToId| ==>
                  labels[row, col] == if row < i && HasColumn(annotations[row], symptomToId, col) then 1 else 0
    {
      var anns := annotations[i];
      for q := 0 to |anns|
        invariant CellsFit(annotations[..i], |texts|, symptomToId)
        invariant forall a :: a in anns[..q] && a.symptomId in symptomToId ==>
                    i < |texts| && symptomToId[a.symptomId] < |symptomToId|
        invariant forall row, col :: 0 <= row < |texts| && 0 <= col < |symptomToId| ==>
                    labels[row, col] ==
                      if (row < i && HasColumn(annotations[row], symptomToId, col)) ||
                         (row == i && HasColumn(anns[..q], symptomToId, col))
                      then 1 else 0
      {
        assert anns[..q + 1] == anns[..q] + [anns[q]];
        var id := anns[q].symptomId;
        if id in symptomToId {
          if i < labels.Length0 && symptomToId[id] < labels.Length1 {
            labels[i, symptomToId[id]] := 1;
          } else {
            assert annotations[i] == anns && anns[q] in anns;
            return Err(IndexError);
          }
        }
      }
      assert anns[..|anns|] == anns;
      assert annotations[..i + 1] == annotations[..i] + [anns];
    }
    assert annotations[..|annotations|] == annotations;
    r := Ok(labels);
  }

  // ---------------------------------------------------------------------------
  // Label dictionaries of the token classifier (train_ner_model)
  // ---------------------------------------------------------------------------

  /** The label list and both label dictionaries of the token classifier. */
  datatype LabelMaps = LabelMaps(
    labelList: seq<string>,
    labelToId: map<string, nat>,
    idToLabel: map<nat, string>)

  /** train_ner_model's label dictionaries: the distinct token labels of all
      examples, sorted, numbered 0, 1, ... in that order, and the inverse
      numbering. */
  method NerLabelMaps(examples: seq<NerExample>) returns (r: LabelMaps)
    ensures StrictlySorted(r.labelList)
    ensures forall l :: l in r.labelList <==> Labelled(examples, l)
    ensures forall l :: l in r.labelToId <==> l in r.labelList
    ensures forall i :: 0 <= i < |r.labelList| ==> r.labelToId[r.labelList[i]] == i
    ensures forall i: nat :: i in r.idToLabel <==> i < |r.labelList|
    ensures forall i: nat :: i < |r.labelList| ==> r.idToLabel[i] == r.labelList[i]
    ensures forall l :: l in r.labelToId ==> r.idToLabel[r.labelToId[l]] == l
  {
    var groups := seq(|examples|, k requires 0 <= k < |examples| => examples[k].labels);
    var unique := CollectDistinct(groups);
    var labelList := SortDistinct(unique);
    EnumerateSorted(labelList);
    var labelToId := Enumerate(labelList);
    var idToLabel := Invert(labelToId);
    InvertEnumerateSorted(labelList);
    LabelGroups(examples, groups);
    r := LabelMaps(labelList, labelToId, idToLabel);
  }

  /** Whether some token of some example carries label l. */
  predicate Labelled(examples: seq<NerExample>, l: string)
  {
    exists k, t :: 0 <= k < |examples| && 0 <= t < |examples[k].labels| && examples[k].labels[t] == l
  }

  lemma LabelGroups(examples: seq<NerExample>, groups: seq<seq<string>>)
    requires |groups| == |examples|
    requires forall k :: 0 <= k < |examples| ==> groups[k] == examples[k].labels
    ensures forall l :: InSomeGroup(groups, l) <==> Labelled(examples, l)
  {
    forall l ensures InSomeGroup(groups, l) <==> Labelled(examples, l)
    {
      if InSomeGroup(groups, l) {
        var k, t :| 0 <= k < |groups| && 0 <= t < |groups[k]| && groups[k][t] == l;
        assert examples[k].labels[t] == l;
      }
      if Labelled(examples, l) {
        var k, t :| 0 <= k < |examples| && 0 <= t < |examples[k].labels| && examples[k].labels[t] == l;
        assert groups[k][t] == l;
      }
    }
  }

  // ---------------------------------------------------------------------------
  // The trainer object
  // ---------------------------------------------------------------------------

  /** The symptom mapping train_all_models keeps and saves: the id dictionary
      and its inverse. */
  datatype SymptomLabels = SymptomLabels(symptomToId: map<string, nat>, idToSymptom: map<nat, string>)

  class Trainer {
    var symptomLabels: Option<SymptomLabels>

    constructor ()
      ensures symptomLabels == None
    {
      symptomLabels := None;
    }

    /** The first steps of train_all_models: load the data and record the
        symptom id dictionary together with its inverse. */
    method LoadAndRecordLabels(data: seq<TextRecord>) returns (loaded: Loaded)
      modifies this
      ensures forall s :: s in loaded.symptomToId <==> Annotated(data, s)
      ensures symptomLabels.Some? && symptomLabels.value.symptomToId == loaded.symptomToId
      ensures forall s :: s in loaded.symptomToId ==>
                loaded.symptomToId[s] in symptomLabels.value.idToSymptom &&
                symptomLabels.value.idToSymptom[loaded.symptomToId[s]] == s
      ensures forall i: nat :: i in symptomLabels.value.idToSymptom <==> i < |loaded.symptomToId|
    {
      loaded := LoadData(data);
      var m := loaded.symptomToId;
      var inverse := Invert(m);
      forall i: nat | i in inverse ensures i < |m|
      {
        assert m[inverse[i]] == i;
      }
      forall i: nat | i < |m| ensures i in inverse
      {
        assert i in m.Values;
      }
      symptomLabels := Some(SymptomLabels(m, inverse));
    }
  }
}
