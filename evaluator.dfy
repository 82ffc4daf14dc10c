/** The integer and string core of the model evaluator: the two BIO decoders
    (_extract_symptoms and the one inline in _evaluate_ner_model), the exact
    and partial span-match counts, the true-label matrix of the classifier
    evaluation, and the one-hot case encoding for disease prediction. The
    models themselves are parameters: the tokenizer's offsets and the argmax
    label ids are functions of the text. */
module ModelEvaluator {
  import opened Results
  import opened Builtins
  import opened Records
  import opened TagDecoding
  import SymptomExtractionTrainer

  // ---------------------------------------------------------------------------
  // _extract_symptoms
  // ---------------------------------------------------------------------------

  /** _extract_symptoms: walks the tokens once, keeping the open entity and the
      emitted ones, and returns the entities Decode specifies (or KeyError). */
  method ExtractSymptoms(text: string, preds: seq<nat>, offs: seq<Offset>, idToLabel: map<nat, string>)
    returns (r: Result<seq<Entity>>)
    ensures r == Decode(text, preds, offs, idToLabel)
  {
    var n := Min(|preds|, |offs|);
    ghost var tags := TagsOf(preds, idToLabel, n);
    ghost var toks := offs[..n];
    var entities: seq<Entity> := [];
    var current: Option<Entity> := None;
    for i := 0 to n
      invariant forall u :: 0 <= u < i && !IsSpecial(offs[u]) ==> preds[u] in idToLabel
      invariant Run(text, tags, toks, i, Decoder(entities, current)) == Run(text, tags, toks, 0, Empty)
    {
      var o := offs[i];
      assert toks[i] == o;
      if o.start == 0 && o.end == 0 {
        continue;
      }
      if preds[i] !in idToLabel {
        return Err(KeyError);
      }
      var predLabel := idToLabel[preds[i]];
      if StartsWith(predLabel, "B-") {
        if current.Some? {
          entities := entities + [current.value];
        }
        current := Some(Entity(Slice(text, o.start, o.end), o.start, o.end, predLabel[2..]));
      } else if StartsWith(predLabel, "I-") && current.Some? {
        var e := current.value;
        current := Some(e.(text := e.text + Slice(text, o.start, o.end), end := o.end));
      } else {
        if current.Some? {
          entities := entities + [current.value];
          current := None;
        }
      }
    }
    if current.Some? {
      entities := entities + [current.value];
    }
    r := Ok(entities);
  }

  // ---------------------------------------------------------------------------
  // Span matching
  // ---------------------------------------------------------------------------

  /** A gold entity built from an annotation. */
  datatype TrueEntity = TrueEntity(text: string, start: int, end: int, symptomId: string)

  function TrueEntitiesOf(anns: seq<Annotation>): seq<TrueEntity>
  {
    seq(|anns|, i requires 0 <= i < |anns| => TrueEntity(anns[i].text, anns[i].start, anns[i].end, anns[i].symptomId))
  }

  predicate SameSpan(t: TrueEntity, p: Entity)
  {
    t.start == p.start && t.end == p.end
  }

  /** The spans share at least one character. */
  predicate Overlaps(t: TrueEntity, p: Entity)
  {
    Max(t.start, p.start) < Min(t.end, p.end)
  }

  predicate ExactHit(t: TrueEntity, preds: seq<Entity>)
  {
    exists p :: p in preds && SameSpan(t, p)
  }

  predicate PartialHit(t: TrueEntity, preds: seq<Entity>)
  {
    exists p :: p in preds && Overlaps(t, p)
  }

  /** How many of the gold entities some prediction matches exactly (or, with
      exact false, overlaps); each gold entity counts at most once. */
  function Hits(trues: seq<TrueEntity>, preds: seq<Entity>, exact: bool): nat
  {
    if |trues| == 0 then 0
    else
      var t := trues[|trues| - 1];
      Hits(trues[..|trues| - 1], preds, exact) +
      (if (exact && ExactHit(t, preds)) || (!exact && PartialHit(t, preds)) then 1 else 0)
  }

  /** The hits summed over the texts, pairing gold and predicted lists as zip does. */
  function Matches(trueItems: seq<seq<TrueEntity>>, predItems: seq<seq<Entity>>, exact: bool): nat
  {
    var n := Min(|trueItems|, |predItems|);
    if n == 0 then 0
    else Matches(trueItems[..n - 1], predItems[..n - 1], exact) + Hits(trueItems[n - 1], predItems[n - 1], exact)
  }

  /** The total length of a list of lists. */
  function Total<T>(items: seq<seq<T>>): nat
  {
    if |items| == 0 then 0 else Total(items[..|items| - 1]) + |items[|items| - 1]|
  }

  /** The counting loops of _evaluate_ner_model: for each gold entity, the
      first exactly matching prediction and the first overlapping prediction
      each add one (and stop the search). */
  method CountMatches(trueItems: seq<seq<TrueEntity>>, predItems: seq<seq<Entity>>)
    returns (exactMatch: nat, partialMatch: nat)
    ensures exactMatch == Matches(trueItems, predItems, true)
    ensures partialMatch == Matches(trueItems, predItems, false)
  {
    exactMatch, partialMatch := 0, 0;
    var n := Min(|trueItems|, |predItems|);
    for k := 0 to n
      invariant exactMatch == Matches(trueItems[..k], predItems[..k], true)
      invariant partialMatch == Matches(trueItems[..k], predItems[..k], false)
    {
      var exactHits, partialHits := CountHits(trueItems[k], predItems[k]);
      exactMatch, partialMatch := exactMatch + exactHits, partialMatch + partialHits;
      assert trueItems[..k + 1][..k] == trueItems[..k] && predItems[..k + 1][..k] == predItems[..k];
    }
    assert trueItems[..n] == trueItems[..Min(|trueItems|, |predItems|)];
    MatchesZip(trueItems, predItems, true);
    MatchesZip(trueItems, predItems, false);
  }

  /** The counts of one text: how many gold entities have an exact and how
      many an overlapping prediction. */
  method CountHits(trues: seq<TrueEntity>, preds: seq<Entity>) returns (exactHits: nat, partialHits: nat)
    ensures exactHits == Hits(trues, preds, true)
    ensures partialHits == Hits(trues, preds, false)
  {
    exactHits, partialHits := 0, 0;
    for t := 0 to |trues|
      invariant exactHits == Hits(trues[..t], preds, true)
      invariant partialHits == Hits(trues[..t], preds, false)
    {
      var exact, partial := MatchEntity(trues[t], preds);
      if exact {
        exactHits := exactHits + 1;
      }
      if partial {
        partialHits := partialHits + 1;
      }
      assert trues[..t + 1][..t] == trues[..t];
    }
    assert trues[..|trues|] == trues;
  }

  /** The two searches for one gold entity, each stopping at the first match. */
  method MatchEntity(te: TrueEntity, preds: seq<Entity>) returns (exact: bool, partial: bool)
    ensures exact == ExactHit(te, preds)
    ensures partial == PartialHit(te, preds)
  {
    exact, partial := false, false;
    var q := 0;
    while q < |preds|
      invariant q <= |preds|
      invariant forall u :: 0 <= u < q ==> !SameSpan(te, preds[u])
    {
      if te.start == preds[q].start && te.end == preds[q].end {
        assert preds[q] in preds && SameSpan(te, preds[q]);
        exact := true;
        break;
      }
      q := q + 1;
    }
    assert exact == ExactHit(te, preds);
    q := 0;
    while q < |preds|
      invariant q <= |preds|
      invariant forall u :: 0 <= u < q ==> !Overlaps(te, preds[u])
    {
      if Max(te.start, preds[q].start) < Min(te.end, preds[q].end) {
        assert preds[q] in preds && Overlaps(te, preds[q]);
        partial := true;
        break;
      }
      q := q + 1;
    }
  }

  /** zip stops at the shorter list: the counts only see the first n pairs. */
  lemma MatchesZip(trueItems: seq<seq<TrueEntity>>, predItems: seq<seq<Entity>>, exact: bool)
    ensures Matches(trueItems, predItems, exact) ==
            Matches(trueItems[..Min(|trueItems|, |predItems|)], predItems[..Min(|trueItems|, |predItems|)], exact)
  {
    var n := Min(|trueItems|, |predItems|);
    if n > 0 {
      assert trueItems[..n][..n - 1] == trueItems[..n - 1];
      assert predItems[..n][..n - 1] == predItems[..n - 1];
    }
  }

  /** Each gold entity counts at most once. */
  lemma {:induction false} HitsAtMost(trues: seq<TrueEntity>, preds: seq<Entity>, exact: bool)
    ensures Hits(trues, preds, exact) <= |trues|
  {
    if |trues| > 0 {
      HitsAtMost(trues[..|trues| - 1], preds, exact);
    }
  }

  /** A gold entity with a non-empty span that some prediction matches exactly
      also overlaps that prediction, so it counts for partial matching too. */
  lemma {:induction false} ExactHitsArePartial(trues: seq<TrueEntity>, preds: seq<Entity>)
    requires forall t :: t in trues ==> t.start < t.end
    ensures Hits(trues, preds, true) <= Hits(trues, preds, false)
  {
    if |trues| > 0 {
      var t := trues[|trues| - 1];
      ExactHitsArePartial(trues[..|trues| - 1], preds);
      if ExactHit(t, preds) {
        var p :| p in preds && SameSpan(t, p);
        assert Overlaps(t, p);
      }
    }
  }

  lemma {:induction false} TotalPrefix<T>(items: seq<seq<T>>, k: nat)
    requires k <= |items|
    ensures Total(items[..k]) <= Total(items)
    decreases |items|
  {
    if k < |items| {
      assert items[..|items| - 1][..k] == items[..k];
      TotalPrefix(items[..|items| - 1], k);
    } else {
      assert items[..k] == items;
    }
  }

  /** Both match counts are at most the number of gold entities. */
  lemma {:induction false} MatchesAtMostTotal(trueItems: seq<seq<TrueEntity>>, predItems: seq<seq<Entity>>, exact: bool)
    ensures Matches(trueItems, predItems, exact) <= Total(trueItems)
    decreases |trueItems|
  {
    var n := Min(|trueItems|, |predItems|);
    if n > 0 {
      MatchesAtMostTotal(trueItems[..n - 1], predItems[..n - 1], exact);
      HitsAtMost(trueItems[n - 1], predItems[n - 1], exact);
      assert trueItems[..n][..n - 1] == trueItems[..n - 1];
      TotalPrefix(trueItems, n);
    }
  }

  /** With non-empty gold spans, exact matches never outnumber partial ones. */
  lemma {:induction false} ExactAtMostPartial(trueItems: seq<seq<TrueEntity>>, predItems: seq<seq<Entity>>)
    requires forall k, t :: 0 <= k < |trueItems| && t in trueItems[k] ==> t.start < t.end
    ensures Matches(trueItems, predItems, true) <= Matches(trueItems, predItems, false)
    decreases |trueItems|
  {
    var n := Min(|trueItems|, |predItems|);
    if n > 0 {
      ExactAtMostPartial(trueItems[..n - 1], predItems[..n - 1]);
      ExactHitsArePartial(trueItems[n - 1], predItems[n - 1]);
    }
  }

  // ---------------------------------------------------------------------------
  // _evaluate_ner_model
  // ---------------------------------------------------------------------------

  /** The gold entities of one test item, one per annotation, in order. */
  method GoldEntities(anns: seq<Annotation>) returns (trueItem: seq<TrueEntity>)
    ensures trueItem == TrueEntitiesOf(anns)
  {
    trueItem := [];
    for a := 0 to |anns|
      invariant trueItem == TrueEntitiesOf(anns[..a])
    {
      trueItem := trueItem + [TrueEntity(anns[a].text, anns[a].start, anns[a].end, anns[a].symptomId)];
    }
    assert anns[..|anns|] == anns;
  }

  /** sum(len(entities) for entities in items) */
  method TotalLength<T>(items: seq<seq<T>>) returns (total: nat)
    ensures total == Total(items)
  {
    total := 0;
    for k := 0 to |items|
      invariant total == Total(items[..k])
    {
      assert items[..k + 1][..k] == items[..k];
      total := total + |items[k]|;
    }
    assert items[..|items|] == items;
  }

  /** The counts _evaluate_ner_model derives its scores from. */
  datatype NerCounts = NerCounts(trueEntities: nat, predictedEntities: nat, exactMatches: nat, partialMatches: nat)

  /** Every test text decodes without a KeyError. */
  predicate AllDecode(items: seq<TextRecord>, offsetsOf: string -> seq<Offset>, predict: string -> seq<nat>,
                      idToLabel: map<nat, string>)
  {
    forall k :: 0 <= k < |items| ==>
      Decode(items[k].text, predict(items[k].text), offsetsOf(items[k].text), idToLabel).Ok?
  }

  function GoldOf(items: seq<TextRecord>): (g: seq<seq<TrueEntity>>)
    ensures |g| == |items|
  {
    seq(|items|, k requires 0 <= k < |items| => TrueEntitiesOf(items[k].annotations))
  }

  function PredictedOf(items: seq<TextRecord>, offsetsOf: string -> seq<Offset>, predict: string -> seq<nat>,
                       idToLabel: map<nat, string>): (p: seq<seq<Entity>>)
    requires AllDecode(items, offsetsOf, predict, idToLabel)
    ensures |p| == |items|
  {
    seq(|items|, k requires 0 <= k < |items| =>
      Decode(items[k].text, predict(items[k].text), offsetsOf(items[k].text), idToLabel).value)
  }

  /** One pass of the item loop of _evaluate_ner_model: the gold entities of
      the annotations and the entities the inline decoder reads off the
      predicted label ids. */
  method EvaluateItem(item: TextRecord, offs: seq<Offset>, preds: seq<nat>, idToLabel: map<nat, string>)
    returns (r: Result<(seq<TrueEntity>, seq<Entity>)>)
    ensures r.Ok? <==> Decode(item.text, preds, offs, idToLabel).Ok?
    ensures r.Err? ==> r.error == KeyError
    ensures r.Ok? ==> r.value.0 == TrueEntitiesOf(item.annotations) &&
                      Decode(item.text, preds, offs, idToLabel) == Ok(r.value.1)
  {
    var text := item.text;
    var trueItem := GoldEntities(item.annotations);
    var n := Min(|preds|, |offs|);
    ghost var tags := TagsOf(preds, idToLabel, n);
    ghost var toks := offs[..n];
    var predItem: seq<Entity> := [];
    var current: Option<Entity> := None;
    for i := 0 to n
      invariant forall u :: 0 <= u < i && !IsSpecial(offs[u]) ==> preds[u] in idToLabel
      invariant Run(text, tags, toks, i, Decoder(predItem, current)) == Run(text, tags, toks, 0, Empty)
    {
      var o := offs[i];
      assert toks[i] == o;
      if o.start == 0 && o.end == 0 {
        continue;
      }
      if preds[i] !in idToLabel {
        return Err(KeyError);
      }
      var predLabel := idToLabel[preds[i]];
      if StartsWith(predLabel, "B-") {
        if current.Some? {
          predItem := predItem + [current.value];
        }
        current := Some(Entity(Slice(text, o.start, o.end), o.start, o.end, predLabel[2..]));
      } else if StartsWith(predLabel, "I-") && current.Some? {
        var e := current.value;
        current := Some(e.(text := e.text + Slice(text, o.start, o.end), end := o.end));
      } else {
        if current.Some? {
          predItem := predItem + [current.value];
          current := None;
        }
      }
    }
    if current.Some? {
      predItem := predItem + [current.value];
    }
    r := Ok((trueItem, predItem));
  }

  /** _evaluate_ner_model up to its counts: gold entities from the annotations,
      predicted entities from the inline decoder (which yields what
      _extract_symptoms yields), their totals and the match counts. The
      tokenizer's offsets and the model's argmax ids are functions of the text. */
  method EvaluateNer(items: seq<TextRecord>, offsetsOf: string -> seq<Offset>, predict: string -> seq<nat>,
                     idToLabel: map<nat, string>)
    returns (r: Result<NerCounts>)
    ensures r.Ok? <==> AllDecode(items, offsetsOf, predict, idToLabel)
    ensures r.Err? ==> r.error == KeyError
    ensures r.Ok? ==>
              var gold := GoldOf(items);
              var pred := PredictedOf(items, offsetsOf, predict, idToLabel);
              r.value == NerCounts(Total(gold), Total(pred), Matches(gold, pred, true), Matches(gold, pred, false))
  {
    var trueEntities: seq<seq<TrueEntity>> := [];
    var predEntities: seq<seq<Entity>> := [];
    for k := 0 to |items|
      invariant |trueEntities| == k && |predEntities| == k
      invariant forall u :: 0 <= u < k ==> trueEntities[u] == TrueEntitiesOf(items[u].annotations)
      invariant forall u :: 0 <= u < k ==>
                  Decode(items[u].text, predict(items[u].text), offsetsOf(items[u].text), idToLabel) == Ok(predEntities[u])
    {
      var item := EvaluateItem(items[k], offsetsOf(items[k].text), predict(items[k].text), idToLabel);
      if item.Err? {
        return Err(item.error);
      }
      trueEntities := trueEntities + [item.value.0];
      predEntities := predEntities + [item.value.1];
    }
    assert trueEntities == GoldOf(items);
    assert predEntities == PredictedOf(items, offsetsOf, predict, idToLabel);

    var totalTrue := TotalLength(trueEntities);
    var totalPred := TotalLength(predEntities);
    var exactMatch, partialMatch := CountMatches(trueEntities, predEntities);
    r := Ok(NerCounts(totalTrue, totalPred, exactMatch, partialMatch));
  }

  // ---------------------------------------------------------------------------
  // _evaluate_classification_model: the true-label matrix
  // ---------------------------------------------------------------------------

  function TextsOf(items: seq<TextRecord>): (t: seq<string>)
    ensures |t| == |items|
  {
    seq(|items|, k requires 0 <= k < |items| => items[k].text)
  }

  function AnnotationsOf(items: seq<TextRecord>): (a: seq<seq<Annotation>>)
    ensures |a| == |items|
  {
    seq(|items|, k requires 0 <= k < |items| => items[k].annotations)
  }

  /** The true labels of _evaluate_classification_model: the same multi-hot
      matrix as the trainer's prepare_classification_data, one row per test
      item. With a dictionary numbering its symptoms below its size (as
      load_data's does) it cannot raise. */
  method ClassificationTrueLabels(items: seq<TextRecord>, symptomToId: map<string, nat>)
    returns (r: Result<array2<int>>)
    ensures (forall s :: s in symptomToId ==> symptomToId[s] < |symptomToId|) ==> r.Ok?
    ensures r.Ok? <==> SymptomExtractionTrainer.CellsFit(AnnotationsOf(items), |items|, symptomToId)
    ensures r.Ok? ==> r.value.Length0 == |items| && r.value.Length1 == |symptomToId|
    ensures r.Ok? ==> forall i, j :: 0 <= i < |items| && 0 <= j < |symptomToId| ==>
              r.value[i, j] == if SymptomExtractionTrainer.HasColumn(items[i].annotations, symptomToId, j) then 1 else 0
  {
    r := SymptomExtractionTrainer.PrepareClassificationData(TextsOf(items), AnnotationsOf(items), symptomToId);
  }

  // ---------------------------------------------------------------------------
  // _prepare_disease_prediction_data
  // ---------------------------------------------------------------------------

  /** A test case: its disease and the ids of its symptoms. */
  datatype Case = Case(diseaseId: string, symptomIds: seq<string>)

  /** Every known symptom's feature index is a valid numpy index for a vector
      of len(featureMapping) entries (negative ones count from the end). */
  predicate FeaturesFit(symptomIds: seq<string>, featureMapping: map<string, int>)
  {
    forall s :: s in symptomIds && s in featureMapping ==> PyIndex(featureMapping[s], |featureMapping|).Some?
  }

  /** Position p of the case vector is set by one of the case's symptoms. */
  predicate HasFeature(symptomIds: seq<string>, featureMapping: map<string, int>, p: nat)
  {
    exists s :: s in symptomIds && s in featureMapping && PyIndex(featureMapping[s], |featureMapping|) == Some(p)
  }

  /** The case vector: zeros with a one at every known symptom's index. */
  method EncodeCase(symptomIds: seq<string>, featureMapping: map<string, int>) returns (r: Result<seq<int>>)
    ensures r.Ok? <==> FeaturesFit(symptomIds, featureMapping)
    ensures r.Err? ==> r.error == IndexError
    ensures r.Ok? ==> |r.value| == |featureMapping|
    ensures r.Ok? ==> forall p :: 0 <= p < |featureMapping| ==>
              r.value[p] == if HasFeature(symptomIds, featureMapping, p) then 1 else 0
  {
    var vector := new int[|featureMapping|](_ => 0);
    for q := 0 to |symptomIds|
      invariant FeaturesFit(symptomIds[..q], featureMapping)
      invariant forall p :: 0 <= p < vector.Length ==>
                  vector[p] == if HasFeature(symptomIds[..q], featureMapping, p) then 1 else 0
    {
      var id := symptomIds[q];
      assert symptomIds[..q + 1] == symptomIds[..q] + [id];
      if id in featureMapping {
        var index := PyIndex(featureMapping[id], vector.Length);
        if index.None? {
          return Err(IndexError);
        }
        vector[index.value] := 1;
      }
    }
    assert symptomIds[..|symptomIds|] == symptomIds;
    r := Ok(vector[..]);
  }

  /** The evaluation data for disease prediction: one feature vector per case
      and one label per case. */
  datatype Encoded = Encoded(features: seq<seq<int>>, labels: seq<int>)

  /** _prepare_disease_prediction_data: one 0/1 vector of length
      len(featureMapping) and one label per case; the label is the disease's
      mapped index, or -1 for an unknown disease. */
  method PrepareDiseasePredictionData(cases: seq<Case>, featureMapping: map<string, int>,
                                      diseaseMapping: map<string, int>)
    returns (r: Result<Encoded>)
    ensures r.Ok? <==> forall k :: 0 <= k < |cases| ==> FeaturesFit(cases[k].symptomIds, featureMapping)
    ensures r.Err? ==> r.error == IndexError
    ensures r.Ok? ==> |r.value.features| == |cases| && |r.value.labels| == |cases|
    ensures r.Ok? ==> forall k :: 0 <= k < |cases| ==>
              |r.value.features[k]| == |featureMapping| &&
              forall p :: 0 <= p < |featureMapping| ==>
                r.value.features[k][p] == if HasFeature(cases[k].symptomIds, featureMapping, p) then 1 else 0
    ensures r.Ok? ==> forall k :: 0 <= k < |cases| ==>
              r.value.labels[k] == if cases[k].diseaseId in diseaseMapping then diseaseMapping[cases[k].diseaseId] else -1
  {
    var features: seq<seq<int>> := [];
    var labels: seq<int> := [];
    for k := 0 to |cases|
      invariant |features| == k && |labels| == k
      invariant forall u :: 0 <= u < k ==> FeaturesFit(cases[u].symptomIds, featureMapping)
      invariant forall u :: 0 <= u < k ==>
                  |features[u]| == |featureMapping| &&
                  forall p :: 0 <= p < |featureMapping| ==>
                    features[u][p] == if HasFeature(cases[u].symptomIds, featureMapping, p) then 1 else 0
      invariant forall u :: 0 <= u < k ==>
                  labels[u] == if cases[u].diseaseId in diseaseMapping then diseaseMapping[cases[u].diseaseId] else -1
    {
      var vector := EncodeCase(cases[k].symptomIds, featureMapping);
      if vector.Err? {
        return Err(IndexError);
      }
      features := features + [vector.value];
      var diseaseId := cases[k].diseaseId;
      if diseaseId in diseaseMapping {
        labels := labels + [diseaseMapping[diseaseId]];
      } else {
        labels := labels + [-1];
      }
    }
    r := Ok(Encoded(features, labels));
  }
}
