/** Encoding then decoding: prepare_ner_data's BIO labels for a text
    tokenized one character per token (offsets (i, i+1)), read back by the
    decoder of _extract_symptoms, give back exactly the annotated spans, in
    the order of their starts, each with type "SYMPTOM" and the text it
    covers. This holds for annotations that lie inside the text, are not
    empty and do not overlap. */
module BioRoundTrip {
  import opened Results
  import opened Builtins
  import opened Records
  import T = SymptomExtractionTrainer
  import D = TagDecoding

  /** A tokenizer that makes one token per character. */
  function OneCharOffsets(n: nat): (offs: seq<Offset>)
    ensures |offs| == n
    ensures forall i :: 0 <= i < n ==> offs[i] == Offset(i, i + 1)
  {
    seq(n, i requires 0 <= i < n => Offset(i, i + 1))
  }

  /** Annotations of a text of length n that are non-empty, lie inside the
      text and do not overlap one another. */
  predicate WellFormed(anns: seq<Annotation>, n: nat)
  {
    (forall k :: 0 <= k < |anns| ==> 0 <= anns[k].start < anns[k].end <= n) &&
    (forall k, l :: 0 <= k < l < |anns| ==> anns[k].end <= anns[l].start || anns[l].end <= anns[k].start)
  }

  /** The entity an annotation stands for. */
  function Span(t: string, a: Annotation): D.Entity
    requires 0 <= a.start <= a.end <= |t|
  {
    D.Entity(t[a.start..a.end], a.start, a.end, "SYMPTOM")
  }

  /** The entities are the annotations' spans, one per annotation, ordered
      by start. */
  predicate Recovers(t: string, anns: seq<Annotation>, es: seq<D.Entity>)
  {
    WellFormed(anns, |t|) && |es| == |anns| &&
    (forall k, l :: 0 <= k < l < |es| ==> es[k].start < es[l].start) &&
    (forall k :: 0 <= k < |es| ==> exists i :: 0 <= i < |anns| && es[k] == Span(t, anns[i])) &&
    (forall i :: 0 <= i < |anns| ==> Span(t, anns[i]) in es)
  }

  // ---------------------------------------------------------------------------
  // The character labels of well-formed annotations
  // ---------------------------------------------------------------------------

  lemma WellFormedTail(anns: seq<Annotation>, n: nat)
    requires WellFormed(anns, n) && |anns| > 0
    ensures WellFormed(anns[1..], n)
  {
    var tail := anns[1..];
    forall k, l | 0 <= k < l < |tail|
      ensures tail[k].end <= tail[l].start || tail[l].end <= tail[k].start
    {
      assert tail[k] == anns[k + 1] && tail[l] == anns[l + 1];
    }
  }

  /** Position p inside annotation k is labelled by that annotation alone:
      "B-SYMPTOM" at its start, "I-SYMPTOM" after. */
  lemma {:induction false} CoverAtSpan(anns: seq<Annotation>, n: nat, p: nat, d: string, k: nat)
    requires WellFormed(anns, n) && p < n && k < |anns| && anns[k].start <= p < anns[k].end
    ensures T.Cover(anns, n, p, d) == (if p == anns[k].start then T.BeginTag else T.InsideTag)
    decreases |anns|
  {
    var tag := if p == anns[k].start then T.BeginTag else T.InsideTag;
    if k == 0 {
      assert T.Over(anns[0], n, p, d) == tag;
      forall a | a in anns[1..]
        ensures T.Over(a, n, p, tag) == tag
      {
        var l :| 0 <= l < |anns[1..]| && anns[1..][l] == a;
        assert anns[l + 1] == a;
      }
      T.CoverUntouched(anns[1..], n, p, tag);
    } else {
      assert T.Over(anns[0], n, p, d) == d;
      WellFormedTail(anns, n);
      assert anns[1..][k - 1] == anns[k];
      CoverAtSpan(anns[1..], n, p, d, k - 1);
    }
  }

  /** A position no annotation covers keeps the label it had. */
  lemma CoverOutside(anns: seq<Annotation>, n: nat, p: nat, d: string)
    requires WellFormed(anns, n) && p < n
    requires forall k :: 0 <= k < |anns| ==> !(anns[k].start <= p < anns[k].end)
    ensures T.Cover(anns, n, p, d) == d
  {
    forall a | a in anns
      ensures T.Over(a, n, p, d) == d
    {
      var k :| 0 <= k < |anns| && anns[k] == a;
    }
    T.CoverUntouched(anns, n, p, d);
  }

  /** The label of position p: "O" when no annotation covers it (k == -1),
      otherwise the one annotation k that covers it decides. */
  lemma LabelCases(anns: seq<Annotation>, n: nat, p: nat) returns (k: int)
    requires WellFormed(anns, n) && p < n
    ensures -1 <= k < |anns|
    ensures k == -1 ==> T.Cover(anns, n, p, T.OutsideTag) == T.OutsideTag
    ensures k >= 0 ==> (anns[k].start <= p < anns[k].end &&
              T.Cover(anns, n, p, T.OutsideTag) == (if p == anns[k].start then T.BeginTag else T.InsideTag))
  {
    if l :| 0 <= l < |anns| && anns[l].start <= p < anns[l].end {
      k := l;
      CoverAtSpan(anns, n, p, T.OutsideTag, l);
    } else {
      k := -1;
      CoverOutside(anns, n, p, T.OutsideTag);
    }
  }

  // ---------------------------------------------------------------------------
  // Decoding the labels
  // ---------------------------------------------------------------------------

  /** The labels of one-character tokens are the character labels. */
  predicate LabelsOf(t: string, anns: seq<Annotation>, tags: seq<string>, offs: seq<Offset>)
  {
    |tags| == |t| && offs == OneCharOffsets(|t|) &&
    forall p :: 0 <= p < |t| ==> tags[p] == T.Cover(anns, |t|, p, T.OutsideTag)
  }

  /** Right after an annotation's end there is no "I-SYMPTOM". */
  lemma EndNotInside(anns: seq<Annotation>, n: nat, k: nat)
    requires WellFormed(anns, n) && k < |anns| && anns[k].end < n
    ensures T.Cover(anns, n, anns[k].end, T.OutsideTag) != T.InsideTag
  {
    var l := LabelCases(anns, n, anns[k].end);
    if l >= 0 && l != k {
      assert anns[l].start == anns[k].end;
    }
  }

  /** Growing annotation k's entity from position i on, through its
      "I-SYMPTOM" positions, reaches exactly its span. */
  lemma {:induction false} GrowSpan(t: string, anns: seq<Annotation>, tags: seq<string>, offs: seq<Offset>,
                                     k: nat, i: nat)
    requires WellFormed(anns, |t|) && LabelsOf(t, anns, tags, offs)
    requires k < |anns| && anns[k].start < i <= anns[k].end
    ensures D.Grow(t, tags, offs, i, D.Entity(t[anns[k].start..i], anns[k].start, i, "SYMPTOM")) ==
            Span(t, anns[k])
    decreases anns[k].end - i
  {
    var a := anns[k];
    if i < a.end {
      CoverAtSpan(anns, |t|, i, T.OutsideTag, k);
      assert D.IsInside(tags[i]) && !IsSpecial(offs[i]);
      assert t[a.start..i] + t[i..i + 1] == t[a.start..i + 1];
      GrowSpan(t, anns, tags, offs, k, i + 1);
    } else if i < |t| {
      EndNotInside(anns, |t|, k);
      var l := LabelCases(anns, |t|, i);
      assert !D.IsInside(tags[i]);
    }
  }

  /** Every annotation's start is a head token, and its entity is the
      annotation's span. */
  lemma EntityAtStart(t: string, anns: seq<Annotation>, tags: seq<string>, offs: seq<Offset>, k: nat)
    requires WellFormed(anns, |t|) && LabelsOf(t, anns, tags, offs) && k < |anns|
    ensures D.IsHead(tags, offs, anns[k].start)
    ensures D.EntityAt(t, tags, offs, anns[k].start) == Span(t, anns[k])
  {
    var j := anns[k].start;
    CoverAtSpan(anns, |t|, j, T.OutsideTag, k);
    assert T.BeginTag[2..] == "SYMPTOM";
    GrowSpan(t, anns, tags, offs, k, j + 1);
  }

  /** Every head token is the start of an annotation. */
  lemma HeadIsStart(t: string, anns: seq<Annotation>, tags: seq<string>, offs: seq<Offset>, j: nat)
    returns (k: nat)
    requires WellFormed(anns, |t|) && LabelsOf(t, anns, tags, offs)
    requires j < |offs| && D.IsHead(tags, offs, j)
    ensures k < |anns| && anns[k].start == j
  {
    var l := LabelCases(anns, |t|, j);
    assert T.InsideTag[..2][0] == 'I';
    assert !D.IsBegin(T.OutsideTag) && !D.IsBegin(T.InsideTag);
    assert l >= 0 && j == anns[l].start;
    k := l;
  }

  lemma {:induction false} DistinctCard(s: seq<int>)
    requires Distinct(s)
    ensures |set x | x in s| == |s|
  {
    if |s| > 0 {
      var init := s[..|s| - 1];
      assert Distinct(init);
      DistinctCard(init);
      assert (set x | x in s) == (set x | x in init) + {s[|s| - 1]};
      assert s[|s| - 1] !in init;
    }
  }

  /** Two sequences without repeats holding the same values have the same length. */
  lemma SameLength(a: seq<int>, b: seq<int>)
    requires Distinct(a) && Distinct(b) && forall x :: x in a <==> x in b
    ensures |a| == |b|
  {
    assert (set x | x in a) == (set x | x in b);
    DistinctCard(a);
    DistinctCard(b);
  }

  function Starts(anns: seq<Annotation>): (starts: seq<int>)
    ensures |starts| == |anns| && forall k :: 0 <= k < |anns| ==> starts[k] == anns[k].start
  {
    seq(|anns|, k requires 0 <= k < |anns| => anns[k].start)
  }

  /** The head tokens are exactly the annotations' starts. */
  lemma HeadsAreStarts(t: string, anns: seq<Annotation>, tags: seq<string>, offs: seq<Offset>)
    requires WellFormed(anns, |t|) && LabelsOf(t, anns, tags, offs)
    ensures forall x :: x in D.HeadsFrom(tags, offs, 0) <==> x in Starts(anns)
  {
    var heads := D.HeadsFrom(tags, offs, 0);
    var starts := Starts(anns);
    D.HeadsFromComplete(tags, offs, 0);
    forall x | x in heads
      ensures x in starts
    {
      var k := HeadIsStart(t, anns, tags, offs, x);
      assert starts[k] == x;
    }
    forall x | x in starts
      ensures x in heads
    {
      var k :| 0 <= k < |starts| && starts[k] == x;
      EntityAtStart(t, anns, tags, offs, k);
    }
  }

  /** As many head tokens as annotations. */
  lemma HeadCount(t: string, anns: seq<Annotation>, tags: seq<string>, offs: seq<Offset>)
    requires WellFormed(anns, |t|) && LabelsOf(t, anns, tags, offs)
    ensures |D.HeadsFrom(tags, offs, 0)| == |anns|
  {
    var heads := D.HeadsFrom(tags, offs, 0);
    D.HeadsFromSorted(tags, offs, 0);
    var hs: seq<int> := heads;
    assert Distinct(hs) by {
      forall i, j | 0 <= i < j < |hs|
        ensures hs[i] != hs[j]
      {
        assert heads[i] < heads[j];
      }
    }
    HeadsAreStarts(t, anns, tags, offs);
    SameLength(hs, Starts(anns));
  }

  /** Each decoded entity is the span of the annotation starting at its head. */
  lemma DecodedAreSpans(t: string, anns: seq<Annotation>, tags: seq<string>, offs: seq<Offset>)
    requires WellFormed(anns, |t|) && LabelsOf(t, anns, tags, offs)
    ensures var es := D.DecodeTags(t, tags, offs);
            |es| == |D.HeadsFrom(tags, offs, 0)| &&
            forall k :: 0 <= k < |es| ==>
              es[k].start == D.HeadsFrom(tags, offs, 0)[k] && exists i :: 0 <= i < |anns| && es[k] == Span(t, anns[i])
  {
    var es := D.DecodeTags(t, tags, offs);
    var heads := D.HeadsFrom(tags, offs, 0);
    D.DecodeTagsHeads(t, tags, offs);
    forall k | 0 <= k < |es|
      ensures es[k].start == heads[k] && exists i :: 0 <= i < |anns| && es[k] == Span(t, anns[i])
    {
      var i := HeadIsStart(t, anns, tags, offs, heads[k]);
      EntityAtStart(t, anns, tags, offs, i);
    }
  }

  /** Each annotation's span is decoded. */
  lemma SpansAreDecoded(t: string, anns: seq<Annotation>, tags: seq<string>, offs: seq<Offset>)
    requires WellFormed(anns, |t|) && LabelsOf(t, anns, tags, offs)
    ensures forall i :: 0 <= i < |anns| ==> Span(t, anns[i]) in D.DecodeTags(t, tags, offs)
  {
    var es := D.DecodeTags(t, tags, offs);
    var heads := D.HeadsFrom(tags, offs, 0);
    D.DecodeTagsHeads(t, tags, offs);
    D.HeadsFromComplete(tags, offs, 0);
    forall i | 0 <= i < |anns|
      ensures Span(t, anns[i]) in es
    {
      EntityAtStart(t, anns, tags, offs, i);
      var m :| 0 <= m < |heads| && heads[m] == anns[i].start;
      assert es[m] == Span(t, anns[i]);
    }
  }

  /** The decoder reads well-formed annotations back from their labels. */
  lemma DecodeLabels(t: string, anns: seq<Annotation>, tags: seq<string>, offs: seq<Offset>)
    requires WellFormed(anns, |t|) && LabelsOf(t, anns, tags, offs)
    ensures Recovers(t, anns, D.DecodeTags(t, tags, offs))
  {
    DecodedAreSpans(t, anns, tags, offs);
    SpansAreDecoded(t, anns, tags, offs);
    HeadCount(t, anns, tags, offs);
    D.HeadsFromSorted(tags, offs, 0);
  }

  // ---------------------------------------------------------------------------
  // The round trip
  // ---------------------------------------------------------------------------

  /** prepare_ner_data on one-character tokens, then the decoder: the
      annotated spans come back. */
  lemma RoundTrip(t: string, anns: seq<Annotation>, tok: T.Tokenized)
    requires WellFormed(anns, |t|) && tok.offsets == OneCharOffsets(|t|)
    ensures T.NerExampleOf(t, anns, tok).Ok?
    ensures |T.NerExampleOf(t, anns, tok).value.labels| == |tok.offsets|
    ensures Recovers(t, anns, D.DecodeTags(t, T.NerExampleOf(t, anns, tok).value.labels, tok.offsets))
  {
    var n := |t|;
    T.CharLabelsDefined(n, anns);
    var cl := T.CharLabelsOf(n, anns).value;
    forall p | 0 <= p < n
      ensures cl[p] == T.Cover(anns, n, p, T.OutsideTag)
    {
      T.CharLabelsAt(n, anns, p);
    }
    assert forall u :: 0 <= u < |tok.offsets| ==> T.Aligned(cl, tok.offsets[u]);
    var tags := T.AlignOf(cl, tok.offsets).value;
    assert LabelsOf(t, anns, tags, tok.offsets);
    DecodeLabels(t, anns, tags, tok.offsets);
  }

  /** The decoder of _extract_symptoms on predicted ids whose labels are
      the encoded ones (a model that predicts every token right) returns
      the annotated spans. */
  lemma RoundTripExtract(t: string, anns: seq<Annotation>, tok: T.Tokenized, preds: seq<nat>,
                         idToLabel: map<nat, string>)
    requires WellFormed(anns, |t|) && tok.offsets == OneCharOffsets(|t|)
    requires T.NerExampleOf(t, anns, tok).Ok?
    requires |preds| == |t|
    requires forall i :: 0 <= i < |preds| ==>
               preds[i] in idToLabel && idToLabel[preds[i]] == T.NerExampleOf(t, anns, tok).value.labels[i]
    ensures D.Decode(t, preds, tok.offsets, idToLabel).Ok?
    ensures Recovers(t, anns, D.Decode(t, preds, tok.offsets, idToLabel).value)
  {
    RoundTrip(t, anns, tok);
    var labels := T.NerExampleOf(t, anns, tok).value.labels;
    assert D.TagsOf(preds, idToLabel, |t|) == labels;
    assert tok.offsets[..|t|] == tok.offsets;
  }
}
