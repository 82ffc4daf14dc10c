/** The BIO tag decoder shared by the model evaluator's _extract_symptoms and
    the inline decoder of _evaluate_ner_model, as a specification: a state
    machine over the tokens (one entity open or none) that turns per-token tags
    plus character offsets back into entities. The imperative decoders are in
    module ModelEvaluator and are proved equal to Decode. */
module TagDecoding {
  import opened Results
  import opened Builtins
  import opened Records

  /** An entity found in a text: its text, its character span and its type
      (its entity type: the tag without its "B-" prefix). */
  datatype Entity = Entity(text: string, start: nat, end: nat, entityType: string)

  /** The decoder's state: the entities emitted so far and the open entity, if any. */
  datatype Decoder = Decoder(entities: seq<Entity>, current: Option<Entity>)

  const Empty: Decoder := Decoder([], None)

  /** The entities emitted so far followed by the open one, if any. */
  function Flush(d: Decoder): seq<Entity>
  {
    if d.current.Some? then d.entities + [d.current.value] else d.entities
  }

  predicate IsBegin(tag: string)
  {
    StartsWith(tag, "B-")
  }

  predicate IsInside(tag: string)
  {
    StartsWith(tag, "I-")
  }

  /** The entity a "B-" token opens: the token's own span and text. */
  function Open(text: string, tag: string, o: Offset): Entity
    requires IsBegin(tag)
  {
    Entity(Slice(text, o.start, o.end), o.start, o.end, tag[2..])
  }

  /** An "I-" token extends the open entity to the token's end and appends
      the token's text; start and entity type stay. */
  function Extend(text: string, e: Entity, o: Offset): Entity
  {
    e.(text := e.text + Slice(text, o.start, o.end), end := o.end)
  }

  /** One token. A special token changes nothing. "B-" emits the open entity
      and opens a new one; "I-" with an open entity extends it; anything else
      emits the open entity and leaves none open. */
  function Step(text: string, d: Decoder, tag: string, o: Offset): Decoder
  {
    if IsSpecial(o) then d
    else if IsBegin(tag) then Decoder(Flush(d), Some(Open(text, tag, o)))
    else if IsInside(tag) && d.current.Some? then
      Decoder(d.entities, Some(Extend(text, d.current.value, o)))
    else Decoder(Flush(d), None)
  }

  /** The decoder run over tokens i, i+1, ... from state d. */
  function Run(text: string, tags: seq<string>, offs: seq<Offset>, i: nat, d: Decoder): Decoder
    requires |tags| == |offs| && i <= |offs|
    decreases |offs| - i
  {
    if i == |offs| then d else Run(text, tags, offs, i + 1, Step(text, d, tags[i], offs[i]))
  }

  /** The entities of a tagged, tokenized text: the state machine from the
      empty state, then the last open entity emitted. */
  function DecodeTags(text: string, tags: seq<string>, offs: seq<Offset>): seq<Entity>
    requires |tags| == |offs|
  {
    Flush(Run(text, tags, offs, 0, Empty))
  }

  // ---------------------------------------------------------------------------
  // Predicted ids to tags
  // ---------------------------------------------------------------------------

  /** The decoder looks up the tag of every non-special token among the first
      min(|preds|, |offs|) (zip stops at the shorter sequence). */
  predicate AllKnown(preds: seq<nat>, offs: seq<Offset>, idToLabel: map<nat, string>)
  {
    forall i :: 0 <= i < |preds| && i < |offs| && !IsSpecial(offs[i]) ==> preds[i] in idToLabel
  }

  /** The tag of each token; a special token's tag is never looked up, so an
      unknown id there stands for no tag at all. */
  function TagsOf(preds: seq<nat>, idToLabel: map<nat, string>, n: nat): (tags: seq<string>)
    requires n <= |preds|
    ensures |tags| == n
  {
    seq(n, i requires 0 <= i < n => if preds[i] in idToLabel then idToLabel[preds[i]] else "O")
  }

  /** What _extract_symptoms returns for predicted label ids and offsets: the
      decoded entities, or KeyError when a non-special token's id has no label. */
  function Decode(text: string, preds: seq<nat>, offs: seq<Offset>, idToLabel: map<nat, string>): Result<seq<Entity>>
  {
    var n := Min(|preds|, |offs|);
    if AllKnown(preds, offs, idToLabel) then
      Ok(DecodeTags(text, TagsOf(preds, idToLabel, n), offs[..n]))
    else
      Err(KeyError)
  }

  // ---------------------------------------------------------------------------
  // What the decoder returns: one entity per "B-" token
  // ---------------------------------------------------------------------------

  /** A token that opens an entity: non-special with a "B-" tag. */
  predicate IsHead(tags: seq<string>, offs: seq<Offset>, i: nat)
    requires |tags| == |offs| && i < |offs|
  {
    !IsSpecial(offs[i]) && IsBegin(tags[i])
  }

  /** The positions from i on of the tokens that open entities, in order. */
  function HeadsFrom(tags: seq<string>, offs: seq<Offset>, i: nat): (h: seq<nat>)
    requires |tags| == |offs|
    ensures forall k :: 0 <= k < |h| ==> i <= h[k] < |offs| && IsHead(tags, offs, h[k])
    decreases |offs| - i
  {
    if i >= |offs| then []
    else (if IsHead(tags, offs, i) then [i] else []) + HeadsFrom(tags, offs, i + 1)
  }

  predicate Increasing(h: seq<nat>)
  {
    forall k, l :: 0 <= k < l < |h| ==> h[k] < h[l]
  }

  lemma PrependIncreasing(i: nat, t: seq<nat>)
    requires Increasing(t) && forall k :: 0 <= k < |t| ==> i < t[k]
    ensures Increasing([i] + t)
  {
    var h := [i] + t;
    forall k, l | 0 <= k < l < |h|
      ensures h[k] < h[l]
    {
      assert h[l] == t[l - 1];
      if k > 0 {
        assert h[k] == t[k - 1];
      }
    }
  }

  /** The heads from i on are in increasing order. */
  lemma {:induction false} HeadsFromSorted(tags: seq<string>, offs: seq<Offset>, i: nat)
    requires |tags| == |offs|
    ensures Increasing(HeadsFrom(tags, offs, i))
    decreases |offs| - i
  {
    if i < |offs| {
      HeadsFromSorted(tags, offs, i + 1);
      var t := HeadsFrom(tags, offs, i + 1);
      if IsHead(tags, offs, i) {
        assert HeadsFrom(tags, offs, i) == [i] + t;
        PrependIncreasing(i, t);
      } else {
        assert HeadsFrom(tags, offs, i) == t;
      }
    }
  }

  /** Every head token at or after i is among the heads from i on. */
  lemma {:induction false} HeadsFromComplete(tags: seq<string>, offs: seq<Offset>, i: nat)
    requires |tags| == |offs|
    ensures forall j :: i <= j < |offs| && IsHead(tags, offs, j) ==> j in HeadsFrom(tags, offs, i)
    decreases |offs| - i
  {
    if i < |offs| {
      HeadsFromComplete(tags, offs, i + 1);
      var h, t := HeadsFrom(tags, offs, i), HeadsFrom(tags, offs, i + 1);
      if IsHead(tags, offs, i) {
        assert h == [i] + t;
      } else {
        assert h == t;
      }
    }
  }

  /** The entity opened by a head token, grown from token i on: special tokens
      are passed over, each "I-" token extends it, and the first other token
      (or the end of the text) ends it. */
  function Grow(text: string, tags: seq<string>, offs: seq<Offset>, i: nat, e: Entity): Entity
    requires |tags| == |offs|
    decreases |offs| - i
  {
    if i >= |offs| then e
    else if IsSpecial(offs[i]) then Grow(text, tags, offs, i + 1, e)
    else if IsInside(tags[i]) then Grow(text, tags, offs, i + 1, Extend(text, e, offs[i]))
    else e
  }

  /** The complete entity opened by head token j. */
  function EntityAt(text: string, tags: seq<string>, offs: seq<Offset>, j: nat): Entity
    requires |tags| == |offs| && j < |offs| && IsHead(tags, offs, j)
  {
    Grow(text, tags, offs, j + 1, Open(text, tags[j], offs[j]))
  }

  /** The entities the head tokens from i on open, in order. */
  function EntitiesFrom(text: string, tags: seq<string>, offs: seq<Offset>, i: nat): seq<Entity>
    requires |tags| == |offs|
    decreases |offs| - i
  {
    if i >= |offs| then []
    else if IsHead(tags, offs, i) then [EntityAt(text, tags, offs, i)] + EntitiesFrom(text, tags, offs, i + 1)
    else EntitiesFrom(text, tags, offs, i + 1)
  }

  /** What state d still owes from token i on: its entities, then the open
      one grown from token i on. */
  function Pending(text: string, tags: seq<string>, offs: seq<Offset>, i: nat, d: Decoder): seq<Entity>
    requires |tags| == |offs|
  {
    d.entities + (if d.current.Some? then [Grow(text, tags, offs, i, d.current.value)] else [])
  }

  /** One step of the decoder keeps what is owed plus what the later heads open. */
  lemma StepPending(text: string, tags: seq<string>, offs: seq<Offset>, i: nat, d: Decoder)
    requires |tags| == |offs| && i < |offs|
    ensures Pending(text, tags, offs, i, d) + EntitiesFrom(text, tags, offs, i) ==
            Pending(text, tags, offs, i + 1, Step(text, d, tags[i], offs[i])) + EntitiesFrom(text, tags, offs, i + 1)
  {
    var next := Step(text, d, tags[i], offs[i]);
    var rest := EntitiesFrom(text, tags, offs, i + 1);
    if IsSpecial(offs[i]) {
    } else if IsBegin(tags[i]) {
      assert !IsInside(tags[i]);
      var e := EntityAt(text, tags, offs, i);
      assert EntitiesFrom(text, tags, offs, i) == [e] + rest;
      assert Pending(text, tags, offs, i + 1, next) == Flush(d) + [e];
    } else if IsInside(tags[i]) && d.current.Some? {
    } else {
      assert Pending(text, tags, offs, i + 1, next) == Flush(d);
    }
  }

  /** The decoder started at token i in state d emits the entities of d, then
      the open one grown from token i on, then one entity per head from i on. */
  lemma {:induction false} RunEmits(text: string, tags: seq<string>, offs: seq<Offset>, i: nat, d: Decoder)
    requires |tags| == |offs| && i <= |offs|
    ensures Flush(Run(text, tags, offs, i, d)) ==
              Pending(text, tags, offs, i, d) + EntitiesFrom(text, tags, offs, i)
    decreases |offs| - i
  {
    if i < |offs| {
      RunEmits(text, tags, offs, i + 1, Step(text, d, tags[i], offs[i]));
      StepPending(text, tags, offs, i, d);
    }
  }

  /** The decoded entities are exactly those the head tokens ("B-" tags on
      non-special tokens) open, one per head, in the order of the heads. */
  lemma DecodeTagsIsEntitiesFrom(text: string, tags: seq<string>, offs: seq<Offset>)
    requires |tags| == |offs|
    ensures DecodeTags(text, tags, offs) == EntitiesFrom(text, tags, offs, 0)
  {
    RunEmits(text, tags, offs, 0, Empty);
  }

  lemma {:induction false} EntitiesFromHeads(text: string, tags: seq<string>, offs: seq<Offset>, i: nat)
    requires |tags| == |offs|
    ensures |EntitiesFrom(text, tags, offs, i)| == |HeadsFrom(tags, offs, i)|
    ensures forall k :: 0 <= k < |HeadsFrom(tags, offs, i)| ==>
              EntitiesFrom(text, tags, offs, i)[k] == EntityAt(text, tags, offs, HeadsFrom(tags, offs, i)[k])
    decreases |offs| - i
  {
    if i < |offs| {
      EntitiesFromHeads(text, tags, offs, i + 1);
      var h := HeadsFrom(tags, offs, i + 1);
      var es := EntitiesFrom(text, tags, offs, i + 1);
      if IsHead(tags, offs, i) {
        assert HeadsFrom(tags, offs, i) == [i] + h;
        assert EntitiesFrom(text, tags, offs, i) == [EntityAt(text, tags, offs, i)] + es;
        forall k | 1 <= k < |h| + 1
          ensures ([EntityAt(text, tags, offs, i)] + es)[k] == EntityAt(text, tags, offs, ([i] + h)[k])
        {
          assert ([i] + h)[k] == h[k - 1];
        }
      } else {
        assert HeadsFrom(tags, offs, i) == h;
      }
    }
  }

  /** The number of decoded entities is the number of head tokens, and the
      k-th entity is the one the k-th head token opens. */
  lemma DecodeTagsHeads(text: string, tags: seq<string>, offs: seq<Offset>)
    requires |tags| == |offs|
    ensures |DecodeTags(text, tags, offs)| == |HeadsFrom(tags, offs, 0)|
    ensures forall k :: 0 <= k < |DecodeTags(text, tags, offs)| ==>
              DecodeTags(text, tags, offs)[k] == EntityAt(text, tags, offs, HeadsFrom(tags, offs, 0)[k])
  {
    DecodeTagsIsEntitiesFrom(text, tags, offs);
    EntitiesFromHeads(text, tags, offs, 0);
  }

  /** Growing never moves an entity's start or changes its entity type. */
  lemma {:induction false} GrowKeeps(text: string, tags: seq<string>, offs: seq<Offset>, i: nat, e: Entity)
    requires |tags| == |offs|
    ensures Grow(text, tags, offs, i, e).start == e.start
    ensures Grow(text, tags, offs, i, e).entityType == e.entityType
    decreases |offs| - i
  {
    if i < |offs| {
      if IsSpecial(offs[i]) {
        GrowKeeps(text, tags, offs, i + 1, e);
      } else if IsInside(tags[i]) {
        GrowKeeps(text, tags, offs, i + 1, Extend(text, e, offs[i]));
      }
    }
  }

  /** Corollary: the k-th entity starts at the k-th head token's start and its
      entity type is that token's tag minus "B-". */
  lemma DecodeTagsStartsAndTypes(text: string, tags: seq<string>, offs: seq<Offset>)
    requires |tags| == |offs|
    ensures |DecodeTags(text, tags, offs)| == |HeadsFrom(tags, offs, 0)|
    ensures forall k :: 0 <= k < |DecodeTags(text, tags, offs)| ==>
              var j := HeadsFrom(tags, offs, 0)[k];
              DecodeTags(text, tags, offs)[k].start == offs[j].start &&
              DecodeTags(text, tags, offs)[k].entityType == tags[j][2..]
  {
    DecodeTagsHeads(text, tags, offs);
    var h := HeadsFrom(tags, offs, 0);
    forall k | 0 <= k < |h|
      ensures EntityAt(text, tags, offs, h[k]).start == offs[h[k]].start
      ensures EntityAt(text, tags, offs, h[k]).entityType == tags[h[k]][2..]
    {
      GrowKeeps(text, tags, offs, h[k] + 1, Open(text, tags[h[k]], offs[h[k]]));
    }
  }
}
