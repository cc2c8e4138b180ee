/** `PixArtAlphaDataPreprocessor.forward` of
    diffengine/models/editors/pixart_alpha/pixart_alpha_data_preprocessor.py,
    up to the call of the base class: merges a DreamBooth class-image batch
    into the instance batch and stacks the per-sample lists into batches.

    The nested `inputs` and `result_class_image` dicts are values inside the
    data dict; each in-place update of the source becomes an update of that
    value, made at the point where the source makes it. */
module PixArt {
  import opened Errors

  /** A per-sample element: a caption, or a tensor known only by identity. */
  datatype Item = Caption(text: string) | Tensor(id: nat)

  /** A dict value: a Python list, a batch made by torch.stack, or a dict. */
  datatype Field =
    | ListF(items: seq<Item>)
    | BatchF(rows: seq<Item>)
    | DictF(entries: map<string, Field>)

  const InputsKey := "inputs"
  const ClassImageKey := "result_class_image"
  const TextKey := "text"
  const ImgKey := "img"
  const ResolutionKey := "resolution"
  const AspectRatioKey := "aspect_ratio"

  /** Keys that forward may rewrite in the inputs dict. */
  const TouchedKeys: set<string> := {TextKey, ImgKey, ResolutionKey, AspectRatioKey, ClassImageKey}

  /** Python's `+` on two dict values: two lists give the list of the first
      one's elements followed by the second one's; anything else is a
      TypeError. */
  function Concat(a: Field, b: Field): (r: Result<Field>)
    ensures r.Ok? <==> a.ListF? && b.ListF?
    ensures r.Err? ==> r.error == UnsupportedConcat
    ensures r.Ok? ==> && r.value.ListF? && |r.value.items| == |a.items| + |b.items|
                      && r.value.items[..|a.items|] == a.items
                      && r.value.items[|a.items|..] == b.items
  {
    if a.ListF? && b.ListF? then Ok(ListF(a.items + b.items)) else Err(UnsupportedConcat)
  }

  predicate AllTensors(xs: seq<Item>) {
    forall i :: 0 <= i < |xs| ==> xs[i].Tensor?
  }

  /** torch.stack, seen only as: a non-empty list of tensors becomes a batch
      of the same length whose rows are the list's elements, in order. */
  function Stack(f: Field): (r: Result<Field>)
    ensures r.Ok? <==> f.ListF? && |f.items| > 0 && AllTensors(f.items)
    ensures r.Ok? ==> r.value.BatchF? && |r.value.rows| == |f.items| &&
                      forall i :: 0 <= i < |f.items| ==> r.value.rows[i] == f.items[i]
  {
    if !f.ListF? then Err(StackNotList)
    else if |f.items| == 0 then Err(StackEmpty)
    else if !AllTensors(f.items) then Err(StackNonTensor)
    else Ok(BatchF(f.items))
  }

  /** The inputs dict as far as forward got, and the error it raised. */
  datatype State = State(inputs: map<string, Field>, err: Option<Error>)

  /** Appends the class-image entry under `key` to the instance entry under
      `key`, popping it from the class-image dict. The instance entry is read
      first and the pop happens before the addition, so a failing addition
      leaves the key already popped. An earlier error is passed on untouched;
      no key is added or removed, and only `key` and the class-image dict
      change. */
  function MergeFromClass(s: State, key: string): (r: State)
    ensures s.err.Some? ==> r == s
    ensures r.inputs.Keys == s.inputs.Keys
    ensures forall k :: k in s.inputs && k != key && k != ClassImageKey ==> r.inputs[k] == s.inputs[k]
  {
    if s.err.Some? then s
    else if key !in s.inputs then State(s.inputs, Some(MissingKey(key)))
    else if ClassImageKey !in s.inputs then State(s.inputs, Some(MissingKey(ClassImageKey)))
    else match s.inputs[ClassImageKey]
      case DictF(cls) =>
        if key !in cls then State(s.inputs, Some(MissingKey(key)))
        else
          var popped := s.inputs[ClassImageKey := DictF(cls - {key})];
          (match Concat(s.inputs[key], cls[key])
           case Err(e) => State(popped, Some(e))
           case Ok(v) => State(popped[key := v], None))
      case _ => State(s.inputs, Some(NotADict(ClassImageKey)))
  }

  /** Replaces the list under `key` by its stack. An earlier error is passed
      on untouched; no key is added or removed, only `key` changes, and a
      success leaves a batch there. */
  function StackKey(s: State, key: string): (r: State)
    ensures s.err.Some? ==> r == s
    ensures r.inputs.Keys == s.inputs.Keys
    ensures forall k :: k in s.inputs && k != key ==> r.inputs[k] == s.inputs[k]
    ensures s.err.None? && r.err.None? ==> key in r.inputs && r.inputs[key].BatchF?
  {
    if s.err.Some? then s
    else if key !in s.inputs then State(s.inputs, Some(MissingKey(key)))
    else match Stack(s.inputs[key])
      case Err(e) => State(s.inputs, Some(e))
      case Ok(v) => State(s.inputs[key := v], None)
  }

  /** The DreamBooth step of forward: with a class-image dict, text and img,
      then resolution and aspect_ratio when the instance dict has them, are
      merged with the class entries. Without one nothing changes. The keys
      stay the same and only the merged keys and the class-image dict
      change. */
  function MergeClassBatch(inputs: map<string, Field>): (r: State)
    ensures ClassImageKey !in inputs ==> r == State(inputs, None)
    ensures r.inputs.Keys == inputs.Keys
    ensures forall k :: k in inputs && k !in TouchedKeys ==> r.inputs[k] == inputs[k]
  {
    var s0 := State(inputs, None);
    if ClassImageKey in inputs then
      var s1 := MergeFromClass(MergeFromClass(s0, TextKey), ImgKey);
      var s2 := if ResolutionKey in s1.inputs then MergeFromClass(s1, ResolutionKey) else s1;
      if AspectRatioKey in s2.inputs then MergeFromClass(s2, AspectRatioKey) else s2
    else s0
  }

  /** The stacking step of forward: img, then resolution and aspect_ratio
      when present, become batches. An earlier error is passed on; the keys
      stay the same and text and the class-image dict are not touched. */
  function StackBatch(s: State): (r: State)
    ensures s.err.Some? ==> r == s
    ensures r.inputs.Keys == s.inputs.Keys
    ensures forall k :: k in s.inputs && k != ImgKey && k != ResolutionKey && k != AspectRatioKey ==>
              r.inputs[k] == s.inputs[k]
  {
    var s1 := StackKey(s, ImgKey);
    var s2 := if ResolutionKey in s1.inputs then StackKey(s1, ResolutionKey) else s1;
    if AspectRatioKey in s2.inputs then StackKey(s2, AspectRatioKey) else s2
  }

  /** Forward on the inputs dict, merge then stack. It never adds or removes
      a key, whatever it raises (so it creates no resolution or aspect_ratio
      entry and keeps the emptied class-image dict), and every entry other
      than the touched keys stays as it was. */
  function ForwardInputs(inputs: map<string, Field>): (r: State)
    ensures r.inputs.Keys == inputs.Keys
    ensures forall k :: k in inputs && k !in TouchedKeys ==> r.inputs[k] == inputs[k]
  {
    StackBatch(MergeClassBatch(inputs))
  }

  datatype Outcome = Outcome(data: map<string, Field>, err: Option<Error>)

  /** Forward on the data dict: it fails on a missing or non-dict inputs
      entry, and otherwise changes nothing but that entry. */
  function ForwardData(data: map<string, Field>): (r: Outcome)
    ensures r.data.Keys == data.Keys
    ensures forall k :: k in data && k != InputsKey ==> r.data[k] == data[k]
    ensures InputsKey !in data ==> r.err == Some(MissingKey(InputsKey))
    ensures InputsKey in data && !data[InputsKey].DictF? ==> r == Outcome(data, Some(NotADict(InputsKey)))
  {
    if InputsKey !in data then Outcome(data, Some(MissingKey(InputsKey)))
    else match data[InputsKey]
      case DictF(inputs) =>
        var s := ForwardInputs(inputs);
        Outcome(data[InputsKey := DictF(s.inputs)], s.err)
      case _ => Outcome(data, Some(NotADict(InputsKey)))
  }

  // ---------------------------------------------------------------------
  // Properties of the specification

  /** Both dicts hold a list under `key`. */
  predicate Mergeable(inputs: map<string, Field>, cls: map<string, Field>, key: string) {
    key in inputs && key in cls && inputs[key].ListF? && cls[key].ListF?
  }

  /** The merged list under `key` can be stacked. */
  predicate Stackable(inputs: map<string, Field>, cls: map<string, Field>, key: string)
    requires Mergeable(inputs, cls, key)
  {
    |inputs[key].items + cls[key].items| > 0 && AllTensors(inputs[key].items + cls[key].items)
  }

  /** A DreamBooth batch forward handles without raising: both dicts hold
      text and img lists, every optional key of the instance dict also has a
      list in the class dict, and the merged tensor lists can be stacked. */
  predicate WellFormedDreamBooth(inputs: map<string, Field>) {
    && ClassImageKey in inputs && inputs[ClassImageKey].DictF?
    && var cls := inputs[ClassImageKey].entries;
       && Mergeable(inputs, cls, TextKey)
       && Mergeable(inputs, cls, ImgKey) && Stackable(inputs, cls, ImgKey)
       && (ResolutionKey in inputs ==> Mergeable(inputs, cls, ResolutionKey) && Stackable(inputs, cls, ResolutionKey))
       && (AspectRatioKey in inputs ==> Mergeable(inputs, cls, AspectRatioKey) && Stackable(inputs, cls, AspectRatioKey))
  }

  /** The keys that forward pops from the class-image dict. */
  function PoppedKeys(inputs: map<string, Field>): set<string> {
    {TextKey, ImgKey} + (if ResolutionKey in inputs then {ResolutionKey} else {})
                      + (if AspectRatioKey in inputs then {AspectRatioKey} else {})
  }

  /** One successful merge of `key`. */
  lemma MergeStepOk(s: State, key: string)
    requires s.err.None? && key != ClassImageKey
    requires ClassImageKey in s.inputs && s.inputs[ClassImageKey].DictF?
    requires Mergeable(s.inputs, s.inputs[ClassImageKey].entries, key)
    ensures var cls := s.inputs[ClassImageKey].entries;
            MergeFromClass(s, key) ==
              State(s.inputs[ClassImageKey := DictF(cls - {key})]
                            [key := ListF(s.inputs[key].items + cls[key].items)], None)
  {
  }

  /** With a class-image batch present and well formed, forward raises
      nothing; text is the instance texts followed by the class texts; img
      is the batch of the instance images followed by the class images, of
      the summed length; resolution and aspect_ratio, when present, are
      merged and stacked the same way; and the class-image dict loses
      exactly the popped keys. */
  lemma DreamBoothMerge(inputs: map<string, Field>)
    requires WellFormedDreamBooth(inputs)
    ensures var r := ForwardInputs(inputs);
            var cls := inputs[ClassImageKey].entries;
            && r.err == None
            && r.inputs[TextKey] == ListF(inputs[TextKey].items + cls[TextKey].items)
            && r.inputs[ImgKey] == BatchF(inputs[ImgKey].items + cls[ImgKey].items)
            && |r.inputs[ImgKey].rows| == |inputs[ImgKey].items| + |cls[ImgKey].items|
            && (ResolutionKey in inputs ==>
                  r.inputs[ResolutionKey] == BatchF(inputs[ResolutionKey].items + cls[ResolutionKey].items))
            && (AspectRatioKey in inputs ==>
                  r.inputs[AspectRatioKey] == BatchF(inputs[AspectRatioKey].items + cls[AspectRatioKey].items))
            && r.inputs[ClassImageKey] == DictF(cls - PoppedKeys(inputs))
  {
    var cls := inputs[ClassImageKey].entries;
    var s0 := State(inputs, None);
    MergeStepOk(s0, TextKey);
    var s1 := MergeFromClass(s0, TextKey);
    MergeStepOk(s1, ImgKey);
    var s2 := MergeFromClass(s1, ImgKey);
    assert s2.inputs[ClassImageKey] == DictF(cls - {TextKey, ImgKey});
    var s3 := if ResolutionKey in s2.inputs then MergeFromClass(s2, ResolutionKey) else s2;
    if ResolutionKey in inputs {
      MergeStepOk(s2, ResolutionKey);
      assert s3.inputs[ClassImageKey] == DictF(cls - {TextKey, ImgKey, ResolutionKey});
    }
    var s4 := if AspectRatioKey in s3.inputs then MergeFromClass(s3, AspectRatioKey) else s3;
    if AspectRatioKey in inputs {
      MergeStepOk(s3, AspectRatioKey);
    }
    assert s4 == MergeClassBatch(inputs);
    assert s4.err == None;
    assert s4.inputs[ClassImageKey] == DictF(cls - PoppedKeys(inputs));
    assert s4.inputs[ImgKey] == ListF(inputs[ImgKey].items + cls[ImgKey].items);
    var t1 := StackKey(s4, ImgKey);
    var t2 := if ResolutionKey in t1.inputs then StackKey(t1, ResolutionKey) else t1;
    var t3 := if AspectRatioKey in t2.inputs then StackKey(t2, AspectRatioKey) else t2;
    assert t3 == ForwardInputs(inputs);
  }

  /** If the instance dict has resolution (or aspect_ratio) but the class
      dict lacks it, the pop raises KeyError after text and img have already
      been merged: their class entries are gone and img is not stacked. */
  lemma MissingClassKeyRaises(inputs: map<string, Field>, key: string)
    requires key == ResolutionKey || key == AspectRatioKey
    requires ClassImageKey in inputs && inputs[ClassImageKey].DictF?
    requires var cls := inputs[ClassImageKey].entries;
             && Mergeable(inputs, cls, TextKey) && Mergeable(inputs, cls, ImgKey)
             && key in inputs && key !in cls
             && (key == AspectRatioKey && ResolutionKey in inputs ==> Mergeable(inputs, cls, ResolutionKey))
    ensures var r := ForwardInputs(inputs);
            var cls := inputs[ClassImageKey].entries;
            && r.err == Some(MissingKey(key))
            && ExceptionClass(r.err.value) == "KeyError"
            && r.inputs[TextKey] == ListF(inputs[TextKey].items + cls[TextKey].items)
            && r.inputs[ImgKey] == ListF(inputs[ImgKey].items + cls[ImgKey].items)
            && r.inputs[ClassImageKey].DictF?
            && TextKey !in r.inputs[ClassImageKey].entries && ImgKey !in r.inputs[ClassImageKey].entries
  {
    var cls := inputs[ClassImageKey].entries;
    var s0 := State(inputs, None);
    MergeStepOk(s0, TextKey);
    var s1 := MergeFromClass(s0, TextKey);
    MergeStepOk(s1, ImgKey);
    var s2 := MergeFromClass(s1, ImgKey);
    var s3 := if ResolutionKey in s2.inputs then MergeFromClass(s2, ResolutionKey) else s2;
    if key == AspectRatioKey && ResolutionKey in inputs {
      MergeStepOk(s2, ResolutionKey);
    }
    var s4 := if AspectRatioKey in s3.inputs then MergeFromClass(s3, AspectRatioKey) else s3;
    assert s4 == MergeClassBatch(inputs);
    assert s4.err == Some(MissingKey(key));
    assert StackBatch(s4) == s4;
  }

  /** Without a class-image batch, text is untouched and img becomes the
      stack of the original list, in order; this holds even if stacking a
      later key raises. */
  lemma NoClassImage(inputs: map<string, Field>)
    requires ClassImageKey !in inputs
    requires ImgKey in inputs && Stack(inputs[ImgKey]).Ok?
    ensures var r := ForwardInputs(inputs);
            && (TextKey in inputs ==> r.inputs[TextKey] == inputs[TextKey])
            && r.inputs[ImgKey] == BatchF(inputs[ImgKey].items)
            && |r.inputs[ImgKey].rows| == |inputs[ImgKey].items|
  {
    var s := MergeClassBatch(inputs);
    assert s == State(inputs, None);
    var t1 := StackKey(s, ImgKey);
    var t2 := if ResolutionKey in t1.inputs then StackKey(t1, ResolutionKey) else t1;
  }

  // ---------------------------------------------------------------------
  // The in-place implementation

  /** The data dict passed to forward, updated in place. */
  class Data {
    var entries: map<string, Field>

    constructor (entries: map<string, Field>)
      ensures this.entries == entries
    {
      this.entries := entries;
    }
  }

  /** The inputs dict held in the data dict. */
  function InputsOf(entries: map<string, Field>): map<string, Field>
    requires InputsKey in entries && entries[InputsKey].DictF?
  {
    entries[InputsKey].entries
  }

  /** One merge of `key`, made on the data dict in place. */
  method AppendPopped(data: Data, key: string) returns (err: Option<Error>)
    requires InputsKey in data.entries && data.entries[InputsKey].DictF?
    modifies data
    ensures var s := MergeFromClass(State(InputsOf(old(data.entries)), None), key);
            data.entries == old(data.entries)[InputsKey := DictF(s.inputs)] && err == s.err
  {
    var inputs := InputsOf(data.entries);
    if key !in inputs {
      return Some(MissingKey(key));
    }
    var left := inputs[key];
    if ClassImageKey !in inputs {
      return Some(MissingKey(ClassImageKey));
    }
    if !inputs[ClassImageKey].DictF? {
      return Some(NotADict(ClassImageKey));
    }
    var cls := inputs[ClassImageKey].entries;
    if key !in cls {
      return Some(MissingKey(key));
    }
    var right := cls[key];
    inputs := inputs[ClassImageKey := DictF(cls - {key})];
    data.entries := data.entries[InputsKey := DictF(inputs)];
    var sum := Concat(left, right);
    if sum.Err? {
      return Some(sum.error);
    }
    inputs := inputs[key := sum.value];
    data.entries := data.entries[InputsKey := DictF(inputs)];
    return None;
  }

  /** One stacking of `key`, made on the data dict in place. */
  method StackInPlace(data: Data, key: string) returns (err: Option<Error>)
    requires InputsKey in data.entries && data.entries[InputsKey].DictF?
    modifies data
    ensures var s := StackKey(State(InputsOf(old(data.entries)), None), key);
            data.entries == old(data.entries)[InputsKey := DictF(s.inputs)] && err == s.err
  {
    var inputs := InputsOf(data.entries);
    if key !in inputs {
      return Some(MissingKey(key));
    }
    var batch := Stack(inputs[key]);
    if batch.Err? {
      return Some(batch.error);
    }
    data.entries := data.entries[InputsKey := DictF(inputs[key := batch.value])];
    return None;
  }

  /** The DreamBooth merge, one key after another, on the data dict in
      place. */
  method MergeClassBatchInPlace(data: Data) returns (err: Option<Error>)
    requires InputsKey in data.entries && data.entries[InputsKey].DictF?
    modifies data
    ensures var s := MergeClassBatch(InputsOf(old(data.entries)));
            data.entries == old(data.entries)[InputsKey := DictF(s.inputs)] && err == s.err
  {
    err := None;
    ghost var s := State(InputsOf(data.entries), None);
    if ClassImageKey in InputsOf(data.entries) {
      err := AppendPopped(data, TextKey);
      s := MergeFromClass(s, TextKey);
      if err.None? {
        err := AppendPopped(data, ImgKey);
      }
      s := MergeFromClass(s, ImgKey);
      if err.None? && ResolutionKey in InputsOf(data.entries) {
        err := AppendPopped(data, ResolutionKey);
      }
      s := if ResolutionKey in s.inputs then MergeFromClass(s, ResolutionKey) else s;
      if err.None? && AspectRatioKey in InputsOf(data.entries) {
        err := AppendPopped(data, AspectRatioKey);
      }
      s := if AspectRatioKey in s.inputs then MergeFromClass(s, AspectRatioKey) else s;
    }
  }

  /** The stacking of img, resolution and aspect_ratio, one key after
      another, on the data dict in place. */
  method StackBatchInPlace(data: Data) returns (err: Option<Error>)
    requires InputsKey in data.entries && data.entries[InputsKey].DictF?
    modifies data
    ensures var s := StackBatch(State(InputsOf(old(data.entries)), None));
            data.entries == old(data.entries)[InputsKey := DictF(s.inputs)] && err == s.err
  {
    ghost var s := State(InputsOf(data.entries), None);
    err := StackInPlace(data, ImgKey);
    s := StackKey(s, ImgKey);
    if err.None? && ResolutionKey in InputsOf(data.entries) {
      err := StackInPlace(data, ResolutionKey);
    }
    s := if ResolutionKey in s.inputs then StackKey(s, ResolutionKey) else s;
    if err.None? && AspectRatioKey in InputsOf(data.entries) {
      err := StackInPlace(data, AspectRatioKey);
    }
    s := if AspectRatioKey in s.inputs then StackKey(s, AspectRatioKey) else s;
  }

  class PixArtAlphaDataPreprocessor {
    constructor ()
    {
    }

    /** Merges the class-image batch into the instance batch and stacks it,
        in place; the result is the error raised, if any. The base class's
        forward, called afterwards, is not part of this model. */
    method Forward(data: Data) returns (err: Option<Error>)
      modifies data
      ensures Outcome(data.entries, err) == ForwardData(old(data.entries))
    {
      if InputsKey !in data.entries {
        return Some(MissingKey(InputsKey));
      }
      if !data.entries[InputsKey].DictF? {
        return Some(NotADict(InputsKey));
      }
      err := MergeClassBatchInPlace(data);
      if err.None? {
        err := StackBatchInPlace(data);
      }
    }
  }
}
