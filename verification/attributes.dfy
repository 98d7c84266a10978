/** Element attributes and what the two elements build from them: the host's nested
    option object (`ChartElement.connectedCallback`) and a dataset's option map and
    record (`ChartDataset.syncDataset`). */
module Attributes {
  import opened Js
  import opened Names
  import opened OptionTree
  import opened DatasetList

  /** An element's attributes in document order, as (name, value) pairs. */
  type Attrs = seq<(string, string)>

  /** `getAttributeNames()`. */
  function AttributeNames(attrs: Attrs): (names: seq<string>)
    ensures |names| == |attrs| && forall i :: 0 <= i < |attrs| ==> names[i] == attrs[i].0
  {
    if |attrs| == 0 then [] else [attrs[0].0] + AttributeNames(attrs[1..])
  }

  /** `getAttribute(name)`: the value of the first attribute so named, or `null`. */
  function GetAttribute(attrs: Attrs, name: string): (r: Option<string>)
    ensures r.Some? ==> (name, r.value) in attrs
  {
    if |attrs| == 0 then None
    else if attrs[0].0 == name then Some(attrs[0].1)
    else GetAttribute(attrs[1..], name)
  }

  /** `getAttribute` finds exactly the names `getAttributeNames` lists. */
  lemma {:induction false} GetAttributeFindsListed(attrs: Attrs, name: string)
    ensures GetAttribute(attrs, name).Some? <==> name in AttributeNames(attrs)
    decreases |attrs|
  {
    if |attrs| > 0 {
      GetAttributeFindsListed(attrs[1..], name);
      assert AttributeNames(attrs) == [attrs[0].0] + AttributeNames(attrs[1..]);
    }
  }

  /** `trySafeEval(this.getAttribute(name))`; for a missing attribute the script is the text
      `null`, which evaluates to `null`. */
  function EvalAttribute(attrs: Attrs, name: string, eval: string -> JsValue): JsValue {
    match GetAttribute(attrs, name)
    case Some(text) => eval(text)
    case None => Null
  }

  // ----- host options -----

  /** One step of the outer reduce: place the attribute's value at its dotted path. */
  function PlaceOption(obj: JsValue, path: string, v: JsValue): (r: Result<JsValue>)
    ensures r.Ok? ==> r.value.Obj?
    ensures !obj.Obj? ==> r == Err(TypeError)
  {
    var parts := Split(path);
    SetPath(obj, parts[..|parts| - 1], parts[|parts| - 1], v)
  }

  /** The outer reduce over the selected attribute names, starting from `{}`; an exception
      in any step aborts the whole reduce. */
  function NestOptions(attrs: Attrs, names: seq<string>, eval: string -> JsValue): (r: Result<JsValue>)
    ensures r.Ok? ==> r.value.Obj?
    decreases |names|
  {
    if |names| == 0 then Ok(Obj(map[]))
    else
      var last := names[|names| - 1];
      match NestOptions(attrs, names[..|names| - 1], eval)
      case Err(e) => Err(e)
      case Ok(obj) => PlaceOption(obj, last, EvalAttribute(attrs, last, eval))
  }

  /** The names the filter of `connectedCallback` selects, in document order. */
  function HostOptionNames(attrs: Attrs): (names: seq<string>)
    ensures |names| <= |attrs|
    ensures forall i :: 0 <= i < |names| ==> IsHostOption(names[i])
  {
    Filter(AttributeNames(attrs), IsHostOption)
  }

  /** An exception at some step of the reduce is the exception of the whole reduce. */
  lemma {:induction false} NestOptionsErrorSticks(attrs: Attrs, names: seq<string>, eval: string -> JsValue, k: nat)
    requires k <= |names| && NestOptions(attrs, names[..k], eval).Err?
    ensures NestOptions(attrs, names, eval) == NestOptions(attrs, names[..k], eval)
    decreases |names| - k
  {
    if k < |names| {
      var prefix := names[..|names| - 1];
      assert prefix[..k] == names[..k];
      NestOptionsErrorSticks(attrs, prefix, eval, k);
    } else {
      assert names[..k] == names;
    }
  }

  /** The options object `connectedCallback` hands to the chart. */
  function HostOptions(attrs: Attrs, eval: string -> JsValue): (r: Result<JsValue>)
    ensures r.Ok? ==> r.value.Obj? && "maintainAspectRatio" in r.value.fields
                      && r.value.fields["maintainAspectRatio"] == Bool(false)
  {
    match NestOptions(attrs, HostOptionNames(attrs), eval)
    case Err(e) => Err(e)
    case Ok(obj) => Ok(Obj(obj.fields["maintainAspectRatio" := Bool(false)]))
  }

  /** An attribute's value survives the reduce at its own path unless a later attribute's
      path runs into it (equal, a prefix of it, or an extension of it). */
  lemma {:induction false} NestOptionsPlaces(attrs: Attrs, names: seq<string>, eval: string -> JsValue, i: nat)
    requires NestOptions(attrs, names, eval).Ok?
    requires i < |names|
    requires forall j :: i < j < |names| ==> Diverge(Split(names[j]), Split(names[i]))
    ensures Lookup(NestOptions(attrs, names, eval).value, Split(names[i])) == Some(EvalAttribute(attrs, names[i], eval))
    decreases |names|
  {
    var n := |names| - 1;
    var prefix := names[..n];
    var obj := NestOptions(attrs, prefix, eval).value;
    var parts := Split(names[n]);
    assert parts == parts[..|parts| - 1] + [parts[|parts| - 1]];
    if i == n {
      SetPathPlaces(obj, parts[..|parts| - 1], parts[|parts| - 1], EvalAttribute(attrs, names[n], eval));
    } else {
      assert prefix[i] == names[i];
      forall j | i < j < |prefix| ensures Diverge(Split(prefix[j]), Split(prefix[i])) {
        assert prefix[j] == names[j];
      }
      NestOptionsPlaces(attrs, prefix, eval, i);
      SetPathFrame(obj, parts[..|parts| - 1], parts[|parts| - 1], EvalAttribute(attrs, names[n], eval), Split(names[i]));
    }
  }

  /** Every selected attribute's value sits at its dotted path in the final options,
      unless a later selected attribute's path runs into it. */
  lemma HostOptionPlaced(attrs: Attrs, eval: string -> JsValue, i: nat)
    requires HostOptions(attrs, eval).Ok?
    requires i < |HostOptionNames(attrs)|
    requires forall j :: i < j < |HostOptionNames(attrs)| ==>
               Diverge(Split(HostOptionNames(attrs)[j]), Split(HostOptionNames(attrs)[i]))
    ensures Lookup(HostOptions(attrs, eval).value, Split(HostOptionNames(attrs)[i]))
            == Some(EvalAttribute(attrs, HostOptionNames(attrs)[i], eval))
  {
    var names := HostOptionNames(attrs);
    var name := names[i];
    var nested := NestOptions(attrs, names, eval).value;
    NestOptionsPlaces(attrs, names, eval, i);
    assert IsHostOption(name);
    SplitFirstIsPrefix(name);
    var first := Split(name)[0];
    HostOptionInitial(name);
    assert |first| == 0 || first[0] == name[0];
    assert "maintainAspectRatio"[0] == 'm';
    assert first != "maintainAspectRatio";
    assert Diverge([] + ["maintainAspectRatio"], Split(name)) by {
      assert ([] + ["maintainAspectRatio"])[0] != Split(name)[0];
    }
    SetPathFrame(nested, [], "maintainAspectRatio", Bool(false), Split(name));
  }

  lemma HostOptionInitial(name: string)
    requires IsHostOption(name)
    ensures |name| > 0 && name[0] != 'm'
  {
    if StartsWith(name, "plugins") { assert name[..7][0] == 'p'; }
    else if StartsWith(name, "interaction") { assert name[..11][0] == 'i'; }
    else if StartsWith(name, "scales") { assert name[..6][0] == 's'; }
  }

  /** With no attribute in the option namespaces the options are just
      `{maintainAspectRatio: false}`. */
  lemma NoHostOptionAttributes(attrs: Attrs, eval: string -> JsValue)
    requires forall i :: 0 <= i < |attrs| ==> !IsHostOption(attrs[i].0)
    ensures HostOptions(attrs, eval) == Ok(Obj(map["maintainAspectRatio" := Bool(false)]))
  {
    var names := AttributeNames(attrs);
    FilterCounts(names, IsHostOption);
    var selected := Filter(names, IsHostOption);
    assert forall x :: x in names ==> !IsHostOption(x);
    assert |selected| == 0;
  }

  /** Attributes outside the option namespaces are ignored, wherever they stand. */
  lemma IgnoresOtherAttributes(a: Attrs, b: Attrs, name: string, value: string, eval: string -> JsValue)
    requires !IsHostOption(name)
    ensures HostOptions(a + [(name, value)] + b, eval) == HostOptions(a + b, eval)
  {
    var with := a + [(name, value)] + b;
    var without := a + b;
    HostOptionNamesSkip(a, b, name, value);
    var selected := HostOptionNames(without);
    forall n | n in selected ensures GetAttribute(with, n) == GetAttribute(without, n) {
      FilterCounts(AttributeNames(without), IsHostOption);
      GetAttributeInsert(a, b, name, value, n);
    }
    NestOptionsOnlyReadsNames(with, without, selected, eval);
  }

  /** The filter of `connectedCallback` drops an inserted non-option attribute. */
  lemma HostOptionNamesSkip(a: Attrs, b: Attrs, name: string, value: string)
    requires !IsHostOption(name)
    ensures HostOptionNames(a + [(name, value)] + b) == HostOptionNames(a + b)
  {
    AttributeNamesAppend(a + [(name, value)], b);
    AttributeNamesAppend(a, [(name, value)]);
    AttributeNamesAppend(a, b);
    assert AttributeNames([(name, value)]) == [name];
    FilterSkip(AttributeNames(a), name, AttributeNames(b), IsHostOption);
  }

  lemma AttributeNamesAppend(a: Attrs, b: Attrs)
    ensures AttributeNames(a + b) == AttributeNames(a) + AttributeNames(b)
  {
    var l, r := AttributeNames(a + b), AttributeNames(a) + AttributeNames(b);
    assert |l| == |r|;
    forall i | 0 <= i < |l| ensures l[i] == r[i] {
      if i < |a| { assert (a + b)[i] == a[i]; } else { assert (a + b)[i] == b[i - |a|]; }
    }
  }

  /** Inserting an attribute with another name does not change what `getAttribute(n)`
      returns. */
  lemma {:induction false} GetAttributeInsert(a: Attrs, b: Attrs, name: string, value: string, n: string)
    requires n != name
    ensures GetAttribute(a + [(name, value)] + b, n) == GetAttribute(a + b, n)
    decreases |a|
  {
    if |a| > 0 {
      assert (a + [(name, value)] + b)[1..] == a[1..] + [(name, value)] + b;
      assert (a + b)[1..] == a[1..] + b;
      GetAttributeInsert(a[1..], b, name, value, n);
    } else {
      assert (a + [(name, value)] + b)[1..] == b;
      assert a + b == b;
    }
  }

  lemma {:induction false} GetAttributeAppend(attrs: Attrs, name: string, value: string, n: string)
    requires n != name
    ensures GetAttribute(attrs + [(name, value)], n) == GetAttribute(attrs, n)
    decreases |attrs|
  {
    if |attrs| > 0 {
      assert (attrs + [(name, value)])[1..] == attrs[1..] + [(name, value)];
      GetAttributeAppend(attrs[1..], name, value, n);
    } else {
      assert [(name, value)][1..] == [];
    }
  }

  /** The reduce reads only the attributes it is given the names of. */
  lemma {:induction false} NestOptionsOnlyReadsNames(a1: Attrs, a2: Attrs, names: seq<string>, eval: string -> JsValue)
    requires forall n :: n in names ==> GetAttribute(a1, n) == GetAttribute(a2, n)
    ensures NestOptions(a1, names, eval) == NestOptions(a2, names, eval)
    decreases |names|
  {
    if |names| > 0 {
      var prefix := names[..|names| - 1];
      assert forall n :: n in prefix ==> n in names;
      NestOptionsOnlyReadsNames(a1, a2, prefix, eval);
    }
  }

  // ----- dataset options and record -----

  /** The option key and evaluated value of a dataset attribute. */
  function OptionsFold(attrs: Attrs, names: seq<string>, eval: string -> JsValue): (r: map<string, JsValue>)
    ensures forall n :: n in names ==> OptionKey(n) in r
    ensures forall k :: k in r ==> exists n :: n in names && OptionKey(n) == k
    decreases |names|
  {
    if |names| == 0 then map[]
    else
      var last := names[|names| - 1];
      var prefix := names[..|names| - 1];
      assert names == prefix + [last];
      OptionsFold(attrs, prefix, eval)[OptionKey(last) := EvalAttribute(attrs, last, eval)]
  }

  /** The last attribute that yields a key decides that key's value. */
  lemma {:induction false} OptionsFoldLastWins(attrs: Attrs, names: seq<string>, eval: string -> JsValue, i: nat)
    requires i < |names|
    requires forall j :: i < j < |names| ==> OptionKey(names[j]) != OptionKey(names[i])
    ensures OptionsFold(attrs, names, eval)[OptionKey(names[i])] == EvalAttribute(attrs, names[i], eval)
    decreases |names|
  {
    if i < |names| - 1 {
      var prefix := names[..|names| - 1];
      assert prefix[i] == names[i];
      forall j | i < j < |prefix| ensures OptionKey(prefix[j]) != OptionKey(prefix[i]) {
        assert prefix[j] == names[j];
      }
      OptionsFoldLastWins(attrs, prefix, eval, i);
    }
  }

  /** The option object `syncDataset` builds: attributes whose names start with `data`
      or `:` are skipped, names become camel case with the axis-id renames, values go
      through `trySafeEval`. */
  function DatasetOptions(attrs: Attrs, eval: string -> JsValue): (r: map<string, JsValue>)
    ensures forall k :: k in r <==> exists n :: n in AttributeNames(attrs) && IsDatasetOption(n) && OptionKey(n) == k
  {
    var names := AttributeNames(attrs);
    FilterCounts(names, IsDatasetOption);
    OptionsFold(attrs, Filter(names, IsDatasetOption), eval)
  }

  /** `{...options, data, owner: this}`. */
  function DatasetRecord(options: map<string, JsValue>, data: JsValue, owner: ElementId): (r: JsValue)
    ensures r.Obj? && r.fields.Keys == options.Keys + {"data", "owner"}
    ensures r.fields["data"] == data && r.fields["owner"] == Ref(owner)
    ensures forall k :: k in options && k != "data" && k != "owner" ==> r.fields[k] == options[k]
    ensures OwnerOf(r) == Some(owner)
  {
    Obj(options["data" := data]["owner" := Ref(owner)])
  }
}
