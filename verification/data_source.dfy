/** The `data` getter of a dataset element and the record `syncDataset` assembles. The
    document is a map from element to attributes; `closest('chartjs-chart')`,
    `querySelector`, `JSON.parse` and `trySafeEval` are given, not modelled. */
module DataSource {
  import opened Js
  import opened Names
  import opened DatasetList
  import opened Attributes

  datatype Env = Env(
    attributes: map<ElementId, Attrs>,
    // `element.closest('chartjs-chart')`, when there is one
    closestChart: map<ElementId, ElementId>,
    // `chart.querySelector(selector)`: the first match, if any, or the `SyntaxError`
    // an invalid selector throws
    querySelector: (ElementId, string) -> Result<Option<ElementId>>,
    // the element is a `<chartjs-dataset>`, whose `data` property is the getter below
    isDataset: ElementId -> bool,
    // the `data` property of any other element (`undefined` for most, a URL for `<object>`)
    foreignData: ElementId -> JsValue,
    // `JSON.parse`; `None` stands for the SyntaxError it throws
    jsonParse: string -> Option<JsValue>,
    // `trySafeEval`, which never throws
    safeEval: string -> JsValue,
    // how many nested `data` getter calls fit on the call stack
    stackDepth: nat)

  function AttrsOf(env: Env, e: ElementId): Attrs {
    if e in env.attributes then env.attributes[e] else []
  }

  /** `element.getAttribute(name)` is a non-empty string (a truthy attribute). */
  predicate HasText(env: Env, e: ElementId, name: string) {
    var a := GetAttribute(AttrsOf(env, e), name);
    a.Some? && a.value != ""
  }

  /** One run of the `data` getter of element `e` up to the point where it would call
      another element's getter: a non-empty `data` attribute is parsed as JSON; otherwise a
      non-empty `data-from` selector picks a dataset element inside the enclosing chart
      (the getter then delegates to it); otherwise the result is `undefined`. */
  datatype GetterStep = Answer(result: Result<JsValue>) | Delegate(source: ElementId)

  function Step(env: Env, e: ElementId): (r: GetterStep)
    ensures r.Delegate? ==> !HasText(env, e, "data") && HasText(env, e, "data-from") && e in env.closestChart
    ensures r.Delegate? ==> env.isDataset(r.source)
    ensures HasText(env, e, "data") ==> r.Answer? && (r.result.Ok? || r.result.error == SyntaxError)
  {
    if HasText(env, e, "data") then
      match env.jsonParse(GetAttribute(AttrsOf(env, e), "data").value)
      case Some(v) => Answer(Ok(v))
      case None => Answer(Err(SyntaxError))
    else if HasText(env, e, "data-from") then
      var selector := GetAttribute(AttrsOf(env, e), "data-from").value;
      if e !in env.closestChart then Answer(Err(TypeError))
      else
        match env.querySelector(env.closestChart[e], "chartjs-dataset" + selector)
        case Err(err) => Answer(Err(err))
        case Ok(None) => Answer(Ok(Undefined))
        case Ok(Some(source)) =>
          if env.isDataset(source) then Delegate(source) else Answer(Ok(env.foreignData(source)))
    else Answer(Ok(Undefined))
  }

  /** The `data` getter of element `e`, run with `depth` stack frames left. It does not
      detect `data-from` cycles: such a recursion exhausts the stack. */
  function ResolveData(env: Env, e: ElementId, depth: nat): (r: Result<JsValue>)
    ensures r.Ok? ==> depth > 0
    ensures depth > 0 && HasText(env, e, "data") ==> r.Ok? || r.error == SyntaxError
    decreases depth
  {
    if depth == 0 then Err(RangeError)
    else
      match Step(env, e)
      case Answer(r) => r
      case Delegate(source) => ResolveData(env, source, depth - 1)
  }

  /** The getter ran out of stack. */
  predicate Overflowed(r: Result<JsValue>) {
    r.Err? && r.error == RangeError
  }

  lemma ResolveOneStep(env: Env, e: ElementId, depth: nat)
    requires depth > 0
    ensures Step(env, e).Answer? ==> ResolveData(env, e, depth) == Step(env, e).result
    ensures Step(env, e).Delegate? ==> ResolveData(env, e, depth) == ResolveData(env, Step(env, e).source, depth - 1)
  {
  }

  /** A non-empty `data` attribute wins over `data-from`. */
  lemma DataAttributeWins(env: Env, e: ElementId, depth: nat)
    requires depth > 0 && HasText(env, e, "data")
    ensures env.jsonParse(GetAttribute(AttrsOf(env, e), "data").value).Some? ==>
              ResolveData(env, e, depth) == Ok(env.jsonParse(GetAttribute(AttrsOf(env, e), "data").value).value)
    ensures env.jsonParse(GetAttribute(AttrsOf(env, e), "data").value).None? ==>
              ResolveData(env, e, depth) == Err(SyntaxError)
  {
  }

  /** An empty or missing `data` attribute falls through to the element `data-from` selects,
      one getter call deeper. */
  lemma DataFromFollowsSource(env: Env, e: ElementId, depth: nat, source: ElementId)
    requires depth > 0 && !HasText(env, e, "data") && HasText(env, e, "data-from")
    requires e in env.closestChart
    requires env.querySelector(env.closestChart[e], "chartjs-dataset" + GetAttribute(AttrsOf(env, e), "data-from").value) == Ok(Some(source))
    requires env.isDataset(source)
    ensures ResolveData(env, e, depth) == ResolveData(env, source, depth - 1)
  {
  }

  /** Neither attribute, or a selector that matches nothing: `undefined`. */
  lemma NoSourceIsUndefined(env: Env, e: ElementId, depth: nat)
    requires depth > 0 && !HasText(env, e, "data")
    requires !HasText(env, e, "data-from")
             || (e in env.closestChart
                 && env.querySelector(env.closestChart[e], "chartjs-dataset" + GetAttribute(AttrsOf(env, e), "data-from").value) == Ok(None))
    ensures ResolveData(env, e, depth) == Ok(Undefined)
  {
  }

  /** A selector list or combinator in `data-from` can match an element that is not a
      dataset; the result is that element's own `data` property, not a getter call. */
  lemma ForeignMatchData(env: Env, e: ElementId, depth: nat, source: ElementId)
    requires depth > 0 && !HasText(env, e, "data") && HasText(env, e, "data-from")
    requires e in env.closestChart
    requires env.querySelector(env.closestChart[e], "chartjs-dataset" + GetAttribute(AttrsOf(env, e), "data-from").value) == Ok(Some(source))
    requires !env.isDataset(source)
    ensures ResolveData(env, e, depth) == Ok(env.foreignData(source))
  {
  }

  /** A `data-from` selector `querySelector` rejects makes the getter, and with it
      `syncDataset`, throw that exception. */
  lemma InvalidSelectorThrows(env: Env, e: ElementId, depth: nat, err: JsError)
    requires depth > 0 && !HasText(env, e, "data") && HasText(env, e, "data-from")
    requires e in env.closestChart
    requires env.querySelector(env.closestChart[e], "chartjs-dataset" + GetAttribute(AttrsOf(env, e), "data-from").value) == Err(err)
    ensures ResolveData(env, e, depth) == Err(err)
  {
  }

  /** With no enclosing chart, a `data-from` lookup throws a `TypeError`
      (`this.closest(...)` is `null`). */
  lemma NoChartDataFromThrows(env: Env, e: ElementId, depth: nat)
    requires depth > 0 && !HasText(env, e, "data") && HasText(env, e, "data-from")
    requires e !in env.closestChart
    ensures ResolveData(env, e, depth) == Err(TypeError)
  {
  }

  /** More stack never changes an answer that did not already run out of stack. */
  lemma {:induction false} DepthMonotone(env: Env, e: ElementId, depth: nat, more: nat)
    requires !Overflowed(ResolveData(env, e, depth))
    requires more >= depth
    ensures ResolveData(env, e, more) == ResolveData(env, e, depth)
    decreases depth
  {
    ResolveOneStep(env, e, depth);
    ResolveOneStep(env, e, more);
    var step := Step(env, e);
    if step.Delegate? {
      DepthMonotone(env, step.source, depth - 1, more - 1);
    }
  }

  /** A `data-from` that selects the element itself recurses until the stack is gone. */
  lemma {:induction false} SelfReferenceOverflows(env: Env, e: ElementId, depth: nat)
    requires !HasText(env, e, "data") && HasText(env, e, "data-from")
    requires e in env.closestChart
    requires env.querySelector(env.closestChart[e], "chartjs-dataset" + GetAttribute(AttrsOf(env, e), "data-from").value) == Ok(Some(e))
    requires env.isDataset(e)
    ensures ResolveData(env, e, depth) == Err(RangeError)
    decreases depth
  {
    if depth > 0 {
      SelfReferenceOverflows(env, e, depth - 1);
    }
  }

  /** `connectedCallback` returns at once for `included="false"`. */
  predicate Excluded(env: Env, e: ElementId) {
    GetAttribute(AttrsOf(env, e), "included") == Some("false")
  }

  /** What `syncDataset` hands to `addOrReplaceDataset`, or the exception that stops it
      first (only the `data` getter can throw). */
  function SyncRecord(env: Env, e: ElementId): (r: Result<JsValue>)
    ensures r.Err? <==> ResolveData(env, e, env.stackDepth).Err?
    ensures r.Err? ==> r.error == ResolveData(env, e, env.stackDepth).error
    ensures r.Ok? ==> OwnerOf(r.value) == Some(e)
    ensures r.Ok? ==> r.value.Obj? && "data" in r.value.fields
                      && r.value.fields["data"] == ResolveData(env, e, env.stackDepth).value
  {
    match ResolveData(env, e, env.stackDepth)
    case Err(err) => Err(err)
    case Ok(data) => Ok(DatasetRecord(DatasetOptions(AttrsOf(env, e), env.safeEval), data, e))
  }

  /** The record carries no option from an attribute named `data...` or `:...`, other
      than a key that an ordinary attribute also yields. */
  lemma RecordKeys(env: Env, e: ElementId, k: string)
    requires SyncRecord(env, e).Ok?
    ensures k in SyncRecord(env, e).value.fields <==>
              k == "data" || k == "owner"
              || exists n :: n in AttributeNames(AttrsOf(env, e)) && IsDatasetOption(n) && OptionKey(n) == k
  {
  }
}
