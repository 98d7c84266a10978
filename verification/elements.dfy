/** The two custom elements: `<chartjs-chart>` (`ChartElement`) and `<chartjs-dataset>`
    (`ChartDataset`), with the state their methods update in place. */
module Elements {
  import opened Js
  import opened Debounce
  import opened DatasetList
  import opened Attributes
  import opened DataSource

  class ChartElement {
    const id: ElementId
    /** `this.chart` has been constructed. */
    var hasChart: bool
    /** The `type` the chart was constructed with. */
    var chartType: Option<string>
    /** `this.chart.options`. */
    var options: JsValue
    /** `this.chart.data.datasets`. */
    var datasets: seq<JsValue>
    /** `#pendingUpdate`. */
    var pending: bool
    /** Redraw callbacks handed to `setTimeout` and not yet run. */
    var scheduled: nat
    /** Calls of `this.chart.update('none')`. */
    var redraws: nat

    function TimerState(): Timer
      reads this
    {
      Timer(pending, scheduled, redraws)
    }

    ghost predicate Valid()
      reads this
    {
      AtMostOneScheduled(TimerState())
    }

    constructor (id: ElementId)
      ensures Valid() && this.id == id
      ensures !hasChart && datasets == [] && TimerState() == Idle
    {
      this.id := id;
      hasChart := false;
      chartType := None;
      options := Undefined;
      datasets := [];
      pending, scheduled, redraws := false, 0, 0;
    }

    /** `connectedCallback`: build the options from the host's attributes and construct
        a chart with no datasets. The canvas and the style are not modelled. */
    method Connect(attrs: Attrs, eval: string -> JsValue) returns (r: Outcome)
      requires Valid()
      modifies this
      ensures Valid()
      ensures HostOptions(attrs, eval).Ok? ==>
                r == Done && hasChart && options == HostOptions(attrs, eval).value
                && chartType == GetAttribute(attrs, "type") && datasets == []
                && TimerState() == old(TimerState())
      ensures HostOptions(attrs, eval).Err? ==>
                r == Threw(HostOptions(attrs, eval).error) && unchanged(this)
    {
      var nested := BuildOptions(attrs, HostOptionNames(attrs), eval);
      if nested.Err? {
        return Threw(nested.error);
      }
      options := Obj(nested.value.fields["maintainAspectRatio" := Bool(false)]);
      chartType := GetAttribute(attrs, "type");
      datasets := [];
      hasChart := true;
      r := Done;
    }

    /** The outer reduce of `connectedCallback`, run step by step from `{}`. */
    static method BuildOptions(attrs: Attrs, names: seq<string>, eval: string -> JsValue)
      returns (r: Result<JsValue>)
      ensures r == NestOptions(attrs, names, eval)
    {
      var obj := Obj(map[]);
      var i := 0;
      while i < |names|
        invariant 0 <= i <= |names|
        invariant NestOptions(attrs, names[..i], eval) == Ok(obj)
      {
        var path := names[i];
        assert names[..i + 1][..i] == names[..i];
        var placed := PlaceOption(obj, path, EvalAttribute(attrs, path, eval));
        if placed.Err? {
          NestOptionsErrorSticks(attrs, names, eval, i + 1);
          return placed;
        }
        obj := placed.value;
        i := i + 1;
      }
      assert names[..|names|] == names;
      r := Ok(obj);
    }

    /** `set data(data)`: replace the datasets wholesale and request a redraw. */
    method SetData(newDatasets: seq<JsValue>) returns (r: Outcome)
      requires Valid()
      modifies this
      ensures Valid()
      ensures !old(hasChart) ==> r == Threw(TypeError) && unchanged(this)
      ensures old(hasChart) ==>
                r == Done && datasets == newDatasets && TimerState() == Request(old(TimerState()))
                && hasChart && options == old(options) && chartType == old(chartType)
    {
      if !hasChart {
        return Threw(TypeError);
      }
      datasets := newDatasets;
      Update();
      r := Done;
    }

    /** `set options(options)`: replace the options; no redraw is requested. */
    method SetOptions(newOptions: JsValue) returns (r: Outcome)
      requires Valid()
      modifies this
      ensures Valid()
      ensures !old(hasChart) ==> r == Threw(TypeError) && unchanged(this)
      ensures old(hasChart) ==>
                r == Done && options == newOptions && TimerState() == old(TimerState())
                && hasChart && datasets == old(datasets) && chartType == old(chartType)
    {
      if !hasChart {
        return Threw(TypeError);
      }
      options := newOptions;
      r := Done;
    }

    /** `addOrReplaceDataset(predicate, dataset)`. */
    method AddOrReplaceDataset(pred: JsValue -> bool, dataset: JsValue) returns (r: Outcome)
      requires Valid()
      modifies this
      ensures Valid()
      ensures !old(hasChart) ==> r == Threw(TypeError) && unchanged(this)
      ensures old(hasChart) ==>
                r == Done && datasets == AddOrReplace(old(datasets), pred, dataset)
                && TimerState() == Request(old(TimerState()))
                && hasChart && options == old(options) && chartType == old(chartType)
    {
      if !hasChart {
        return Threw(TypeError);
      }
      var existing := FindIndex(datasets, pred);
      if existing == -1 {
        datasets := datasets + [dataset];
      } else {
        datasets := datasets[existing := dataset];
      }
      Update();
      r := Done;
    }

    /** `removeDataset(predicate)`. */
    method RemoveDataset(pred: JsValue -> bool) returns (r: Outcome)
      requires Valid()
      modifies this
      ensures Valid()
      ensures !old(hasChart) ==> r == Threw(TypeError) && unchanged(this)
      ensures old(hasChart) ==>
                r == Done && datasets == RemoveMatching(old(datasets), pred)
                && TimerState() == Request(old(TimerState()))
                && hasChart && options == old(options) && chartType == old(chartType)
    {
      if !hasChart {
        return Threw(TypeError);
      }
      datasets := RemoveMatching(datasets, pred);
      Update();
      r := Done;
    }

    /** `update()`: the debounced redraw request. */
    method Update()
      requires Valid()
      modifies this`pending, this`scheduled
      ensures Valid()
      ensures TimerState() == Request(old(TimerState()))
    {
      if pending {
        return;
      }
      pending := true;
      scheduled := scheduled + 1;
    }

    /** The callback `update()` hands to `setTimeout`, run by the environment. */
    method RunScheduledRedraw() returns (r: Outcome)
      requires Valid() && scheduled > 0
      modifies this`pending, this`scheduled, this`redraws
      ensures Valid()
      ensures TimerState() == Fire(old(TimerState()), hasChart)
      ensures r == if hasChart then Done else Threw(TypeError)
    {
      scheduled := scheduled - 1;
      if !hasChart {
        return Threw(TypeError);
      }
      redraws := redraws + 1;
      pending := false;
      r := Done;
    }
  }

  class ChartDataset {
    const id: ElementId
    /** `#chart`: the enclosing chart element, bound on connection. */
    var chart: ChartElement?

    constructor (id: ElementId)
      ensures this.id == id && chart == null
    {
      this.id := id;
      chart := null;
    }

    ghost predicate Valid()
      reads this, chart
    {
      chart != null ==> chart.Valid()
    }

    /** `syncDataset()`: assemble the record and add it to the bound chart, replacing the
        record this element owns. */
    method SyncDataset(env: Env) returns (r: Outcome)
      requires Valid()
      modifies chart
      ensures Valid()
      ensures SyncRecord(env, id).Err? ==>
                r == Threw(SyncRecord(env, id).error) && (chart != null ==> unchanged(chart))
      ensures SyncRecord(env, id).Ok? && chart == null ==> r == Done
      ensures SyncRecord(env, id).Ok? && chart != null && !old(chart.hasChart) ==>
                r == Threw(TypeError) && unchanged(chart)
      ensures SyncRecord(env, id).Ok? && chart != null && old(chart.hasChart) ==>
                r == Done
                && chart.datasets == AddOrReplace(old(chart.datasets), OwnedBy(id), SyncRecord(env, id).value)
                && chart.TimerState() == Request(old(chart.TimerState()))
                && chart.hasChart && chart.options == old(chart.options) && chart.chartType == old(chart.chartType)
      ensures chart != null && old(UniqueOwners(chart.datasets)) ==> UniqueOwners(chart.datasets)
    {
      var options := DatasetOptions(AttrsOf(env, id), env.safeEval);
      var data := ResolveData(env, id, env.stackDepth);
      if data.Err? {
        return Threw(data.error);
      }
      if chart == null {
        return Done;
      }
      var record := DatasetRecord(options, data.value, id);
      if chart.hasChart && UniqueOwners(chart.datasets) {
        SyncKeepsOwnersUnique(chart.datasets, id, record);
      }
      r := chart.AddOrReplaceDataset(OwnedBy(id), record);
    }

    /** `connectedCallback`: an element with `included="false"` stops at once; any
        other binds the enclosing chart `host` (what `closest('chartjs-chart')` returns,
        the same element `env.closestChart` names) and synchronises. The mutation
        observers it then installs are not modelled, except that installing the
        `data-from` observer on a missing chart throws a `TypeError`. */
    method Connected(env: Env, host: ChartElement?) returns (r: Outcome)
      requires Valid() && (host != null ==> host.Valid())
      requires host == null <==> id !in env.closestChart
      requires host != null ==> env.closestChart[id] == host.id
      modifies this, host
      ensures Valid()
      ensures Excluded(env, id) ==>
                r == Done && chart == old(chart) && (host != null ==> unchanged(host))
      ensures !Excluded(env, id) ==> chart == host
      ensures !Excluded(env, id) && SyncRecord(env, id).Err? ==>
                r == Threw(SyncRecord(env, id).error) && (host != null ==> unchanged(host))
      ensures !Excluded(env, id) && SyncRecord(env, id).Ok? && host != null && old(host.hasChart) ==>
                r == Done
                && host.datasets == AddOrReplace(old(host.datasets), OwnedBy(id), SyncRecord(env, id).value)
                && host.TimerState() == Request(old(host.TimerState()))
                && host.hasChart && host.options == old(host.options) && host.chartType == old(host.chartType)
      ensures !Excluded(env, id) && SyncRecord(env, id).Ok? && host != null && !old(host.hasChart) ==>
                r == Threw(TypeError) && unchanged(host)
      ensures !Excluded(env, id) && SyncRecord(env, id).Ok? && host == null ==>
                r == if HasText(env, id, "data-from") then Threw(TypeError) else Done
      ensures host != null && old(UniqueOwners(host.datasets)) ==> UniqueOwners(host.datasets)
    {
      if Excluded(env, id) {
        return Done;
      }
      chart := host;
      r := SyncDataset(env);
      if r == Done && host == null && HasText(env, id, "data-from") {
        // `dataObserver.observe(this.closest('chartjs-chart'), ...)` with no chart
        r := Threw(TypeError);
      }
    }

    /** `disconnectedCallback`: remove every record this element owns, then unbind. */
    method Disconnected() returns (r: Outcome)
      requires Valid()
      modifies this, chart
      ensures Valid()
      ensures old(chart) == null ==> r == Done && chart == null
      ensures old(chart) != null && old(chart.hasChart) ==>
                r == Done && chart == null
                && old(chart).datasets == RemoveMatching(old(chart.datasets), OwnedBy(id))
                && old(chart).TimerState() == Request(old(chart.TimerState()))
                && old(chart).hasChart && old(chart).options == old(chart.options)
                && old(chart).chartType == old(chart.chartType)
      ensures old(chart) != null && !old(chart.hasChart) ==>
                r == Threw(TypeError) && chart == old(chart) && unchanged(chart)
    {
      if chart != null {
        r := chart.RemoveDataset(OwnedBy(id));
        if r.Threw? {
          return;
        }
      }
      chart := null;
      r := Done;
    }
  }
}
