/** The scan orchestration engine of python-client/giskard/scanner/scanner.py.

    The collaborators the scanner calls but does not define (`validate_model`,
    `DetectorRegistry.get_detector_classes`, the detector classes' constructors and
    their `run` methods) are the function fields of an `Env`. An exception that one
    of them raises is a value (`Some(e)` or `Err(e)`) that the scanner hands back
    unchanged, since the source catches none of them. Every call the scanner makes
    to a collaborator is recorded, in order, as an `Event`, so that what was called
    before a failure, and what never was, can be stated. */
module Scanner {
  import opened Wrappers
  import opened Ranking
  import opened Registry

  /** Keyword arguments for one detector's constructor. */
  type Config = map<string, string>

  /** A model, of which the scanner reads only `model.meta.model_type.value`. */
  datatype Model = Model(modelType: string, name: string)

  /** A dataset, passed through to the collaborators unchanged. */
  datatype Dataset = Dataset(name: string)

  /** A Python exception: its class name and its message. */
  datatype Exception = Exception(kind: string, message: string)

  /** What `analyze` raises when no detector resolves. */
  const NO_DETECTORS: Exception :=
    Exception("RuntimeError", "No issue detectors available. Scan will not be performed.")

  /** A detector instance: the registry name and class it was built from, and the
      keyword arguments its constructor received. */
  datatype Detector = Detector(name: string, cls: DetectorClass, config: Config)

  /** The outcome of a scan: the issues, in the order they were collected. */
  datatype ScanResult = ScanResult(issues: seq<Issue>)

  /** The `only` argument of the constructor: omitted (None), one name (a `str`),
      or a sequence of names. */
  datatype OnlyArg = NoOnly | OneName(name: string) | ManyNames(names: seq<string>)

  /** A call made to a collaborator. */
  datatype Event =
    | Validate                                  // validate_model(model, dataset)
    | Lookup(tags: seq<string>)                 // DetectorRegistry.get_detector_classes(tags)
    | Construct(name: string, config: Config)   // detector_cls(**kwargs) for the class under name
    | Run(detector: Detector)                   // detector.run(model, dataset)

  /** The collaborators. `construct` answers whether the constructor of a class
      raises for the given keyword arguments; `run` gives the issues a detector
      finds, or the exception it raises. */
  datatype Env = Env(
    validateModel: (Model, Dataset) -> Option<Exception>,
    getDetectorClasses: seq<string> -> ClassMap,
    construct: (DetectorClass, Config) -> Option<Exception>,
    run: (Detector, Model, Dataset) -> Result<seq<Issue>, Exception>)

  /** A result together with the calls made to produce it. */
  datatype Traced<T> = Traced(result: Result<T, Exception>, trace: seq<Event>)

  // ---------------------------------------------------------------------------
  // Specification of get_detectors
  // ---------------------------------------------------------------------------

  /** `if self.only:` -- a stored allow-list filters only when it is non-empty. */
  predicate Filtering(only: Option<seq<string>>) {
    only.Some? && only.value != []
  }

  /** `self.params.get(name) or dict()`. The `or dict()` replaces only a missing
      entry: an empty entry is already the empty configuration. */
  function ConfigFor(params: map<string, Config>, name: string): (c: Config)
    ensures c == if name in params then params[name] else map[]
  {
    if name in params && params[name] != map[] then params[name] else map[]
  }

  /** `sel` is a dict `get_detectors` may iterate over after filtering: the
      model-type lookup itself when there is no filter; otherwise its entries whose
      names the allow-list lookup also returned, in whatever order the set
      `keys_to_keep` yields them. */
  predicate Resolves(env: Env, only: Option<seq<string>>, tags: seq<string>, sel: ClassMap) {
    var classes := env.getDetectorClasses(tags);
    if Filtering(only) then
      KeySet(sel) == KeySet(env.getDetectorClasses(only.value)) * KeySet(classes)
      && forall e :: e in sel ==> e in classes
    else
      sel == classes
  }

  /** The registry lookups of `get_detectors`: the tags first, then the allow-list. */
  function LookupEvents(only: Option<seq<string>>, tags: seq<string>): seq<Event> {
    [Lookup(tags)] + if Filtering(only) then [Lookup(only.value)] else []
  }

  /** One turn of the configuration loop of `get_detectors` after the turns that
      gave `prev`: build the detector registered under `entry` with its configuration. */
  function InstantiateStep(prev: Traced<seq<Detector>>, entry: Entry, params: map<string, Config>,
                           construct: (DetectorClass, Config) -> Option<Exception>): Traced<seq<Detector>>
  {
    if prev.result.Err? then prev
    else
      var config := ConfigFor(params, entry.0);
      var trace := prev.trace + [Construct(entry.0, config)];
      match construct(entry.1, config)
      case Some(e) => Traced(Err(e), trace)
      case None => Traced(Ok(prev.result.value + [Detector(entry.0, entry.1, config)]), trace)
  }

  /** The configuration loop of `get_detectors`: build the detectors of `sel` in
      order, stopping at the first constructor that raises. */
  function InstantiateAll(sel: seq<Entry>, params: map<string, Config>,
                          construct: (DetectorClass, Config) -> Option<Exception>): Traced<seq<Detector>>
  {
    if sel == [] then Traced(Ok([]), [])
    else InstantiateStep(InstantiateAll(sel[..|sel| - 1], params, construct), sel[|sel| - 1], params, construct)
  }

  /** `get_detectors(tags)` once the iteration order `sel` is fixed. */
  function GetDetectorsSpec(env: Env, params: map<string, Config>, only: Option<seq<string>>,
                            tags: seq<string>, sel: ClassMap): Traced<seq<Detector>>
  {
    var made := InstantiateAll(sel, params, env.construct);
    Traced(made.result, LookupEvents(only, tags) + made.trace)
  }

  // ---------------------------------------------------------------------------
  // Specification of analyze
  // ---------------------------------------------------------------------------

  /** One turn of the detector loop of `analyze` after the turns that gave `prev`:
      run `d`, rank its issues, keep the top 15 and append them. */
  function RunStep(prev: Traced<seq<Issue>>, d: Detector,
                   run: (Detector, Model, Dataset) -> Result<seq<Issue>, Exception>,
                   model: Model, dataset: Dataset): Traced<seq<Issue>>
  {
    if prev.result.Err? then prev
    else
      var trace := prev.trace + [Run(d)];
      match run(d, model, dataset)
      case Err(e) => Traced(Err(e), trace)
      case Ok(found) => Traced(Ok(prev.result.value + Top(found)), trace)
  }

  /** The detector loop of `analyze`: run the detectors in order, stopping at the
      first one that raises. */
  function RunAll(ds: seq<Detector>, run: (Detector, Model, Dataset) -> Result<seq<Issue>, Exception>,
                  model: Model, dataset: Dataset): Traced<seq<Issue>>
  {
    if ds == [] then Traced(Ok([]), [])
    else RunStep(RunAll(ds[..|ds| - 1], run, model, dataset), ds[|ds| - 1], run, model, dataset)
  }

  /** The calls and results of `first` followed, unless it failed, by those of `second`. */
  function Chain(first: Traced<seq<Issue>>, second: Traced<seq<Issue>>): Traced<seq<Issue>> {
    if first.result.Err? then first
    else match second.result
      case Err(e) => Traced(Err(e), first.trace + second.trace)
      case Ok(y) => Traced(Ok(first.result.value + y), first.trace + second.trace)
  }

  /** The part of `analyze` after `get_detectors` returned `ds`: fail if there is
      no detector, otherwise run them all. */
  function RunDetectors(ds: seq<Detector>, env: Env, model: Model, dataset: Dataset): Traced<ScanResult> {
    if ds == [] then Traced(Err(NO_DETECTORS), [])
    else
      var ran := RunAll(ds, env.run, model, dataset);
      match ran.result
      case Err(e) => Traced(Err(e), ran.trace)
      case Ok(issues) => Traced(Ok(ScanResult(issues)), ran.trace)
  }

  /** `analyze(model, dataset)` once the iteration order `sel` of `get_detectors` is fixed. */
  function AnalyzeSpec(env: Env, params: map<string, Config>, only: Option<seq<string>>,
                       model: Model, dataset: Dataset, sel: ClassMap): Traced<ScanResult>
  {
    match env.validateModel(model, dataset)
    case Some(e) => Traced(Err(e), [Validate])
    case None =>
      var got := GetDetectorsSpec(env, params, only, [model.modelType], sel);
      match got.result
      case Err(e) => Traced(Err(e), [Validate] + got.trace)
      case Ok(ds) =>
        var rest := RunDetectors(ds, env, model, dataset);
        Traced(rest.result, [Validate] + got.trace + rest.trace)
  }

  // ---------------------------------------------------------------------------
  // The scanner
  // ---------------------------------------------------------------------------

  /** `{k: classes[k] for k in keys_to_keep}`: the entries of `classes` whose names
      are in `keys`, in the arbitrary order in which the set yields them. */
  method Restrict(classes: ClassMap, keys: set<string>) returns (kept: ClassMap)
    requires keys <= KeySet(classes)
    ensures KeySet(kept) == keys
    ensures forall e :: e in kept ==> e in classes
  {
    kept := [];
    var rest := keys;
    while rest != {}
      invariant rest <= keys
      invariant KeySet(kept) == keys - rest
      invariant forall e :: e in kept ==> e in classes
      decreases |rest|
    {
      var k :| k in rest;
      var entry := (k, Get(classes, k));
      AppendFresh(kept, entry);
      kept, rest := kept + [entry], rest - {k};
    }
  }

  class Scanner {
    /** Constructor keyword arguments per detector name. */
    var params: map<string, Config>
    /** The allow-list of detector names or tags, if any. */
    var only: Option<seq<string>>

    /** `Scanner(params, only)`: a lone name becomes a one-element list and a
        missing `params` becomes the empty dict. */
    constructor (params: Option<map<string, Config>>, only: OnlyArg)
      ensures params.None? ==> this.params == map[]
      ensures params.Some? ==> this.params == params.value
      ensures only.NoOnly? ==> this.only == None
      ensures only.OneName? ==> this.only == Some([only.name])
      ensures only.ManyNames? ==> this.only == Some(only.names)
    {
      this.params := if params.Some? then params.value else map[];
      this.only := match only
        case NoOnly => None
        case OneName(name) => Some([name])
        case ManyNames(names) => Some(names);
    }

    /** The first half of `get_detectors(tags)`: look up the detector classes for
        `tags` and, when there is an allow-list, keep only the names that its own
        lookup also returns. */
    method SelectClasses(env: Env, tags: seq<string>) returns (classes: ClassMap, lookups: seq<Event>)
      ensures Resolves(env, only, tags, classes)
      ensures lookups == LookupEvents(only, tags)
    {
      classes := env.getDetectorClasses(tags);
      lookups := [Lookup(tags)];
      if only.Some? && only.value != [] {
        var onlyClasses := env.getDetectorClasses(only.value);
        lookups := lookups + [Lookup(only.value)];
        var keysToKeep := KeySet(onlyClasses) * KeySet(classes);
        classes := Restrict(classes, keysToKeep);
      }
    }

    /** `get_detectors(tags)`: select the detector classes, then build one instance
        per selected name, configured from `params`. `sel` is the order in which
        the selected classes were visited. */
    method GetDetectors(env: Env, tags: seq<string>)
      returns (detectors: Result<seq<Detector>, Exception>, trace: seq<Event>, ghost sel: ClassMap)
      ensures Resolves(env, only, tags, sel)
      ensures Traced(detectors, trace) == GetDetectorsSpec(env, params, only, tags, sel)
      ensures detectors.Ok? ==>
                forall d :: d in detectors.value ==>
                  (d.name, d.cls) in env.getDetectorClasses(tags) && d.config == ConfigFor(params, d.name)
      ensures |trace| >= 1 && trace[0] == Lookup(tags)
    {
      var classes, lookups := SelectClasses(env, tags);
      sel := classes;

      var made: seq<Detector> := [];
      var calls: seq<Event> := [];
      var i := 0;
      while i < |classes|
        invariant 0 <= i <= |classes|
        invariant InstantiateAll(classes[..i], params, env.construct) == Traced(Ok(made), calls)
      {
        var (name, cls) := classes[i];
        var config := ConfigFor(params, name);
        calls := calls + [Construct(name, config)];
        InstantiateNext(classes, i, params, env.construct);
        var raised := env.construct(cls, config);
        if raised.Some? {
          InstantiateErrorStops(classes, i + 1, params, env.construct);
          detectors, trace := Err(raised.value), lookups + calls;
          return;
        }
        made := made + [Detector(name, cls, config)];
        i := i + 1;
      }
      assert classes[..i] == classes;
      detectors, trace := Ok(made), lookups + calls;
      ResolvedDetectors(env, params, only, tags, sel);
    }

    /** `analyze(model, dataset)`: validate, resolve the detectors for the model's
        type, fail if there are none, then run them in order, keeping each one's 15
        most important issues. Progress printing is a no-op here. */
    method Analyze(env: Env, model: Model, dataset: Dataset)
      returns (res: Result<ScanResult, Exception>, trace: seq<Event>, ghost sel: ClassMap)
      ensures Resolves(env, only, [model.modelType], sel)
      ensures Traced(res, trace) == AnalyzeSpec(env, params, only, model, dataset, sel)
      ensures |trace| >= 1 && trace[0] == Validate
      ensures env.validateModel(model, dataset).Some? ==>
                res == Err(env.validateModel(model, dataset).value) && trace == [Validate]
      ensures env.validateModel(model, dataset).None? ==> |trace| >= 2 && trace[1] == Lookup([model.modelType])
    {
      trace := [Validate];
      var invalid := env.validateModel(model, dataset);
      if invalid.Some? {
        ghost var classes := env.getDetectorClasses([model.modelType]);
        sel := if Filtering(only) then Restricted(classes, KeySet(env.getDetectorClasses(only.value)))
               else classes;
        return Err(invalid.value), trace, sel;
      }

      var tags := [model.modelType];
      var got, calls;
      got, calls, sel := GetDetectors(env, tags);
      trace := trace + calls;
      if got.Err? {
        return Err(got.error), trace, sel;
      }
      var detectors := got.value;
      if detectors == [] {
        assert trace + [] == trace;
        return Err(NO_DETECTORS), trace, sel;
      }

      var issues: seq<Issue> := [];
      var runs: seq<Event> := [];
      var i := 0;
      while i < |detectors|
        invariant 0 <= i <= |detectors|
        invariant RunAll(detectors[..i], env.run, model, dataset) == Traced(Ok(issues), runs)
      {
        var detector := detectors[i];
        runs := runs + [Run(detector)];
        RunNext(detectors, i, env.run, model, dataset);
        var found := env.run(detector, model, dataset);
        if found.Err? {
          RunErrorStops(detectors, i + 1, env.run, model, dataset);
          return Err(found.error), trace + runs, sel;
        }
        issues := issues + Top(found.value);
        i := i + 1;
      }
      assert detectors[..i] == detectors;
      res, trace := Ok(ScanResult(issues)), trace + runs;
    }
  }

  // ---------------------------------------------------------------------------
  // Properties
  // ---------------------------------------------------------------------------

  /** One more turn of the configuration loop. */
  lemma InstantiateNext(sel: seq<Entry>, i: nat, params: map<string, Config>,
                        construct: (DetectorClass, Config) -> Option<Exception>)
    requires i < |sel|
    ensures InstantiateAll(sel[..i + 1], params, construct)
            == InstantiateStep(InstantiateAll(sel[..i], params, construct), sel[i], params, construct)
  {
    assert sel[..i + 1][..i] == sel[..i];
  }

  /** One more turn of the detector loop. */
  lemma RunNext(ds: seq<Detector>, i: nat, run: (Detector, Model, Dataset) -> Result<seq<Issue>, Exception>,
                model: Model, dataset: Dataset)
    requires i < |ds|
    ensures RunAll(ds[..i + 1], run, model, dataset)
            == RunStep(RunAll(ds[..i], run, model, dataset), ds[i], run, model, dataset)
  {
    assert ds[..i + 1][..i] == ds[..i];
  }

  /** Once a constructor has raised, the rest of the dict is never visited. */
  lemma {:induction false} InstantiateErrorStops(sel: seq<Entry>, i: nat, params: map<string, Config>,
                                                 construct: (DetectorClass, Config) -> Option<Exception>)
    requires i <= |sel|
    requires InstantiateAll(sel[..i], params, construct).result.Err?
    ensures InstantiateAll(sel, params, construct) == InstantiateAll(sel[..i], params, construct)
    decreases |sel|
  {
    if i < |sel| {
      var init := sel[..|sel| - 1];
      assert init[..i] == sel[..i];
      InstantiateErrorStops(init, i, params, construct);
    } else {
      assert sel[..i] == sel;
    }
  }

  /** Once a detector's `run` has raised, no later detector runs. */
  lemma {:induction false} RunErrorStops(ds: seq<Detector>, i: nat,
                                         run: (Detector, Model, Dataset) -> Result<seq<Issue>, Exception>,
                                         model: Model, dataset: Dataset)
    requires i <= |ds|
    requires RunAll(ds[..i], run, model, dataset).result.Err?
    ensures RunAll(ds, run, model, dataset) == RunAll(ds[..i], run, model, dataset)
    decreases |ds|
  {
    if i < |ds| {
      var init := ds[..|ds| - 1];
      assert init[..i] == ds[..i];
      RunErrorStops(init, i, run, model, dataset);
    } else {
      assert ds[..i] == ds;
    }
  }

  /** The number of issues the detectors in `ds` contribute: min(M, 15) for each
      detector whose `run` returns M issues. */
  function CappedTotal(ds: seq<Detector>, run: (Detector, Model, Dataset) -> Result<seq<Issue>, Exception>,
                       model: Model, dataset: Dataset): nat
  {
    if ds == [] then 0
    else
      var found := run(ds[|ds| - 1], model, dataset);
      CappedTotal(ds[..|ds| - 1], run, model, dataset)
        + if found.Ok? then Min(|found.value|, MAX_ISSUES_PER_DETECTOR) else 0
  }

  /** A scan never collects more than 15 issues per detector. */
  lemma {:induction false} CappedTotalBound(ds: seq<Detector>,
                                            run: (Detector, Model, Dataset) -> Result<seq<Issue>, Exception>,
                                            model: Model, dataset: Dataset)
    ensures CappedTotal(ds, run, model, dataset) <= MAX_ISSUES_PER_DETECTOR * |ds|
  {
    if ds != [] {
      CappedTotalBound(ds[..|ds| - 1], run, model, dataset);
    }
  }

  /** The configuration loop calls the constructors of the entries in order, one
      call per entry, until one raises; that exception is the result, unchanged. */
  lemma {:induction false} InstantiateAllCalls(sel: seq<Entry>, params: map<string, Config>,
                                               construct: (DetectorClass, Config) -> Option<Exception>)
    ensures var r := InstantiateAll(sel, params, construct);
            |r.trace| <= |sel|
            && forall i :: 0 <= i < |r.trace| ==> r.trace[i] == Construct(sel[i].0, ConfigFor(params, sel[i].0))
    ensures var r := InstantiateAll(sel, params, construct);
            forall i :: 0 <= i < |r.trace| - 1 ==> construct(sel[i].1, ConfigFor(params, sel[i].0)).None?
    ensures var r := InstantiateAll(sel, params, construct);
            r.result.Err? ==> r.trace != []
                              && construct(sel[|r.trace| - 1].1, ConfigFor(params, sel[|r.trace| - 1].0))
                                 == Some(r.result.error)
    ensures var r := InstantiateAll(sel, params, construct);
            r.result.Ok? ==> |r.trace| == |sel|
                             && forall i :: 0 <= i < |sel| ==> construct(sel[i].1, ConfigFor(params, sel[i].0)).None?
  {
    if sel != [] {
      var init, last := sel[..|sel| - 1], sel[|sel| - 1];
      InstantiateAllCalls(init, params, construct);
      var prev := InstantiateAll(init, params, construct);
      assert forall i :: 0 <= i < |init| ==> sel[i] == init[i];
      if prev.result.Ok? {
        var config := ConfigFor(params, last.0);
        assert InstantiateAll(sel, params, construct).trace == prev.trace + [Construct(last.0, config)];
      }
    }
  }

  /** The configuration loop succeeds exactly when no constructor raises, and then
      yields one detector per entry, in order, built from that entry's class and
      configuration. */
  lemma {:induction false} InstantiateAllBuilds(sel: seq<Entry>, params: map<string, Config>,
                                                construct: (DetectorClass, Config) -> Option<Exception>)
    ensures var r := InstantiateAll(sel, params, construct);
            r.result.Ok? <==> forall i :: 0 <= i < |sel| ==> construct(sel[i].1, ConfigFor(params, sel[i].0)).None?
    ensures var r := InstantiateAll(sel, params, construct);
            r.result.Ok? ==> |r.result.value| == |sel|
                             && forall i :: 0 <= i < |sel| ==>
                                  r.result.value[i] == Detector(sel[i].0, sel[i].1, ConfigFor(params, sel[i].0))
  {
    InstantiateAllCalls(sel, params, construct);
    if sel != [] {
      var init := sel[..|sel| - 1];
      InstantiateAllBuilds(init, params, construct);
      assert forall i :: 0 <= i < |init| ==> sel[i] == init[i];
    }
  }

  /** The detector loop runs the detectors in order, one call each, until one
      raises; that exception is the result, unchanged. */
  lemma {:induction false} RunAllCalls(ds: seq<Detector>,
                                       run: (Detector, Model, Dataset) -> Result<seq<Issue>, Exception>,
                                       model: Model, dataset: Dataset)
    ensures var r := RunAll(ds, run, model, dataset);
            |r.trace| <= |ds| && forall i :: 0 <= i < |r.trace| ==> r.trace[i] == Run(ds[i])
    ensures var r := RunAll(ds, run, model, dataset);
            forall i :: 0 <= i < |r.trace| - 1 ==> run(ds[i], model, dataset).Ok?
    ensures var r := RunAll(ds, run, model, dataset);
            r.result.Err? ==> r.trace != [] && run(ds[|r.trace| - 1], model, dataset) == Err(r.result.error)
    ensures var r := RunAll(ds, run, model, dataset);
            r.result.Ok? ==> |r.trace| == |ds| && forall i :: 0 <= i < |ds| ==> run(ds[i], model, dataset).Ok?
  {
    if ds != [] {
      var init, last := ds[..|ds| - 1], ds[|ds| - 1];
      RunAllCalls(init, run, model, dataset);
      var prev := RunAll(init, run, model, dataset);
      assert forall i :: 0 <= i < |init| ==> ds[i] == init[i];
      if prev.result.Ok? {
        assert RunAll(ds, run, model, dataset).trace == prev.trace + [Run(last)];
      }
    }
  }

  /** The detector loop succeeds exactly when no detector raises, and then holds
      min(M, 15) issues for each detector whose `run` returned M issues. */
  lemma {:induction false} RunAllCollects(ds: seq<Detector>,
                                          run: (Detector, Model, Dataset) -> Result<seq<Issue>, Exception>,
                                          model: Model, dataset: Dataset)
    ensures var r := RunAll(ds, run, model, dataset);
            r.result.Ok? <==> forall i :: 0 <= i < |ds| ==> run(ds[i], model, dataset).Ok?
    ensures var r := RunAll(ds, run, model, dataset);
            r.result.Ok? ==> |r.result.value| == CappedTotal(ds, run, model, dataset)
  {
    RunAllCalls(ds, run, model, dataset);
    if ds != [] {
      var init := ds[..|ds| - 1];
      RunAllCollects(init, run, model, dataset);
      var found := run(ds[|ds| - 1], model, dataset);
      if found.Ok? {
        TopLength(found.value);
      }
    }
  }

  /** The result is the per-detector contributions concatenated in detector order,
      with no global re-sort: running `a + b` is running `a`, then `b`. */
  lemma {:induction false} RunAllAppend(a: seq<Detector>, b: seq<Detector>,
                                        run: (Detector, Model, Dataset) -> Result<seq<Issue>, Exception>,
                                        model: Model, dataset: Dataset)
    ensures RunAll(a + b, run, model, dataset)
            == Chain(RunAll(a, run, model, dataset), RunAll(b, run, model, dataset))
    decreases |b|
  {
    if b == [] {
      assert a + b == a;
      var ra := RunAll(a, run, model, dataset);
      if ra.result.Ok? {
        assert ra.result.value + [] == ra.result.value;
        assert ra.trace + [] == ra.trace;
      }
    } else {
      var init, d := b[..|b| - 1], b[|b| - 1];
      assert (a + b)[..|a + b| - 1] == a + init;
      assert (a + b)[|a + b| - 1] == d;
      RunAllAppend(a, init, run, model, dataset);
      StepAfterChain(RunAll(a, run, model, dataset), RunAll(init, run, model, dataset), d, run, model, dataset);
    }
  }

  lemma StepAfterChain(first: Traced<seq<Issue>>, second: Traced<seq<Issue>>, d: Detector,
                       run: (Detector, Model, Dataset) -> Result<seq<Issue>, Exception>,
                       model: Model, dataset: Dataset)
    ensures RunStep(Chain(first, second), d, run, model, dataset)
            == Chain(first, RunStep(second, d, run, model, dataset))
  {
    if first.result.Ok? && second.result.Ok? {
      assert first.trace + second.trace + [Run(d)] == first.trace + (second.trace + [Run(d)]);
      match run(d, model, dataset)
      case Ok(found) =>
        assert first.result.value + second.result.value + Top(found)
            == first.result.value + (second.result.value + Top(found));
      case Err(_) =>
    }
  }

  /** A single detector contributes its top 15 issues, most important first. */
  lemma RunAllOne(d: Detector, run: (Detector, Model, Dataset) -> Result<seq<Issue>, Exception>,
                  model: Model, dataset: Dataset)
    ensures RunAll([d], run, model, dataset)
            == match run(d, model, dataset)
               case Err(e) => Traced(Err(e), [Run(d)])
               case Ok(found) => Traced(Ok(Top(found)), [Run(d)])
  {
    assert [d][..0] == [];
    assert [] + [Run(d)] == [Run(d)];
    match run(d, model, dataset)
    case Ok(found) => assert [] + Top(found) == Top(found);
    case Err(_) =>
  }

  /** With an allow-list, the detectors built are exactly those whose names both
      lookups returned; without one, exactly the model-type lookup's, in its order.
      Either way there is one detector per name, built from the class registered
      under that name and configured with `params[name]` or the empty configuration. */
  lemma ResolvedDetectors(env: Env, params: map<string, Config>, only: Option<seq<string>>,
                          tags: seq<string>, sel: ClassMap)
    requires Resolves(env, only, tags, sel)
    ensures var got := GetDetectorsSpec(env, params, only, tags, sel);
            var classes := env.getDetectorClasses(tags);
            got.result.Ok? ==>
              var ds := got.result.value;
              (Filtering(only) ==>
                 (set d | d in ds :: d.name) == KeySet(env.getDetectorClasses(only.value)) * KeySet(classes))
              && (!Filtering(only) ==> |ds| == |classes| && forall i :: 0 <= i < |ds| ==> ds[i].name == classes[i].0)
              && (forall i, j :: 0 <= i < j < |ds| ==> ds[i].name != ds[j].name)
              && (forall d :: d in ds ==> (d.name, d.cls) in classes && d.config == ConfigFor(params, d.name))
  {
    InstantiateAllBuilds(sel, params, env.construct);
    var got := GetDetectorsSpec(env, params, only, tags, sel);
    if got.result.Ok? {
      var ds := got.result.value;
      assert forall d :: d in ds ==> exists i :: 0 <= i < |sel| && d == ds[i];
      if Filtering(only) {
        forall n | n in KeySet(sel) ensures n in (set d | d in ds :: d.name) {
          var i :| 0 <= i < |sel| && sel[i].0 == n;
          assert ds[i].name == n;
        }
      }
    }
  }

  /** When nothing resolves -- no detector for the model type, or an allow-list
      that shares no name with it -- the scan raises the "no detectors" error right
      after the registry lookups: no detector is built or run. */
  lemma NothingResolves(env: Env, params: map<string, Config>, only: Option<seq<string>>,
                        model: Model, dataset: Dataset, sel: ClassMap)
    requires Resolves(env, only, [model.modelType], sel)
    requires env.validateModel(model, dataset).None?
    requires if Filtering(only)
             then KeySet(env.getDetectorClasses(only.value)) * KeySet(env.getDetectorClasses([model.modelType])) == {}
             else env.getDetectorClasses([model.modelType]) == []
    ensures AnalyzeSpec(env, params, only, model, dataset, sel)
            == Traced(Err(NO_DETECTORS), [Validate] + LookupEvents(only, [model.modelType]))
  {
    EmptyKeys(sel);
  }

  /** A scan returns a result exactly when validation passes, something resolves,
      no constructor raises and no detector raises; the result then holds at most
      15 issues per detector. */
  lemma AnalyzeSucceedsIff(env: Env, params: map<string, Config>, only: Option<seq<string>>,
                           model: Model, dataset: Dataset, sel: ClassMap)
    ensures AnalyzeSpec(env, params, only, model, dataset, sel).result.Ok?
            <==> env.validateModel(model, dataset).None?
                 && sel != []
                 && (forall i :: 0 <= i < |sel| ==> env.construct(sel[i].1, ConfigFor(params, sel[i].0)).None?)
                 && (forall i :: 0 <= i < |sel| ==>
                       env.run(Detector(sel[i].0, sel[i].1, ConfigFor(params, sel[i].0)), model, dataset).Ok?)
    ensures var r := AnalyzeSpec(env, params, only, model, dataset, sel);
            r.result.Ok? ==> |r.result.value.issues| <= MAX_ISSUES_PER_DETECTOR * |sel|
  {
    InstantiateAllBuilds(sel, params, env.construct);
    var made := InstantiateAll(sel, params, env.construct);
    if env.validateModel(model, dataset).None? && made.result.Ok? && sel != [] {
      var ds := made.result.value;
      RunAllCollects(ds, env.run, model, dataset);
      CappedTotalBound(ds, env.run, model, dataset);
    }
  }

  /** No exception is made up or altered: a failed scan reports the validation
      error, the "no detectors" error, or the exception of a constructor or of a
      detector's `run`, and the last call recorded is the one that failed. */
  lemma AnalyzeErrorPropagates(env: Env, params: map<string, Config>, only: Option<seq<string>>,
                               model: Model, dataset: Dataset, sel: ClassMap)
    ensures var r := AnalyzeSpec(env, params, only, model, dataset, sel);
            r.result.Err? ==>
              var e := r.result.error;
              var last := r.trace[|r.trace| - 1];
              (env.validateModel(model, dataset) == Some(e) && r.trace == [Validate])
              || (e == NO_DETECTORS && sel == [])
              || (last.Construct? && exists i :: 0 <= i < |sel| && last == Construct(sel[i].0, ConfigFor(params, sel[i].0))
                                               && env.construct(sel[i].1, last.config) == Some(e))
              || (last.Run? && env.run(last.detector, model, dataset) == Err(e))
  {
    InstantiateAllCalls(sel, params, env.construct);
    var made := InstantiateAll(sel, params, env.construct);
    if env.validateModel(model, dataset).None? && made.result.Ok? && made.result.value != [] {
      RunAllCalls(made.result.value, env.run, model, dataset);
    }
  }

  /** The phase of the scan a call belongs to. */
  function Phase(e: Event): nat {
    match e
    case Validate => 0
    case Lookup(_) => 1
    case Construct(_, _) => 2
    case Run(_) => 3
  }

  predicate InPhase(s: seq<Event>, p: nat) {
    forall i :: 0 <= i < |s| ==> Phase(s[i]) == p
  }

  predicate PhasesInOrder(s: seq<Event>) {
    forall i, j :: 0 <= i < j < |s| ==> Phase(s[i]) <= Phase(s[j])
  }

  lemma Phased(a: seq<Event>, b: seq<Event>, c: seq<Event>, d: seq<Event>)
    requires InPhase(a, 0) && InPhase(b, 1) && InPhase(c, 2) && InPhase(d, 3)
    ensures PhasesInOrder(a + b + c + d)
  {
    var t := a + b + c + d;
    forall i | 0 <= i < |t|
      ensures Phase(t[i]) == if i < |a| then 0 else if i < |a| + |b| then 1 else if i < |a| + |b| + |c| then 2 else 3
    {
      if i < |a| { assert t[i] == a[i]; }
      else if i < |a| + |b| { assert t[i] == b[i - |a|]; }
      else if i < |a| + |b| + |c| { assert t[i] == c[i - |a| - |b|]; }
      else { assert t[i] == d[i - |a| - |b| - |c|]; }
    }
  }

  lemma ConstructPhase(sel: seq<Entry>, params: map<string, Config>,
                       construct: (DetectorClass, Config) -> Option<Exception>)
    ensures InPhase(InstantiateAll(sel, params, construct).trace, 2)
  {
    InstantiateAllCalls(sel, params, construct);
  }

  lemma RunPhase(ds: seq<Detector>, run: (Detector, Model, Dataset) -> Result<seq<Issue>, Exception>,
                 model: Model, dataset: Dataset)
    ensures InPhase(RunAll(ds, run, model, dataset).trace, 3)
  {
    RunAllCalls(ds, run, model, dataset);
  }

  /** A scan's calls are a validation, then lookups, then constructor calls, then runs. */
  lemma AnalyzeTraceParts(env: Env, params: map<string, Config>, only: Option<seq<string>>,
                          model: Model, dataset: Dataset, sel: ClassMap)
    returns (lookups: seq<Event>, constructs: seq<Event>, runs: seq<Event>)
    ensures InPhase(lookups, 1) && InPhase(constructs, 2) && InPhase(runs, 3)
    ensures AnalyzeSpec(env, params, only, model, dataset, sel).trace == [Validate] + lookups + constructs + runs
  {
    if env.validateModel(model, dataset).Some? {
      lookups, constructs, runs := [], [], [];
    } else {
      lookups := LookupEvents(only, [model.modelType]);
      var made := InstantiateAll(sel, params, env.construct);
      ConstructPhase(sel, params, env.construct);
      constructs := made.trace;
      runs := [];
      if made.result.Ok? && made.result.value != [] {
        RunPhase(made.result.value, env.run, model, dataset);
        runs := RunAll(made.result.value, env.run, model, dataset).trace;
      }
    }
  }

  /** `validate_model` is the first call and is made once; every registry lookup
      comes before any constructor, and every constructor before any `run`. A
      failed validation is the only call made. */
  lemma AnalyzeCallOrder(env: Env, params: map<string, Config>, only: Option<seq<string>>,
                         model: Model, dataset: Dataset, sel: ClassMap)
    ensures var t := AnalyzeSpec(env, params, only, model, dataset, sel).trace;
            t != [] && t[0] == Validate && PhasesInOrder(t)
            && forall i :: 0 < i < |t| ==> t[i] != Validate
    ensures env.validateModel(model, dataset).Some? ==>
              AnalyzeSpec(env, params, only, model, dataset, sel)
              == Traced(Err(env.validateModel(model, dataset).value), [Validate])
  {
    var t := AnalyzeSpec(env, params, only, model, dataset, sel).trace;
    var lookups, constructs, runs := AnalyzeTraceParts(env, params, only, model, dataset, sel);
    Phased([Validate], lookups, constructs, runs);
    forall i | 0 < i < |t| ensures t[i] != Validate {
      assert t[i] in lookups + constructs + runs by {
        assert t == [Validate] + (lookups + constructs + runs);
      }
    }
  }
}
