/** Two complete scans over a small registry: detector "A" has the tag
    "classification" and detector "B" the tag "regression". */
module Scenarios {
  import opened Wrappers
  import opened Ranking
  import opened Registry
  import opened Scanner

  const ClassA := DetectorClass("A")
  const ClassB := DetectorClass("B")

  /** The detectors of which one of `tags` is the name or a tag. */
  function TwoDetectorRegistry(tags: seq<string>): ClassMap {
    (if "A" in tags || "classification" in tags then [("A", ClassA)] else [])
    + (if "B" in tags || "regression" in tags then [("B", ClassB)] else [])
  }

  function AlwaysValid(model: Model, dataset: Dataset): Option<Exception> {
    None
  }

  function NeverRaises(cls: DetectorClass, config: Config): Option<Exception> {
    None
  }

  /** `n` issues with importances 1, 2, ..., n. */
  function Ramp(n: nat): seq<Issue> {
    seq(n, i => Issue((i + 1) as real, "issue"))
  }

  /** "A" finds `n` issues with importances 1 to n; every other detector finds none. */
  function RampRunner(n: nat): (Detector, Model, Dataset) -> Result<seq<Issue>, Exception> {
    (d: Detector, model: Model, dataset: Dataset) => if d.name == "A" then Ok(Ramp(n)) else Ok([])
  }

  function ScenarioEnv(n: nat): Env {
    Env(AlwaysValid, TwoDetectorRegistry, NeverRaises, RampRunner(n))
  }

  lemma RampIncreasing(n: nat)
    ensures Increasing(Ramp(n))
  {
  }

  lemma RampReversed(n: nat)
    requires n >= MAX_ISSUES_PER_DETECTOR
    ensures Reversed(Ramp(n))[..15] == seq(15, i => Issue((n - i) as real, "issue"))
  {
    var s, r := Ramp(n), Reversed(Ramp(n));
    forall i | 0 <= i < 15 ensures r[..15][i] == Issue((n - i) as real, "issue") {
      assert r[i] == s[n - 1 - i];
    }
  }

  /** Of n >= 15 issues with importances 1 to n, the fifteen kept are n down to n - 14. */
  lemma RampTop(n: nat)
    requires n >= MAX_ISSUES_PER_DETECTOR
    ensures Top(Ramp(n)) == seq(15, i => Issue((n - i) as real, "issue"))
  {
    RampIncreasing(n);
    SortDescIncreasing(Ramp(n));
    RampReversed(n);
  }

  /** A classification model and a detector "A" that finds n >= 15 issues with
      importances 1 to n: only "A" is built and run, and the result holds its
      fifteen most important issues, most important first. "B" is never built. */
  method ScanClassification(n: nat) returns (res: Result<ScanResult, Exception>, trace: seq<Event>)
    requires n >= MAX_ISSUES_PER_DETECTOR
    ensures res == Ok(ScanResult(seq(15, i => Issue((n - i) as real, "issue"))))
    ensures trace == [Validate, Lookup(["classification"]), Construct("A", map[]),
                      Run(Detector("A", ClassA, map[]))]
  {
    var scanner := new Scanner(None, NoOnly);
    var model := Model("classification", "m");
    var dataset := Dataset("d");
    ghost var sel;
    res, trace, sel := scanner.Analyze(ScenarioEnv(n), model, dataset);
    ClassificationSpec(n, model, dataset, sel);
  }

  lemma ClassificationSpec(n: nat, model: Model, dataset: Dataset, sel: ClassMap)
    requires n >= MAX_ISSUES_PER_DETECTOR && model.modelType == "classification"
    requires Resolves(ScenarioEnv(n), None, [model.modelType], sel)
    ensures AnalyzeSpec(ScenarioEnv(n), map[], None, model, dataset, sel)
            == Traced(Ok(ScanResult(seq(15, i => Issue((n - i) as real, "issue")))),
                      [Validate, Lookup(["classification"]), Construct("A", map[]),
                       Run(Detector("A", ClassA, map[]))])
  {
    ClassificationBuildsA(n, model, sel);
    ClassificationRunsA(n, model, dataset);
  }

  /** Only "A" resolves for a classification model, and it is built unconfigured. */
  lemma ClassificationBuildsA(n: nat, model: Model, sel: ClassMap)
    requires model.modelType == "classification"
    requires Resolves(ScenarioEnv(n), None, [model.modelType], sel)
    ensures GetDetectorsSpec(ScenarioEnv(n), map[], None, [model.modelType], sel)
            == Traced(Ok([Detector("A", ClassA, map[])]), [Lookup(["classification"]), Construct("A", map[])])
  {
    var env := ScenarioEnv(n);
    var d := Detector("A", ClassA, map[]);
    assert sel == [("A", ClassA)];
    assert ConfigFor(map[], "A") == map[];
    assert env.construct(ClassA, map[]) == None;
    assert sel[..0] == [];
    assert InstantiateAll(sel[..0], map[], env.construct) == Traced(Ok([]), []);
    assert InstantiateAll(sel, map[], env.construct)
        == InstantiateStep(Traced(Ok([]), []), ("A", ClassA), map[], env.construct);
    assert [] + [d] == [d] && [] + [Construct("A", map[])] == [Construct("A", map[])];
  }

  /** Running "A" alone keeps its fifteen most important issues. */
  lemma ClassificationRunsA(n: nat, model: Model, dataset: Dataset)
    requires n >= MAX_ISSUES_PER_DETECTOR
    ensures RunDetectors([Detector("A", ClassA, map[])], ScenarioEnv(n), model, dataset)
            == Traced(Ok(ScanResult(seq(15, i => Issue((n - i) as real, "issue")))),
                      [Run(Detector("A", ClassA, map[]))])
  {
    var d := Detector("A", ClassA, map[]);
    RunAllOne(d, ScenarioEnv(n).run, model, dataset);
    RampTop(n);
  }

  /** `Scanner(only="B")` on a classification model: "B" shares no name with the
      classification lookup, so nothing resolves and the scan fails after the
      two lookups, before any detector is built. */
  method ScanOnlyB() returns (res: Result<ScanResult, Exception>, trace: seq<Event>)
    ensures res == Err(NO_DETECTORS)
    ensures trace == [Validate, Lookup(["classification"]), Lookup(["B"])]
  {
    var scanner := new Scanner(None, OneName("B"));
    var env := ScenarioEnv(0);
    var model := Model("classification", "m");
    var dataset := Dataset("d");
    ghost var sel;
    res, trace, sel := scanner.Analyze(env, model, dataset);
    assert KeySet(TwoDetectorRegistry(["B"])) == {"B"};
    assert KeySet(TwoDetectorRegistry(["classification"])) == {"A"};
    NothingResolves(env, map[], Some(["B"]), model, dataset, sel);
  }
}
