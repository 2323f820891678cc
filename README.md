# Scan orchestration of the model scanner

This project models the `Scanner` class of `python-client/giskard/scanner/scanner.py`, the scan orchestration engine of a model-quality scanning framework, and proves properties of the model in Dafny.

A `Scanner` is built from two things:

- `params`, the per-detector constructor keyword arguments;
- an optional allow-list `only`.

`analyze(model, dataset)` works in these steps:

1. It validates the model against the dataset.
2. It resolves the detectors registered for the model's type. If there is an allow-list, it keeps only the names that the allow-list's own registry lookup also returns.
3. It builds one detector instance per resolved name, configured from `params`.
4. It fails if there are no detectors.
5. It runs the detectors one after another. For each one it ranks the issues found by descending importance, keeps the first 15, and appends them to the scan result.

The scanner keeps to a few rules, and the model keeps to them too:

- The "no detectors" failure is one `RuntimeError` with one fixed message, whatever the reason nothing resolved.
- `ScanResult` holds only the issues. It does not record which detectors ran.
- Configurations are not checked against any schema before construction. A constructor that rejects its keyword arguments raises, and that exception ends the scan.
- No failure is isolated to one detector. Any exception from a constructor or a `run` ends the scan unchanged.

The project has five modules:

- `Wrappers` (`wrappers.dfy`): `Option` and `Result`. An exception raised by a collaborator becomes a value that the scanner hands back unchanged.
- `Ranking` (`ranking.dfy`): `Issue`, `MAX_ISSUES_PER_DETECTOR`, and a stable descending insertion sort. That sort is the reference for `sorted(..., key=lambda i: -i.importance)`. `Top` is the sort followed by the `[:15]` slice.
- `Registry` (`registry.dfy`): the dict that `DetectorRegistry.get_detector_classes` returns. It is a sequence of (name, class) pairs with distinct names, in insertion order.
- `Scanner` (`scanner.dfy`): the `Scanner` class itself.
  - Its fields are `params` and `only`.
  - Its constructor, `get_detectors` and `analyze` are imperative methods with the source's loops.
  - The dict comprehension over the set `keys_to_keep` is the method `Restrict`. It takes the keys in an arbitrary order (`:|`).
  - Each method is proved equal to a specification function, given the iteration order it actually took. That order is returned as a ghost out-parameter `sel`.
  - The collaborators the scanner calls are the function fields of an `Env`: `validate_model`, the registry lookup, the detector constructors and `detector.run`.
  - Every call to a collaborator is recorded in an `Event` trace. This is what lets the model state which calls happen, in which order, and which never happen.
- `Scenarios` (`scenarios.dfy`): two complete scans over a two-detector registry.

## Model

| member | source | states |
|---|---|---|
| Scanner.Scanner.constructor | python-client/giskard/scanner/scanner.py:15-20 | A lone name becomes a one-element list. A list or no `only` is stored unchanged. A missing `params` becomes the empty map, and a given one is stored as is. |
| Scanner.Scanner.SelectClasses | python-client/giskard/scanner/scanner.py:57-63 | The model-type lookup comes first. The allow-list lookup comes second, and only when the allow-list is non-empty. The classes kept are exactly the names both lookups return (`Resolves`). |
| Scanner.Restrict | python-client/giskard/scanner/scanner.py:62-63 | Whatever order the set yields: the result has exactly the given keys, and each key is paired with the class `classes` registers under it. |
| Registry.Get | python-client/giskard/scanner/scanner.py:63 | `classes[k]` is the class paired with `k` in the dict. |
| Scanner.ConfigFor | python-client/giskard/scanner/scanner.py:67 | `params.get(name) or dict()` is `params[name]` whenever `name` is present, including an empty entry, and the empty configuration when it is absent. |
| Scanner.Scanner.GetDetectors | python-client/giskard/scanner/scanner.py:54-70 | The result and the calls made equal `GetDetectorsSpec` for the iteration order taken. That order is a valid outcome of the filtering. The first call is the model-type lookup. Every detector built comes from a (name, class) pair of that lookup, with `params[name]` or the empty configuration. |
| Scanner.Scanner.Analyze | python-client/giskard/scanner/scanner.py:22-52 | The result and the calls made equal `AnalyzeSpec` for the iteration order taken: validate, resolve, fail on no detectors, then run each detector and keep its top 15 issues. `validate_model` is the first call. If it raises, its exception is the result and nothing else is called. Otherwise the model-type lookup comes next. |
| Scanner.InstantiateAllCalls | python-client/giskard/scanner/scanner.py:66-68 | Constructors are called in dict order, one per entry, with that entry's configuration. Every call before the last succeeded. A failure is the last constructor's exception, unchanged. Success means every entry was visited. |
| Scanner.InstantiateAllBuilds | python-client/giskard/scanner/scanner.py:66-68 | Building succeeds if and only if no constructor raises. It then gives one detector per entry, in order, from that entry's name, class and configuration. |
| Scanner.InstantiateErrorStops | python-client/giskard/scanner/scanner.py:68 | Once a constructor has raised, no later entry is visited. |
| Scanner.ResolvedDetectors | python-client/giskard/scanner/scanner.py:57-68 | With an allow-list, the names built are the intersection of both lookups' keys. Without one, they are the model-type lookup's keys in its order. Each name is built once, from its registered class and `params[name]` or the empty configuration. |
| Scanner.RunAllCalls | python-client/giskard/scanner/scanner.py:40-46 | Detectors run in order, one `run` each. Every run before the last succeeded. A failure is the last run's exception, unchanged. Success means every detector ran. |
| Scanner.RunAllCollects | python-client/giskard/scanner/scanner.py:40-46 | The detector loop succeeds if and only if no `run` raises. It then holds the sum of min(M, 15) issues over the detectors. |
| Scanner.RunErrorStops | python-client/giskard/scanner/scanner.py:43 | Once a detector's `run` has raised, no later detector runs. |
| Scanner.RunAllAppend | python-client/giskard/scanner/scanner.py:40-46 | Running `a + b` is running `a`, then `b` only if `a` succeeded. Contributions are concatenated in detector order, with no global re-sort. |
| Scanner.RunAllOne | python-client/giskard/scanner/scanner.py:43-46 | One detector contributes exactly the top 15 of its own output, or its exception. |
| Scanner.CappedTotalBound | python-client/giskard/scanner/scanner.py:40-46 | The issues collected number at most 15 times the number of detectors. |
| Scanner.NothingResolves | python-client/giskard/scanner/scanner.py:29-32 | If no detector resolves (none for the model type, or no overlap with the allow-list), the scan raises the "no detectors" `RuntimeError` after the lookups. No constructor or `run` is called. |
| Scanner.AnalyzeSucceedsIff | python-client/giskard/scanner/scanner.py:22-52 | A scan returns a result if and only if validation passes, something resolves, no constructor raises and no detector raises. The result then holds at most 15 issues per detector. |
| Scanner.AnalyzeErrorPropagates | python-client/giskard/scanner/scanner.py:22-52 | A failed scan reports one of four errors, unchanged: the validation error, the "no detectors" error, the raising constructor's exception, or the raising detector's exception. The failing call is the last one made. |
| Scanner.AnalyzeTraceParts | python-client/giskard/scanner/scanner.py:24-46 | A scan's calls are one validation, then registry lookups, then constructor calls, then runs. |
| Scanner.AnalyzeCallOrder | python-client/giskard/scanner/scanner.py:24-46 | `validate_model` is the first call and is made once. Lookups come before constructors, and constructors before runs. A failed validation is the only call made. |
| Ranking.SortDesc | python-client/giskard/scanner/scanner.py:44 | The ranking has the same length and the same issues (multiset) as the detector's output, and is non-increasing in importance. |
| Ranking.SortDescStable | python-client/giskard/scanner/scanner.py:44 | The sort is stable: for every importance value, issues with that value keep the order the detector produced them in. |
| Ranking.SortDescUnique | python-client/giskard/scanner/scanner.py:44 | A non-increasing sequence with the same ties in the same order is the sort's output. The reference sort is therefore the only stable descending order. |
| Ranking.SortDescIncreasing | python-client/giskard/scanner/scanner.py:44 | An output listed from least to most important, with no ties, is ranked back to front. |
| Ranking.TopLength | python-client/giskard/scanner/scanner.py:11 | A detector contributes min(M, 15) issues. |
| Ranking.TopOrdered | python-client/giskard/scanner/scanner.py:44 | A detector's contribution is non-increasing in importance. |
| Ranking.TopKeepsMostImportant | python-client/giskard/scanner/scanner.py:44 | Kept issues come from the detector's own output. The kept issues plus the ranking's tail past position 15 make up that output. Every issue in that tail is at most as important as every kept one. |
| Ranking.TopKeepsAllWhenFew | python-client/giskard/scanner/scanner.py:44 | A detector that reports at most 15 issues keeps all of them, ranked. |
| Ranking.TopKeepsTieOrder | python-client/giskard/scanner/scanner.py:44 | For every importance value, the kept issues with that value are a prefix of the detector's issues with that value, in their original order. |
| Scenarios.RampTop | python-client/giskard/scanner/scanner.py:44 | Of n >= 15 issues with importances 1 to n, the issues kept have importances n down to n - 14. |
| Scenarios.ScanClassification | python-client/giskard/scanner/scanner.py:22-52 | The registry holds "A" (classification) and "B" (regression), and "A" finds issues with importances 1 to n. A classification scan builds and runs only "A" and returns its 15 most important issues in descending order. |
| Scenarios.ScanOnlyB | python-client/giskard/scanner/scanner.py:15-32 | `Scanner(only="B")` on a classification model: nothing resolves. The scan raises "no detectors" after the two lookups and builds nothing. |

## Left out

- Printing and logging (`maybe_print`, `logger.debug`, the `verbose` argument) have no effect on data and are not modelled. `maybe_print` is a no-op.
- The warnings filter (`warnings.catch_warnings()` / `simplefilter("ignore")`) is global interpreter state with no data effect, so it is not modelled.
- The internals of `DetectorRegistry`, `validate_model`, the detector classes and `ScanResult` are not part of this model. They are the fields of `Env`, and `ScanResult` is just the list of issues.
- A detector instance is its name, class and constructor arguments, and its `run` is a function of that instance, the model and the dataset. State a detector might carry between its construction and its run is not modelled.
- Importance is a Dafny `real`. Floating-point rounding and NaN ordering are not modelled.
- Python's dynamic typing is not modelled. `only` is absent, one string or a list of strings; `params` is absent or a map from names to keyword maps. Other iterables and falsy non-dict values of `params` are left out.
- A collaborator that never returns hangs the real scan. The model's collaborators are total functions.
- Scanner.Scanner.GetDetectors: with an allow-list, the order of the resulting detectors is whatever the set `keys_to_keep` yields. The contract fixes the set of names and the classes, not the order.
- Scanner.Scanner.Analyze: the same holds for the order in which detectors run and their contributions are concatenated under an allow-list.
- Scanner.Scanner.GetDetectors: the default `tags=None` is not modelled, because `analyze` always passes `[model_type]`. `tags` is always a list of strings.
