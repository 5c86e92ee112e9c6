# robot-gitee-size, modelled in Dafny

The robot watches pull-request events on Gitee and keeps one size label
(`size/XS` … `size/XXL`) on each pull request. The label reflects the total
number of changed lines. This project models the robot's rule engine and
proves its properties:

- **Threshold policy** (`config.dfy`, module `Config`). The five thresholds
  `S`, `M`, `L`, `Xl`, `Xxl`. Their validation (all positive, non-decreasing).
  The configuration items and the whole configuration, including its nil
  case. The empty default-filling step. The per-repository lookup.
- **Classifier** (`labels.dfy`, module `Labels`). The label constants, the
  typed enumeration `SizeLabel`, and `CompareAndGetLabel`, the first-match
  threshold chain. It is tied to two independent references: `FirstAbove`
  (first threshold the count is below) and `CountReached` (how many
  thresholds the count has reached, which agrees on a valid policy).
- **Change aggregator** (`changes.dfy`, module `Changes`). Count parsing, with
  0 for malformed text. The summing loop over the changed files, proved equal
  to a reference sum that does not depend on file order.
- **Label reconciler and event filter** (`robot.dfy`, module `Robot`). The
  platform client is a class `Client`. It holds the remote pull request's
  label set, a log of every call made to it, and the answers it will give
  (its change list or a fetch error, the labels whose removal fails, and
  whether adding fails). `Robot.HandlePR` is the handler: fetch, aggregate,
  classify, then remove and add. It walks the event's label set in an
  arbitrarily chosen order, so its contract holds for every iteration order.
  Its whole outcome is the two-state predicate `HandledPR`. The removal loop is the
  method `RemoveSizeLabels`. `Robot.HandlePREvent` adds the event filter and
  the missing-configuration error, and otherwise ends with `HandledPR`.

`wrappers.dfy` holds the `Option` and `Result` datatypes.

Points of the code's behaviour worth noting:

- The action is compared with the literal `"open"` (robot.go:130).
- Thresholds may be equal: validation asks for non-decreasing order, not
  strictly increasing.
- The classifier is monotone for any thresholds, not only valid ones, so
  `LabelMonotone` has no validity requirement.
- The early "label already present" exit leaves any other size labels in
  place.

## Model

| member | source | states |
|---|---|---|
| Config.Size.Validate | config.go:85-95 | succeeds iff all five thresholds are positive and the whole sequence is non-decreasing (every threshold is at most every later one); fails with the invalid-value error iff some threshold is at most 0; fails with the wrong-relationship error iff all are positive but the order is broken somewhere |
| Config.ValidationExamples | config.go:85-95 | a zero `S` is rejected as invalid value, `S=50, M=10` as wrong relationship, and all thresholds equal to 1 are accepted |
| Config.BotConfig.Validate | config.go:72-83 | an item is valid iff its thresholds are valid, and its error is the threshold error |
| Config.Validate | config.go:30-42 | a nil configuration is valid; otherwise it is valid iff every item is valid, and a failure returns the error of the first failing item, all earlier items being valid |
| Config.SetDefault | config.go:44-53 | leaves every configuration item unchanged, because each item's default step (config.go:69-70) is empty; nil is accepted |
| Config.BotConfig.SetDefault | config.go:69-70 | the item's default step returns the item unchanged |
| Config.ConfigFor | config.go:13-28 | nil gives no item; otherwise the item at the index the library matcher returns for the whole item list, and no item when that index is negative |
| Labels.IsSizeLabel | robot.go:101 | a label is a size label iff the prefix `size/` fits in it and its first characters are exactly that prefix |
| Labels.SizeLabel.Name | robot.go:16-24 | every label string is one of the six constants and starts with the prefix `size/` |
| Labels.NameInjective | robot.go:19-24 | two labels with the same string are the same bucket |
| Labels.CompareAndGetLabel | robot.go:112-126 | total; the label's index (XS=0 … XXL=5) is the position of the first threshold the count is below, or 5 when the count reaches all of them |
| Labels.LabelCountsThresholds | robot.go:112-126 | for a valid policy the label's index equals the number of thresholds the count has reached |
| Labels.LabelMonotone | robot.go:112-126 | a count not larger than another never gets a larger label, in the order XS<S<M<L<XL<XXL |
| Labels.LabelBuckets | robot.go:113-125 | for a valid policy: XS iff count < S; S iff S ≤ count < M; M, L and XL likewise; XXL iff count ≥ Xxl; so a count equal to a threshold takes the upper label |
| Labels.BoundaryExamples | robot.go:112-126 | with thresholds 10, 50, 200, 500, 1000: 9→XS, 10→S, 49→S, 50→M, 1000→XXL, 1001→XXL |
| Changes.ParseInt | robot.go:87-88 | any text that is not an optional sign followed by digits parses to 0; a negative value needs a leading minus |
| Changes.ParseDecimal | robot.go:87-88 | the decimal text of a count parses back to that count, also with a `+` sign, and with a `-` sign to its negation |
| Changes.ChangeCount | robot.go:86-92 | the accumulated count equals the reference sum over all files of parsed additions plus parsed deletions |
| Changes.SumPermutation | robot.go:86-92 | two file lists that are permutations of each other have the same total |
| Changes.AggregationExample | robot.go:86-92 | files with counts "3"/"2" and "x"/"5" total 10, the malformed "x" counting 0 |
| Robot.IsPRChanged | robot.go:128-137 | true exactly for the actions "open" and source-branch-changed |
| Robot.TargetLabel | robot.go:86-94 | the label computed from the fetched files is always one of the six label strings |
| Robot.ReconciledLabels | robot.go:96-109 | when the remote set is the event's set: if the label is there the set is kept; otherwise its size labels become exactly the computed label; either way its non-size labels are unchanged |
| Robot.ReconcileIdempotent | robot.go:96-98 | reconciling again with the set the first reconciliation produced changes nothing; this holds for any label, and that the handler then makes no label call is the label-already-present case of `HandledPR` |
| Robot.Client.GetPullRequestChanges | robot.go:30 | returns the client's change list or error, logs the fetch, and changes no label |
| Robot.Client.RemovePRLabel | robot.go:29 | logs the removal; fails exactly for the labels set to fail; on success the label is gone, on failure the set is unchanged |
| Robot.Client.AddPRLabel | robot.go:28 | logs the add; returns the client's add error; on success the label is in the set, on failure the set is unchanged |
| Robot.Robot.constructor | robot.go:33-35 | the robot works through the client it is given |
| Robot.Robot.RemoveSizeLabels | robot.go:100-107 | in any order, removes each `size/` label seen at event time at most once and no other label; stops at the first failed removal with its error and the failing label last in the call log; otherwise every size label was removed, one call each |
| Robot.Robot.HandlePR | robot.go:80-110 | a fetch error is returned and only the fetch is logged; a label already on the pull request means no further call and no change; otherwise distinct removals are issued only for the pull request's `size/` labels. A failed removal returns its error at once, with no add and no rollback. If all removals succeed there is one per size label, then exactly one add of the computed label, whose error is returned as is; on success the remote set is the reconciled set |
| Robot.Robot.HandlePREvent | robot.go:62-78 | an action other than "open" or source-branch-changed returns no error and makes no call; a missing configuration item returns the no-config error and makes no call; otherwise the outcome is the full outcome of `HandlePR` (error, remote label set and call log) |

## Left out

- Webhook and plugin plumbing: `NewPluginConfig`, `RegisterEventHandler`, the
  type assertion in `getConfig`, and the conversion of the event into
  org/repo/number/labels. The pull request is given as a `PRInfo`, and
  `HandlePREvent` takes the configuration item already looked up.
- Logging through logrus: it has no effect on the outcome.
- The real Gitee client. It is replaced by `Client`, whose answers are fixed
  when it is built. That client stands for one pull request. It does not check
  the org/repo/number passed to it; the log records them. Removing a label the
  remote set does not hold succeeds.
- A failed removal or add is taken to change no remote label. The real
  client's behaviour on failure is not visible, and `HandlePR`'s failure cases
  state the remote set under this assumption.
- Config.ConfigFor: the library's `FindConfig` is not visible. It is a function
  parameter, required to return a negative number or an index into the items.
  The result is the item's value, not a reference into the slice.
- Config.BotConfig.Validate: checks only the thresholds. The repository-filter
  validation of the plugin library, which the source runs first, is not
  visible and is not modelled.
- The value of the library constant for the source-branch-changed action is
  taken as "source_branch_changed".
- Changes.ParseInt: Go's range errors, with their saturated values, are not
  modelled. Integers are unbounded, so the sum cannot overflow, and the 32-bit
  pull-request number is an unbounded integer.
- Error messages are constructors (`InvalidValue`, `WrongSizeRelationship`,
  `ClientError`, `NoConfigForRepo`) rather than formatted strings.
- JSON tags and `required` metadata of the configuration records.
