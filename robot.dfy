/**
 * The robot: it filters pull-request events, fetches the changed files,
 * classifies the total change count and reconciles the pull request's size
 * label through a platform client whose calls may fail.
 */
module Robot {
  import opened Wrappers
  import opened Config
  import opened Labels
  import opened Changes

  /** The identity of a pull request on the platform. */
  datatype PRKey = PRKey(org: string, repo: string, number: int)

  /** What the event says about the pull request: its identity and its labels at event time. */
  datatype PRInfo = PRInfo(key: PRKey, labels: set<string>)

  /** One call made to the platform client. */
  datatype Call =
    | GetChanges(pr: PRKey)
    | RemoveLabel(pr: PRKey, name: string)
    | AddLabel(pr: PRKey, name: string)

  /** The errors the robot returns. */
  datatype Error =
    | ClientError(msg: string)                  // a platform call failed
    | NoConfigForRepo(org: string, repo: string)  // no configuration item applies

  /** The action kinds that trigger processing. */
  const ActionOpen: string := "open"
  const ActionChangedSourceBranch: string := "source_branch_changed"

  /** A label set's size labels. */
  function SizeLabelsOf(labels: set<string>): set<string>
  {
    set x | x in labels && IsSizeLabel(x)
  }

  /** A label set's other labels. */
  function OtherLabelsOf(labels: set<string>): set<string>
  {
    set x | x in labels && !IsSizeLabel(x)
  }

  function Elements(s: seq<string>): set<string>
  {
    set x | x in s
  }

  predicate Distinct(s: seq<string>)
  {
    forall i, j :: 0 <= i < j < |s| ==> s[i] != s[j]
  }

  /** The removal calls for `names`, in that order. */
  function Removals(pr: PRKey, names: seq<string>): seq<Call>
  {
    if names == [] then []
    else Removals(pr, names[..|names| - 1]) + [RemoveLabel(pr, names[|names| - 1])]
  }

  /**
   * Reference for a reconciliation whose calls all succeed: the remote set
   * `current`, given the event-time labels `seen` and the computed `name`.
   */
  function Reconciled(current: set<string>, seen: set<string>, name: string): set<string>
  {
    if name in seen then current else current - SizeLabelsOf(seen) + {name}
  }

  /**
   * When the remote set is the one the event showed: either it already had the
   * label and is kept, or its size labels become exactly the computed one and
   * its other labels stay as they were.
   */
  lemma ReconciledLabels(labels: set<string>, name: string)
    requires IsSizeLabel(name)
    ensures name in labels ==> Reconciled(labels, labels, name) == labels
    ensures name !in labels ==> SizeLabelsOf(Reconciled(labels, labels, name)) == {name}
    ensures OtherLabelsOf(Reconciled(labels, labels, name)) == OtherLabelsOf(labels)
  {
  }

  /**
   * Reconciling a second time with the label set the first one produced
   * changes nothing. This holds for any `name`, since the first pass always
   * leaves `name` in the set; that the handler then makes no label call is
   * the label-already-present case of `HandledPR`.
   */
  lemma ReconcileIdempotent(labels: set<string>, name: string)
    ensures var once := Reconciled(labels, labels, name);
      Reconciled(once, once, name) == once
  {
  }

  /** A repeated-free sequence has as many elements as its set. */
  lemma {:induction false} DistinctCardinality(s: seq<string>)
    requires Distinct(s)
    ensures |Elements(s)| == |s|
  {
    if s != [] {
      var s' := s[..|s| - 1];
      assert Elements(s) == Elements(s') + {s[|s| - 1]};
      assert s[|s| - 1] !in Elements(s');
      DistinctCardinality(s');
    }
  }

  /** Taking label `l` off the pending set adds it to the handled size labels when it is one. */
  lemma PendingStep(seen: set<string>, pending: set<string>, l: string)
    requires l in pending
    ensures SizeLabelsOf(seen - (pending - {l}))
         == SizeLabelsOf(seen - pending) + (if IsSizeLabel(l) && l in seen then {l} else {})
  {
  }

  /** One more removal extends both the removed set and the call log by that label. */
  lemma AppendRemoval(pr: PRKey, removed: seq<string>, l: string)
    requires Distinct(removed) && l !in Elements(removed)
    ensures Distinct(removed + [l])
    ensures Elements(removed + [l]) == Elements(removed) + {l}
    ensures Removals(pr, removed + [l]) == Removals(pr, removed) + [RemoveLabel(pr, l)]
  {
    assert (removed + [l])[..|removed|] == removed;
  }

  /** The event filter: only opened pull requests and changed source branches are processed. */
  function IsPRChanged(action: string): (r: bool)
    ensures r <==> action in {ActionOpen, ActionChangedSourceBranch}
  {
    action == ActionOpen || action == ActionChangedSourceBranch
  }

  /** The label the handler computes for a list of changed files. */
  function TargetLabel(files: seq<PullRequestFile>, size: Size): (r: string)
    ensures r in AllNames
  {
    CompareAndGetLabel(SumChanges(files), size).Name()
  }

  /**
   * The platform client, seen as one remote pull request: its label set and
   * the log of calls made to it. Its answers are fixed when it is built: the
   * change list or an error, the labels whose removal fails and with which
   * message, and whether adding fails. A failed call changes no label.
   */
  class Client {
    var labels: set<string>
    var calls: seq<Call>
    const changes: Result<seq<PullRequestFile>, string>
    const removeFailures: map<string, string>
    const addFailure: Option<string>

    constructor (labels: set<string>, changes: Result<seq<PullRequestFile>, string>,
                 removeFailures: map<string, string>, addFailure: Option<string>)
      ensures this.labels == labels && calls == []
      ensures this.changes == changes && this.removeFailures == removeFailures
      ensures this.addFailure == addFailure
    {
      this.labels := labels;
      this.calls := [];
      this.changes := changes;
      this.removeFailures := removeFailures;
      this.addFailure := addFailure;
    }

    method GetPullRequestChanges(pr: PRKey) returns (r: Result<seq<PullRequestFile>, string>)
      modifies this
      ensures r == changes
      ensures labels == old(labels) && calls == old(calls) + [GetChanges(pr)]
    {
      r := changes;
      calls := calls + [GetChanges(pr)];
    }

    method RemovePRLabel(pr: PRKey, name: string) returns (err: Option<string>)
      modifies this
      ensures err == if name in removeFailures then Some(removeFailures[name]) else None
      ensures labels == if err == None then old(labels) - {name} else old(labels)
      ensures calls == old(calls) + [RemoveLabel(pr, name)]
    {
      calls := calls + [RemoveLabel(pr, name)];
      if name in removeFailures {
        err := Some(removeFailures[name]);
      } else {
        err := None;
        labels := labels - {name};
      }
    }

    method AddPRLabel(pr: PRKey, name: string) returns (err: Option<string>)
      modifies this
      ensures err == addFailure
      ensures labels == if err == None then old(labels) + {name} else old(labels)
      ensures calls == old(calls) + [AddLabel(pr, name)]
    {
      calls := calls + [AddLabel(pr, name)];
      err := addFailure;
      if err == None {
        labels := labels + {name};
      }
    }
  }

  function ClientErr(e: Option<string>): Option<Error>
  {
    if e == None then None else Some(ClientError(e.value))
  }

  /**
   * The outcome of handling pull request `pr` with item `cfg` on client `cli`:
   * the error returned, the remote label set and the exact call log on every
   * exit. `removed` lists the size labels removed, in the order chosen;
   * `failed` is the label whose removal failed, if one did.
   */
  twostate predicate HandledPR(cli: Client, pr: PRInfo, cfg: BotConfig, new err: Option<Error>,
                               new removed: seq<string>, new failed: Option<string>)
    reads cli
  {
    // a failed fetch returns its error before any label call
    && (cli.changes.Failure? ==>
      && err == Some(ClientError(cli.changes.error))
      && cli.labels == old(cli.labels)
      && cli.calls == old(cli.calls) + [GetChanges(pr.key)])
    // the computed label is already there: nothing but the fetch
    && (cli.changes.Success? && TargetLabel(cli.changes.value, cfg.sizes) in pr.labels ==>
      && err == None
      && cli.labels == old(cli.labels)
      && cli.calls == old(cli.calls) + [GetChanges(pr.key)])
    // otherwise the size labels seen at event time are removed, then the label added
    && (cli.changes.Success? && TargetLabel(cli.changes.value, cfg.sizes) !in pr.labels ==>
      var name := TargetLabel(cli.changes.value, cfg.sizes);
      // only size labels of the pull request are removed, each once, all successfully
      && Distinct(removed)
      && Elements(removed) <= SizeLabelsOf(pr.labels)
      && (forall x :: x in removed ==> x !in cli.removeFailures)
      && (match failed
          // a failed removal ends the handling: no add, no rollback
          case Some(f) =>
            && f in SizeLabelsOf(pr.labels) - Elements(removed)
            && f in cli.removeFailures
            && err == Some(ClientError(cli.removeFailures[f]))
            && cli.labels == old(cli.labels) - Elements(removed)
            && cli.calls == old(cli.calls) + [GetChanges(pr.key)] + Removals(pr.key, removed)
                                          + [RemoveLabel(pr.key, f)]
          // every size label was removed, then the one add, whose error is returned as is
          case None =>
            && Elements(removed) == SizeLabelsOf(pr.labels)
            && |removed| == |SizeLabelsOf(pr.labels)|
            && err == ClientErr(cli.addFailure)
            && cli.labels == (if err == None then Reconciled(old(cli.labels), pr.labels, name)
                              else old(cli.labels) - Elements(removed))
            && cli.calls == old(cli.calls) + [GetChanges(pr.key)] + Removals(pr.key, removed)
                                          + [AddLabel(pr.key, name)]))
  }

  class Robot {
    const cli: Client

    constructor (cli: Client)
      ensures this.cli == cli
    {
      this.cli := cli;
    }

    /**
     * The removal loop: every label seen at event time that carries the size
     * prefix is removed, in an arbitrary order, until one removal fails.
     */
    method RemoveSizeLabels(pr: PRInfo)
      returns (e: Option<string>, ghost removed: seq<string>, ghost failed: Option<string>)
      modifies cli
      ensures Distinct(removed)
      ensures Elements(removed) <= SizeLabelsOf(pr.labels)
      ensures forall x :: x in removed ==> x !in cli.removeFailures
      ensures cli.labels == old(cli.labels) - Elements(removed)
      ensures failed == None ==>
        && e == None
        && Elements(removed) == SizeLabelsOf(pr.labels)
        && |removed| == |SizeLabelsOf(pr.labels)|
        && cli.calls == old(cli.calls) + Removals(pr.key, removed)
      ensures failed != None ==>
        && failed.value in SizeLabelsOf(pr.labels) - Elements(removed)
        && failed.value in cli.removeFailures
        && e == Some(cli.removeFailures[failed.value])
        && cli.calls == old(cli.calls) + Removals(pr.key, removed) + [RemoveLabel(pr.key, failed.value)]
    {
      removed, failed := [], None;
      var pending := pr.labels;
      while pending != {}
        invariant pending <= pr.labels
        invariant Elements(removed) == SizeLabelsOf(pr.labels - pending)
        invariant Distinct(removed)
        invariant forall x :: x in removed ==> x !in cli.removeFailures
        invariant cli.labels == old(cli.labels) - Elements(removed)
        invariant cli.calls == old(cli.calls) + Removals(pr.key, removed)
        decreases pending
      {
        var l :| l in pending;
        assert l !in Elements(removed);
        PendingStep(pr.labels, pending, l);
        pending := pending - {l};
        if IsSizeLabel(l) {
          e := cli.RemovePRLabel(pr.key, l);
          if e != None {
            failed := Some(l);
            return;
          }
          AppendRemoval(pr.key, removed, l);
          removed := removed + [l];
        }
      }
      e := None;
      DistinctCardinality(removed);
    }

    /** Handling of one pull request; the ghost results are those of `HandledPR`. */
    method HandlePR(pr: PRInfo, cfg: BotConfig)
      returns (err: Option<Error>, ghost removed: seq<string>, ghost failed: Option<string>)
      modifies cli
      ensures HandledPR(cli, pr, cfg, err, removed, failed)
    {
      removed, failed := [], None;
      var changeFiles := cli.GetPullRequestChanges(pr.key);
      if changeFiles.Failure? {
        return Some(ClientError(changeFiles.error)), removed, failed;
      }

      var changeCount := ChangeCount(changeFiles.value);
      var name := CompareAndGetLabel(changeCount, cfg.sizes).Name();
      assert name == TargetLabel(cli.changes.value, cfg.sizes);

      if name in pr.labels {
        return None, removed, failed;
      }

      var e;
      e, removed, failed := RemoveSizeLabels(pr);
      if e != None {
        return Some(ClientError(e.value)), removed, failed;
      }

      e := cli.AddPRLabel(pr.key, name);
      err := ClientErr(e);
    }

    /**
     * Handling of one pull-request event. `cfg` is the configuration item found
     * for the pull request's repository, if any.
     */
    method HandlePREvent(action: string, pr: PRInfo, cfg: Option<BotConfig>)
      returns (err: Option<Error>, ghost removed: seq<string>, ghost failed: Option<string>)
      modifies cli
      // an ignored action makes no call at all
      ensures !IsPRChanged(action) ==>
        err == None && cli.labels == old(cli.labels) && cli.calls == old(cli.calls)
      ensures IsPRChanged(action) && cfg == None ==>
        && err == Some(NoConfigForRepo(pr.key.org, pr.key.repo))
        && cli.labels == old(cli.labels) && cli.calls == old(cli.calls)
      // otherwise the pull request is handled, with the outcome of HandlePR
      ensures IsPRChanged(action) && cfg != None ==> HandledPR(cli, pr, cfg.value, err, removed, failed)
    {
      removed, failed := [], None;
      if !IsPRChanged(action) {
        return None, removed, failed;
      }
      if cfg == None {
        return Some(NoConfigForRepo(pr.key.org, pr.key.repo)), removed, failed;
      }
      err, removed, failed := HandlePR(pr, cfg.value);
    }
  }
}
