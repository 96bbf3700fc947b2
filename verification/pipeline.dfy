/** From workflows to reported errors (`LintWorkflowContext` and
    `LintWorkflowFilesContext` in pkg/linter/linter.go): one result per step,
    then the results folded into one list of errors. The goroutines and
    channels of the source deliver the results in no fixed order; here they
    come in a sequence, and the properties that matter are stated as
    multisets. */
module Pipeline {
  import opened Wrappers
  import opened Text
  import opened Params
  import opened Engine

  /** What a step runs: an action (with its `uses:` value, possibly missing)
      or anything else, such as a shell command. */
  datatype Exec = ExecAction(uses: Option<UsesString>) | ExecOther

  datatype Step = Step(exec: Exec)

  datatype Job = Job(name: string, steps: seq<Step>)

  /** What the workflow parser returns: the jobs (in the order the map is
      walked) and the parse errors. */
  datatype ParseOutcome = ParseOutcome(jobs: seq<Job>, errors: seq<string>)

  /** `Result`: the errors of one step, or a runtime error. */
  datatype LintResult = LintResult(lintErrors: seq<LintError>, runtimeError: Option<string>)

  /** All infos' parameters are complete. */
  predicate AllComplete(infos: seq<WorkflowLintInfo>)
    reads set i | i in infos :: i.params
  {
    forall i :: i in infos ==> i.params.Value().Complete()
  }

  /** The result a step's task delivers: the chain's error for an action,
      nothing for any other step. */
  function StepResult(step: Step, info: WorkflowLintInfo, remote: Remote): (r: LintResult)
    reads info.params
    requires info.params.Value().Complete()
    ensures r.runtimeError.None? && |r.lintErrors| <= 1
    ensures forall e :: e in r.lintErrors <==>
      step.exec.ExecAction? && LintJobUses(step.exec.uses, info, remote) == Some(e)
  {
    match step.exec
    case ExecAction(uses) =>
      var err := LintJobUses(uses, info, remote);
      LintResult(if err.Some? then [err.value] else [], None)
    case ExecOther => LintResult([], None)
  }

  function StepResults(steps: seq<Step>, info: WorkflowLintInfo, remote: Remote): (r: seq<LintResult>)
    reads info.params
    requires info.params.Value().Complete()
    ensures |r| == |steps| && forall k :: 0 <= k < |steps| ==> r[k] == StepResult(steps[k], info, remote)
  {
    seq(|steps|, k reads info.params requires 0 <= k < |steps| && info.params.Value().Complete() =>
      StepResult(steps[k], info, remote))
  }

  function JobResults(jobs: seq<Job>, info: WorkflowLintInfo, remote: Remote): (r: seq<LintResult>)
    reads info.params
    requires info.params.Value().Complete()
    ensures forall k :: 0 <= k < |r| ==> r[k].runtimeError.None?
  {
    if |jobs| == 0 then []
    else JobResults(jobs[..|jobs| - 1], info, remote) + StepResults(jobs[|jobs| - 1].steps, info, remote)
  }

  function ParseFailureMessage(info: WorkflowLintInfo, errors: seq<string>): string {
    "failed to parse workflow: path=" + info.filePath + ", msg=" + Join(errors, "\n")
  }

  /** `LintWorkflowContext`: a workflow that does not parse gives a single
      runtime error naming the file and every parse error; otherwise there is
      one result per step of every job. */
  function WorkflowResults(parsed: ParseOutcome, info: WorkflowLintInfo, remote: Remote): (r: seq<LintResult>)
    reads info.params
    requires info.params.Value().Complete()
    ensures |parsed.errors| > 0 ==> r == [LintResult([], Some(ParseFailureMessage(info, parsed.errors)))]
    ensures |parsed.errors| == 0 ==> forall k :: 0 <= k < |r| ==> r[k].runtimeError.None?
  {
    if |parsed.errors| > 0 then [LintResult([], Some(ParseFailureMessage(info, parsed.errors)))]
    else JobResults(parsed.jobs, info, remote)
  }

  // ---------------------------------------------------------------------------
  // The fold over results
  // ---------------------------------------------------------------------------

  /** The errors of every result without a runtime error, in order. */
  function Collected(results: seq<LintResult>): seq<LintError> {
    if |results| == 0 then []
    else
      var last := results[|results| - 1];
      Collected(results[..|results| - 1]) + (if last.runtimeError.None? then last.lintErrors else [])
  }

  /** The result loop of `LintWorkflowFilesContext`. */
  method CollectLintErrors(results: seq<LintResult>) returns (lintErrors: seq<LintError>)
    ensures lintErrors == Collected(results)
  {
    lintErrors := [];
    for i := 0 to |results|
      invariant lintErrors == Collected(results[..i])
    {
      assert results[..i + 1][..i] == results[..i];
      if results[i].runtimeError.Some? {
        continue;
      }
      lintErrors := lintErrors + results[i].lintErrors;
    }
    assert results[..|results|] == results;
  }

  lemma {:induction false} CollectedConcat(a: seq<LintResult>, b: seq<LintResult>)
    ensures Collected(a + b) == Collected(a) + Collected(b)
  {
    if |b| == 0 {
      assert a + b == a;
    } else {
      var b' := b[..|b| - 1];
      assert (a + b)[..|a + b| - 1] == a + b';
      CollectedConcat(a, b');
    }
  }

  /** An error is reported exactly when some result without a runtime error
      carries it: runtime errors drop only their own result, and nothing else
      is dropped. */
  lemma {:induction false} CollectedMembers(results: seq<LintResult>)
    ensures forall e :: e in Collected(results) <==>
      exists k :: 0 <= k < |results| && results[k].runtimeError.None? && e in results[k].lintErrors
  {
    if |results| > 0 {
      var init := results[..|results| - 1];
      CollectedMembers(init);
      assert forall k :: 0 <= k < |init| ==> init[k] == results[k];
    }
  }

  /** The order in which results arrive does not change which errors are
      reported, nor how often. */
  lemma {:induction false} CollectedPermutation(a: seq<LintResult>, b: seq<LintResult>)
    requires multiset(a) == multiset(b)
    ensures multiset(Collected(a)) == multiset(Collected(b))
    decreases |a|
  {
    if |a| == 0 {
      assert |multiset(b)| == 0;
    } else {
      var x := a[|a| - 1];
      var a' := a[..|a| - 1];
      assert a == a' + [x];
      assert x in multiset(b);
      var j :| 0 <= j < |b| && b[j] == x;
      var b' := b[..j] + b[j + 1..];
      RemoveAt(b, j);
      assert multiset(a) == multiset(a') + multiset{x};
      CollectedPermutation(a', b');
      CollectedConcat(a', [x]);
      CollectedRemoveAt(b, j);
    }
  }

  /** Removing the element at `j` removes one occurrence of it. */
  lemma RemoveAt(b: seq<LintResult>, j: nat)
    requires j < |b|
    ensures multiset(b[..j] + b[j + 1..]) == multiset(b) - multiset{b[j]}
  {
    assert b == b[..j] + [b[j]] + b[j + 1..];
  }

  /** Folding with the result at `j` taken out, then that result's errors. */
  lemma CollectedRemoveAt(b: seq<LintResult>, j: nat)
    requires j < |b|
    ensures multiset(Collected(b)) == multiset(Collected(b[..j] + b[j + 1..]) + Collected([b[j]]))
  {
    assert b[j..] == [b[j]] + b[j + 1..];
    assert b == b[..j] + b[j..];
    CollectedMoveLast(b[..j], [b[j]], b[j + 1..]);
  }

  /** Moving a middle block to the end keeps the errors, up to order. */
  lemma CollectedMoveLast(p: seq<LintResult>, x: seq<LintResult>, q: seq<LintResult>)
    ensures multiset(Collected(p + (x + q))) == multiset(Collected(p + q) + Collected(x))
  {
    CollectedConcat(p, x + q);
    CollectedConcat(x, q);
    CollectedConcat(p, q);
  }

  // ---------------------------------------------------------------------------
  // Many files
  // ---------------------------------------------------------------------------

  /** The results of every file, file after file. */
  function AllResults(infos: seq<WorkflowLintInfo>, parsed: seq<ParseOutcome>, remote: Remote): seq<LintResult>
    reads set i | i in infos :: i.params
    requires |infos| == |parsed| && AllComplete(infos)
  {
    if |infos| == 0 then []
    else
      var n := |infos| - 1;
      assert forall i :: i in infos[..n] ==> i in infos;
      AllResults(infos[..n], parsed[..n], remote) + WorkflowResults(parsed[n], infos[n], remote)
  }

  /** `LintWorkflowFilesContext`, with each file's contents already parsed:
      every step's task runs, and the errors of the results are collected. */
  method LintWorkflowFiles(infos: seq<WorkflowLintInfo>, parsed: seq<ParseOutcome>, remote: Remote)
    returns (lintErrors: seq<LintError>)
    requires |infos| == |parsed| && AllComplete(infos)
    ensures lintErrors == Collected(AllResults(infos, parsed, remote))
  {
    var results: seq<LintResult> := [];
    for i := 0 to |infos|
      invariant results == AllResults(infos[..i], parsed[..i], remote)
    {
      assert infos[..i + 1][..i] == infos[..i] && parsed[..i + 1][..i] == parsed[..i];
      results := results + WorkflowResults(parsed[i], infos[i], remote);
    }
    assert infos[..|infos|] == infos && parsed[..|parsed|] == parsed;
    lintErrors := CollectLintErrors(results);
  }

  /** A workflow that does not parse reports nothing: its runtime error is
      dropped by the fold. */
  lemma ParseFailureReportsNothing(parsed: ParseOutcome, info: WorkflowLintInfo, remote: Remote)
    requires info.params.Value().Complete()
    requires |parsed.errors| > 0
    ensures Collected(WorkflowResults(parsed, info, remote)) == []
  {
    assert [LintResult([], Some(ParseFailureMessage(info, parsed.errors)))][..0] == [];
  }

  /** The errors of a parsed workflow are exactly the chain's errors for its
      action steps. */
  lemma WorkflowErrors(jobs: seq<Job>, info: WorkflowLintInfo, remote: Remote)
    requires info.params.Value().Complete()
    ensures forall e :: e in Collected(JobResults(jobs, info, remote)) <==>
      exists j, k :: 0 <= j < |jobs| && 0 <= k < |jobs[j].steps| && StepReports(jobs[j].steps[k], info, remote, e)
  {
    var steps := AllSteps(jobs);
    JobResultsAreStepResults(jobs, info, remote);
    StepsErrors(steps, info, remote);
    AllStepsMembers(jobs);
    forall e | e in Collected(JobResults(jobs, info, remote))
      ensures exists j, k :: 0 <= j < |jobs| && 0 <= k < |jobs[j].steps| && StepReports(jobs[j].steps[k], info, remote, e)
    {
      var i :| 0 <= i < |steps| && StepReports(steps[i], info, remote, e);
      assert steps[i] in steps;
      var j, k :| 0 <= j < |jobs| && 0 <= k < |jobs[j].steps| && jobs[j].steps[k] == steps[i];
    }
    forall e, j, k | 0 <= j < |jobs| && 0 <= k < |jobs[j].steps| && StepReports(jobs[j].steps[k], info, remote, e)
      ensures e in Collected(JobResults(jobs, info, remote))
    {
      var s := jobs[j].steps[k];
      assert s in steps;
      var i :| 0 <= i < |steps| && steps[i] == s;
    }
  }

  /** Every step of every job, job after job. */
  function AllSteps(jobs: seq<Job>): seq<Step> {
    if |jobs| == 0 then [] else AllSteps(jobs[..|jobs| - 1]) + jobs[|jobs| - 1].steps
  }

  lemma {:induction false} AllStepsMembers(jobs: seq<Job>)
    ensures forall s :: s in AllSteps(jobs) <==>
      exists j, k :: 0 <= j < |jobs| && 0 <= k < |jobs[j].steps| && jobs[j].steps[k] == s
  {
    if |jobs| > 0 {
      var init := jobs[..|jobs| - 1];
      AllStepsMembers(init);
      assert forall j :: 0 <= j < |init| ==> init[j] == jobs[j];
      var n := |jobs| - 1;
      forall k | 0 <= k < |jobs[n].steps|
        ensures exists j, k' :: 0 <= j < |jobs| && 0 <= k' < |jobs[j].steps| && jobs[j].steps[k'] == jobs[n].steps[k]
      {
        assert 0 <= n < |jobs| && 0 <= k < |jobs[n].steps| && jobs[n].steps[k] == jobs[n].steps[k];
      }
      assert AllSteps(jobs) == AllSteps(init) + jobs[n].steps;
      forall s | s in AllSteps(jobs)
        ensures exists j, k :: 0 <= j < |jobs| && 0 <= k < |jobs[j].steps| && jobs[j].steps[k] == s
      {
        if s !in AllSteps(init) {
          var k :| 0 <= k < |jobs[n].steps| && jobs[n].steps[k] == s;
        }
      }
    }
  }

  lemma {:induction false} JobResultsAreStepResults(jobs: seq<Job>, info: WorkflowLintInfo, remote: Remote)
    requires info.params.Value().Complete()
    ensures JobResults(jobs, info, remote) == StepResults(AllSteps(jobs), info, remote)
  {
    if |jobs| > 0 {
      var init := jobs[..|jobs| - 1];
      JobResultsAreStepResults(init, info, remote);
      StepResultsConcat(AllSteps(init), jobs[|jobs| - 1].steps, info, remote);
    }
  }

  lemma StepResultsConcat(a: seq<Step>, b: seq<Step>, info: WorkflowLintInfo, remote: Remote)
    requires info.params.Value().Complete()
    ensures StepResults(a + b, info, remote) == StepResults(a, info, remote) + StepResults(b, info, remote)
  {
    var l := StepResults(a + b, info, remote);
    var r := StepResults(a, info, remote) + StepResults(b, info, remote);
    forall i | 0 <= i < |l| ensures l[i] == r[i] {
      if i < |a| {
        assert (a + b)[i] == a[i];
      } else {
        assert (a + b)[i] == b[i - |a|];
      }
    }
  }

  /** Whether a step's chain reports error `e`. */
  predicate StepReports(step: Step, info: WorkflowLintInfo, remote: Remote, e: LintError)
    reads info.params
    requires info.params.Value().Complete()
  {
    step.exec.ExecAction? && LintJobUses(step.exec.uses, info, remote) == Some(e)
  }

  /** The errors of one job's steps. */
  lemma StepsErrors(steps: seq<Step>, info: WorkflowLintInfo, remote: Remote)
    requires info.params.Value().Complete()
    ensures forall e :: e in Collected(StepResults(steps, info, remote)) <==>
      exists k :: 0 <= k < |steps| && StepReports(steps[k], info, remote, e)
  {
    CollectedMembers(StepResults(steps, info, remote));
  }

  /** An error of any kind that the chain returns for a step, a runtime-error
      kind included, is reported. */
  lemma StepErrorReported(jobs: seq<Job>, info: WorkflowLintInfo, remote: Remote, j: nat, k: nat)
    requires info.params.Value().Complete()
    requires j < |jobs| && k < |jobs[j].steps| && jobs[j].steps[k].exec.ExecAction?
    requires LintJobUses(jobs[j].steps[k].exec.uses, info, remote).Some?
    ensures LintJobUses(jobs[j].steps[k].exec.uses, info, remote).value
      in Collected(WorkflowResults(ParseOutcome(jobs, []), info, remote))
  {
    WorkflowErrors(jobs, info, remote);
    assert StepReports(jobs[j].steps[k], info, remote, LintJobUses(jobs[j].steps[k].exec.uses, info, remote).value);
  }
}
